/** The speech generation page: text, a voice chosen from a fixed list, and
    one request per click. The state between events is `VoiceState`;
    `GenerateStep` is the click up to the request and `SettleStep` what
    happens when the request settles. The class `VoicePage` holds the same
    state in fields. */
module Voice {
  import opened Common

  /** The voices the selector offers, in order. */
  const VOICES: seq<string> := ["Kore", "Puck", "Zephyr", "Charon", "Fenrir"]

  /** A position in `VOICES`. The selector offers exactly these names, which
      are distinct, so the selected name is held as its position
      (`IndicesNameEveryVoice`). */
  type VoiceIndex = i: nat | i < |VOICES|

  /** The name the selector shows, and passes on, for a position. */
  function VoiceName(v: VoiceIndex): (name: string)
    ensures name in VOICES
  {
    VOICES[v]
  }

  /** Positions and voices correspond one to one: every position names a
      voice, every voice of the list is named by exactly one position. */
  lemma IndicesNameEveryVoice()
    ensures |VOICES| == 5
    ensures forall name :: name in VOICES ==> exists v: VoiceIndex :: VoiceName(v) == name
    ensures forall v: VoiceIndex, w: VoiceIndex :: VoiceName(v) == VoiceName(w) ==> v == w
  {
    forall name | name in VOICES
      ensures exists v: VoiceIndex :: VoiceName(v) == name
    {
      var i :| 0 <= i < |VOICES| && VOICES[i] == name;
      assert VoiceName(i) == name;
    }
  }

  const PROMPT_REQUIRED := "Please enter some text to generate audio."
  const UNKNOWN_ERROR := "An unknown error occurred."
  const DATA_URI_PREFIX := "data:audio/mpeg;base64,"

  datatype VoiceState = VoiceState(
    prompt: string,
    selectedVoice: VoiceIndex,
    isLoading: bool,
    error: Option<string>,
    audioSrc: Option<string>)

  /** What `generateSpeech` is called with. */
  datatype SpeechRequest = SpeechRequest(text: string, voice: string)

  datatype Transition = Transition(state: VoiceState, request: Option<SpeechRequest>)

  /** While a request is in flight the page shows neither an old error nor
      old audio. */
  ghost predicate Valid(s: VoiceState) {
    s.isLoading ==> s.error.None? && s.audioSrc.None?
  }

  /** The page as first rendered: the first voice of the list is selected. */
  function Initial(): (s: VoiceState)
    ensures Valid(s) && GenerateEnabled(s)
    ensures VoiceName(s.selectedVoice) == "Kore" && s.audioSrc.None? && s.error.None?
  {
    VoiceState("", 0, false, None, None)
  }

  /** The Generate Speech button: `disabled={isLoading}`. */
  predicate GenerateEnabled(s: VoiceState): (b: bool)
    ensures Valid(s) && !b ==> s.error.None? && s.audioSrc.None?
  {
    !s.isLoading
  }

  /** The selector's `onChange`: it can only report one of its options. */
  function SelectVoiceStep(s: VoiceState, voice: VoiceIndex): (r: VoiceState)
    requires Valid(s)
    ensures Valid(r) && r.selectedVoice == voice
    ensures r.(selectedVoice := s.selectedVoice) == s
  {
    s.(selectedVoice := voice)
  }

  /** `handleGenerate` up to its await: a blank text is reported and nothing
      else changes; otherwise the page starts loading, clears the error and
      the old audio, and requests speech for the text as typed in the voice
      selected at the time of the click. */
  function GenerateStep(s: VoiceState): (t: Transition)
    requires Valid(s) && GenerateEnabled(s)
    ensures Valid(t.state)
    ensures t.request.Some? <==> !IsBlank(s.prompt)
    ensures IsBlank(s.prompt) ==> t.state == s.(error := Some(PROMPT_REQUIRED))
    ensures !IsBlank(s.prompt) ==>
              && t.request == Some(SpeechRequest(s.prompt, VoiceName(s.selectedVoice)))
              && t.state == s.(isLoading := true, error := None, audioSrc := None)
  {
    if Trim(s.prompt) == [] then
      Transition(s.(error := Some(PROMPT_REQUIRED)), None)
    else
      Transition(s.(isLoading := true, error := None, audioSrc := None),
                 Some(SpeechRequest(s.prompt, VoiceName(s.selectedVoice))))
  }

  /** The request settled: a resolved request plays the audio from an MPEG
      data URI, a rejected one shows the error's message; either way loading
      stops and the button is enabled again. */
  function SettleStep(s: VoiceState, reply: Reply): (r: VoiceState)
    requires Valid(s) && s.isLoading
    ensures Valid(r) && !r.isLoading && GenerateEnabled(r)
    ensures r.prompt == s.prompt && r.selectedVoice == s.selectedVoice
    ensures reply.Resolved? ==>
              r.audioSrc == Some(DATA_URI_PREFIX + reply.data) && r.error.None?
    ensures reply.Rejected? ==>
              r.error == Some(MessageOf(reply.thrown, UNKNOWN_ERROR)) && r.audioSrc.None?
  {
    var settled := match reply
      case Resolved(audioData) => s.(audioSrc := Some(DATA_URI_PREFIX + audioData))
      case Rejected(thrown) => s.(error := Some(MessageOf(thrown, UNKNOWN_ERROR)));
    settled.(isLoading := false)
  }

  /** The button follows the request: a click that sends one disables the
      button, a click on a blank prompt leaves it enabled, and however the
      request settles the button is enabled again. */
  lemma ClickDisablesButton(s: VoiceState)
    requires Valid(s) && GenerateEnabled(s)
    ensures GenerateStep(s).request.Some? <==> !GenerateEnabled(GenerateStep(s).state)
    ensures GenerateStep(s).request.Some? ==>
              forall reply :: GenerateEnabled(SettleStep(GenerateStep(s).state, reply))
  {
  }

  /** What the user and the speech service can do next. */
  datatype Event = EditPrompt(text: string) | SelectVoice(voice: VoiceIndex) | Click | Settle(reply: Reply)

  /** A click needs the enabled button and a settlement a request in
      flight. */
  predicate Enabled(s: VoiceState, e: Event) {
    match e
    case EditPrompt(_) | SelectVoice(_) => true
    case Click => GenerateEnabled(s)
    case Settle(_) => s.isLoading
  }

  function Step(s: VoiceState, e: Event): (t: Transition)
    requires Valid(s) && Enabled(s, e)
    ensures Valid(t.state)
    ensures t.request.Some? ==>
              && e.Click? && !IsBlank(s.prompt)
              && t.request.value == SpeechRequest(s.prompt, VoiceName(s.selectedVoice))
  {
    match e
    case EditPrompt(text) => Transition(s.(prompt := text), None)
    case SelectVoice(voice) => Transition(SelectVoiceStep(s, voice), None)
    case Click => GenerateStep(s)
    case Settle(reply) => Transition(SettleStep(s, reply), None)
  }

  /** Every event of `es` is enabled when it happens. */
  ghost predicate Feasible(s: VoiceState, es: seq<Event>)
    requires Valid(s)
    decreases |es|
  {
    es == [] || (Enabled(s, es[0]) && Feasible(Step(s, es[0]).state, es[1..]))
  }

  /** The state after a run, the requests sent to the speech service in
      order, and the number of requests that settled. */
  datatype Outcome = Outcome(state: VoiceState, requests: seq<SpeechRequest>, settled: nat)

  /** A request the page can make: non-blank text and an offered voice. */
  ghost predicate Admissible(r: SpeechRequest) {
    !IsBlank(r.text) && r.voice in VOICES
  }

  function Run(s: VoiceState, es: seq<Event>): (o: Outcome)
    requires Valid(s) && Feasible(s, es)
    ensures |o.requests| <= |es|
    decreases |es|
  {
    if es == [] then
      Outcome(s, [], 0)
    else
      var t := Step(s, es[0]);
      var o := Run(t.state, es[1..]);
      var sent := if t.request.Some? then [t.request.value] else [];
      var settled := if es[0].Settle? then 1 else 0;
      Outcome(o.state, sent + o.requests, o.settled + settled)
  }

  /** Whatever happens to the page, every request it makes is one the
      guards admit. */
  lemma {:induction false} RunRequestsAdmissible(s: VoiceState, es: seq<Event>)
    requires Valid(s) && Feasible(s, es)
    ensures forall i :: 0 <= i < |Run(s, es).requests| ==> Admissible(Run(s, es).requests[i])
    decreases |es|
  {
    if es != [] {
      var t := Step(s, es[0]);
      RunRequestsAdmissible(t.state, es[1..]);
      var rest := Run(t.state, es[1..]).requests;
      var sent := if t.request.Some? then [t.request.value] else [];
      assert Run(s, es).requests == sent + rest;
      forall i | 0 <= i < |sent + rest|
        ensures Admissible((sent + rest)[i])
      {
        if i >= |sent| {
          assert (sent + rest)[i] == rest[i - |sent|];
        }
      }
    }
  }

  /** The disabled button keeps at most one request in flight: over any run
      the requests made exceed the settled ones by one exactly while the
      page is loading, and never by more. */
  lemma {:induction false} AtMostOneInFlight(s: VoiceState, es: seq<Event>)
    requires Valid(s) && Feasible(s, es)
    ensures var o := Run(s, es);
            (if o.state.isLoading then 1 else 0) + o.settled
            == (if s.isLoading then 1 else 0) + |o.requests|
    decreases |es|
  {
    if es != [] {
      AtMostOneInFlight(Step(s, es[0]).state, es[1..]);
    }
  }

  /** From an idle page, a run has settled every request it made, or all
      but the last one, which is then still loading. */
  lemma InFlightFromIdle(s: VoiceState, es: seq<Event>)
    requires Valid(s) && !s.isLoading && Feasible(s, es)
    ensures var o := Run(s, es);
            && o.settled <= |o.requests| <= o.settled + 1
            && (o.state.isLoading <==> |o.requests| == o.settled + 1)
  {
    AtMostOneInFlight(s, es);
  }

  /** Choosing another voice while a request is in flight does not change
      the voice of the request already made, and the next click asks for the
      newly chosen voice. */
  lemma VoiceCapturedAtClick(s: VoiceState, voice: VoiceIndex, reply: Reply)
    requires Valid(s) && GenerateEnabled(s) && !IsBlank(s.prompt)
    ensures var t := GenerateStep(s);
            var u := SelectVoiceStep(t.state, voice);
            var v := SettleStep(u, reply);
            && t.request.value.voice == VoiceName(s.selectedVoice)
            && GenerateStep(v).request == Some(SpeechRequest(s.prompt, VoiceName(voice)))
  {
  }

  /** The page component. */
  class VoicePage {
    var prompt: string
    var selectedVoice: VoiceIndex
    var isLoading: bool
    var error: Option<string>
    var audioSrc: Option<string>

    ghost function State(): VoiceState
      reads this
    {
      VoiceState(prompt, selectedVoice, isLoading, error, audioSrc)
    }

    constructor ()
      ensures State() == Initial()
    {
      prompt, selectedVoice, isLoading, error, audioSrc := "", 0, false, None, None;
    }

    /** The text area's `onChange`. */
    method SetPrompt(text: string)
      requires Valid(State())
      modifies this
      ensures Valid(State()) && State() == old(State()).(prompt := text)
    {
      prompt := text;
    }

    /** The voice selector's `onChange`. */
    method SetSelectedVoice(voice: VoiceIndex)
      requires Valid(State())
      modifies this
      ensures Valid(State()) && State() == SelectVoiceStep(old(State()), voice)
    {
      selectedVoice := voice;
    }

    /** A click on the Generate Speech button; returns the request passed to
      the speech service, if one is made. */
    method HandleGenerate() returns (request: Option<SpeechRequest>)
      requires Valid(State()) && GenerateEnabled(State())
      modifies this
      ensures Valid(State())
      ensures State() == GenerateStep(old(State())).state && request == GenerateStep(old(State())).request
    {
      var trimmed := Trim(prompt);
      if trimmed == [] {
        error := Some(PROMPT_REQUIRED);
        request := None;
      } else {
        var voice := VoiceName(selectedVoice);
        StartLoading();
        request := Some(SpeechRequest(prompt, voice));
      }
    }

    /** The updates before the await: loading starts, the error and the old
      audio are cleared. */
    method StartLoading()
      modifies this
      ensures State() == old(State()).(isLoading := true, error := None, audioSrc := None)
    {
      isLoading, error, audioSrc := true, None, None;
    }

    /** The awaited request settled: the try, catch and finally blocks. */
    method OnSettled(reply: Reply)
      requires Valid(State()) && isLoading
      modifies this
      ensures Valid(State()) && State() == SettleStep(old(State()), reply)
    {
      match reply {
        case Resolved(audioData) =>
          audioSrc := Some(DATA_URI_PREFIX + audioData);
        case Rejected(thrown) =>
          error := Some(MessageOf(thrown, UNKNOWN_ERROR));
      }
      isLoading := false;
    }
  }
}
