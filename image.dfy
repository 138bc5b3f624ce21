/** The image generation page: one request per click, no polling. The
    state between events is `ImageState`; `GenerateStep` is the click up to
    the request and `SettleStep` what happens when the request settles
    (the catch and the finally blocks included). The class `ImagePage` holds
    the same state in fields. */
module Image {
  import opened Common

  const PROMPT_REQUIRED := "Please enter a prompt to generate an image."
  const UNKNOWN_ERROR := "An unknown error occurred."
  const DATA_URI_PREFIX := "data:image/jpeg;base64,"

  datatype ImageState = ImageState(prompt: string, isLoading: bool, error: Option<string>, imageSrc: Option<string>)

  /** The new state and the prompt passed to `generateImage`, if any. */
  datatype Transition = Transition(state: ImageState, request: Option<string>)

  function Initial(): (s: ImageState)
    ensures Valid(s) && GenerateEnabled(s) && s.imageSrc.None? && s.error.None?
  {
    ImageState("", false, None, None)
  }

  /** While a request is in flight the page shows neither an old error nor
      an old image. */
  ghost predicate Valid(s: ImageState) {
    s.isLoading ==> s.error.None? && s.imageSrc.None?
  }

  /** The Generate button: `disabled={isLoading}`. */
  predicate GenerateEnabled(s: ImageState): (b: bool)
    ensures Valid(s) && !b ==> s.error.None? && s.imageSrc.None?
  {
    !s.isLoading
  }

  /** `handleGenerate` up to its await, reached by a click on the enabled
      button: a blank prompt is reported and nothing else changes; otherwise
      the page starts loading, clears the error and the old image, and
      requests an image for the prompt as typed. */
  function GenerateStep(s: ImageState): (t: Transition)
    requires GenerateEnabled(s)
    ensures Valid(t.state)
    ensures t.request.Some? <==> !IsBlank(s.prompt)
    ensures IsBlank(s.prompt) ==> t.state == s.(error := Some(PROMPT_REQUIRED))
    ensures !IsBlank(s.prompt) ==>
              t.request == Some(s.prompt) && t.state == s.(isLoading := true, error := None, imageSrc := None)
  {
    if Trim(s.prompt) == [] then
      Transition(s.(error := Some(PROMPT_REQUIRED)), None)
    else
      Transition(s.(isLoading := true, error := None, imageSrc := None), Some(s.prompt))
  }

  /** The request settled: a resolved request shows the image as a JPEG
      data URI, a rejected one shows the error's message; either way loading
      stops and the button is enabled again. */
  function SettleStep(s: ImageState, reply: Reply): (r: ImageState)
    requires Valid(s) && s.isLoading
    ensures Valid(r) && !r.isLoading && GenerateEnabled(r) && r.prompt == s.prompt
    ensures reply.Resolved? ==>
              r.imageSrc == Some(DATA_URI_PREFIX + reply.data) && r.error.None?
    ensures reply.Rejected? ==>
              r.error == Some(MessageOf(reply.thrown, UNKNOWN_ERROR)) && r.imageSrc.None?
  {
    var settled := match reply
      case Resolved(imageData) => s.(imageSrc := Some(DATA_URI_PREFIX + imageData))
      case Rejected(thrown) => s.(error := Some(MessageOf(thrown, UNKNOWN_ERROR)));
    settled.(isLoading := false)
  }

  /** The button follows the request: a click that sends one disables the
      button, a click on a blank prompt leaves it enabled, and however the
      request settles the button is enabled again. */
  lemma ClickDisablesButton(s: ImageState)
    requires GenerateEnabled(s)
    ensures GenerateStep(s).request.Some? <==> !GenerateEnabled(GenerateStep(s).state)
    ensures GenerateStep(s).request.Some? ==>
              forall reply :: GenerateEnabled(SettleStep(GenerateStep(s).state, reply))
  {
  }

  /** What the user and the image service can do next. */
  datatype Event = EditPrompt(text: string) | Click | Settle(reply: Reply)

  /** A click needs the enabled button; a settlement needs a request in
      flight; the prompt can be edited at any time. */
  predicate Enabled(s: ImageState, e: Event) {
    match e
    case EditPrompt(_) => true
    case Click => GenerateEnabled(s)
    case Settle(_) => s.isLoading
  }

  function Step(s: ImageState, e: Event): (t: Transition)
    requires Valid(s) && Enabled(s, e)
    ensures Valid(t.state)
    ensures t.request.Some? ==> e.Click? && !IsBlank(s.prompt) && t.request.value == s.prompt
  {
    match e
    case EditPrompt(text) => Transition(s.(prompt := text), None)
    case Click => GenerateStep(s)
    case Settle(reply) => Transition(SettleStep(s, reply), None)
  }

  /** Every event of `es` is enabled when it happens. */
  ghost predicate Feasible(s: ImageState, es: seq<Event>)
    requires Valid(s)
    decreases |es|
  {
    es == [] || (Enabled(s, es[0]) && Feasible(Step(s, es[0]).state, es[1..]))
  }

  /** The state after a run, the prompts sent to the image service in order,
      and the number of requests that settled. */
  datatype Outcome = Outcome(state: ImageState, requests: seq<string>, settled: nat)

  function Run(s: ImageState, es: seq<Event>): (o: Outcome)
    requires Valid(s) && Feasible(s, es)
    ensures |o.requests| <= |es|
    decreases |es|
  {
    if es == [] then
      Outcome(s, [], 0)
    else
      var t := Step(s, es[0]);
      var o := Run(t.state, es[1..]);
      var sent := if t.request.Some? then [t.request.value] else [];
      var settled := if es[0].Settle? then 1 else 0;
      Outcome(o.state, sent + o.requests, o.settled + settled)
  }

  /** Whatever happens to the page, every request it makes is one the
      guards admit. */
  lemma {:induction false} NoRequestWithBlankPrompt(s: ImageState, es: seq<Event>)
    requires Valid(s) && Feasible(s, es)
    ensures forall i :: 0 <= i < |Run(s, es).requests| ==> !IsBlank(Run(s, es).requests[i])
    decreases |es|
  {
    if es != [] {
      var t := Step(s, es[0]);
      NoRequestWithBlankPrompt(t.state, es[1..]);
      var rest := Run(t.state, es[1..]).requests;
      var sent := if t.request.Some? then [t.request.value] else [];
      assert Run(s, es).requests == sent + rest;
      forall i | 0 <= i < |sent + rest|
        ensures !IsBlank((sent + rest)[i])
      {
        if i >= |sent| {
          assert (sent + rest)[i] == rest[i - |sent|];
        }
      }
    }
  }

  /** The disabled button keeps at most one request in flight: over any run
      the requests made exceed the settled ones by one exactly while the
      page is loading, and never by more. */
  lemma {:induction false} AtMostOneInFlight(s: ImageState, es: seq<Event>)
    requires Valid(s) && Feasible(s, es)
    ensures var o := Run(s, es);
            (if o.state.isLoading then 1 else 0) + o.settled
            == (if s.isLoading then 1 else 0) + |o.requests|
    decreases |es|
  {
    if es != [] {
      AtMostOneInFlight(Step(s, es[0]).state, es[1..]);
    }
  }

  /** From an idle page, a run has settled every request it made, or all
      but the last one, which is then still loading. */
  lemma InFlightFromIdle(s: ImageState, es: seq<Event>)
    requires Valid(s) && !s.isLoading && Feasible(s, es)
    ensures var o := Run(s, es);
            && o.settled <= |o.requests| <= o.settled + 1
            && (o.state.isLoading <==> |o.requests| == o.settled + 1)
  {
    AtMostOneInFlight(s, es);
  }

  /** The page component. */
  class ImagePage {
    var prompt: string
    var isLoading: bool
    var error: Option<string>
    var imageSrc: Option<string>

    ghost function State(): ImageState
      reads this
    {
      ImageState(prompt, isLoading, error, imageSrc)
    }

    constructor ()
      ensures State() == Initial()
    {
      prompt, isLoading, error, imageSrc := "", false, None, None;
    }

    /** The prompt input's `onChange`. */
    method SetPrompt(text: string)
      requires Valid(State())
      modifies this
      ensures Valid(State()) && State() == old(State()).(prompt := text)
    {
      prompt := text;
    }

    /** A click on the Generate button; returns the prompt passed to the
      image service, if a request is made. */
    method HandleGenerate() returns (request: Option<string>)
      requires Valid(State()) && GenerateEnabled(State())
      modifies this
      ensures Valid(State())
      ensures State() == GenerateStep(old(State())).state && request == GenerateStep(old(State())).request
    {
      var trimmed := Trim(prompt);
      if trimmed == [] {
        error := Some(PROMPT_REQUIRED);
        request := None;
      } else {
        StartLoading();
        request := Some(prompt);
      }
    }

    /** The updates before the await: loading starts, the error and the old
      image are cleared. */
    method StartLoading()
      modifies this
      ensures State() == old(State()).(isLoading := true, error := None, imageSrc := None)
    {
      isLoading, error, imageSrc := true, None, None;
    }

    /** The awaited request settled: the try, catch and finally blocks. */
    method OnSettled(reply: Reply)
      requires Valid(State()) && isLoading
      modifies this
      ensures Valid(State()) && State() == SettleStep(old(State()), reply)
    {
      match reply {
        case Resolved(imageData) =>
          imageSrc := Some(DATA_URI_PREFIX + imageData);
        case Rejected(thrown) =>
          error := Some(MessageOf(thrown, UNKNOWN_ERROR));
      }
      isLoading := false;
    }
  }
}
