/** The video generation page: a prompt, an API-key gate, one submission of
    a long-running generation job, a poll of that job every ten seconds until
    it is done, and a final fetch of the produced video.

    Every asynchronous continuation of the page is an event. The state the
    page and the browser hold between events is `VideoState`; each event has a
    transition function over it that returns the new state and the outbound
    requests it issues, and the class `VideoPage` holds the same state in
    fields and updates them step by step in the order the page does. */
module Video {
  import opened Common

  const PROMPT_REQUIRED := "Please enter a prompt to generate a video."
  const KEY_REQUIRED := "Please select an API key first."
  const INITIALIZING := "Initializing video generation..."
  const PROCESSING := "Processing video... this can take a few minutes."
  const STILL_GENERATING := "Still generating... please wait."
  const COMPLETE := "Video generation complete!"
  const FETCH_FAILED := "Failed to fetch video file."
  // One message, written in pieces so that the verifier can inspect its characters.
  const NO_DOWNLOAD_LINK := "Video generation " + "finished, but no " + "download link was found."
  const UNKNOWN_SUBMIT_ERROR := "An unknown error occurred."
  const UNKNOWN_POLL_ERROR := "An unknown error occurred during polling."
  const NOT_FOUND_SIGNATURE := "Requested entity was not found"
  const INVALID_KEY := "Your API key seems to be invalid. Please select a valid key and try again."
  const KEY_DIALOG_FAILED := "Could not open API key selection dialog."
  /** The interval between two polls, in milliseconds; the model has no clock
      and keeps it only as documentation. */
  const POLL_PERIOD_MS := 10000

  /** The provider's long-running operation record, as far as the page reads
      it: an opaque handle, the `done` flag and the first generated video's
      URI (`response.generatedVideos[0].video.uri`), if any. */
  datatype Operation = Operation(name: string, done: bool, videoUri: Option<string>)

  /** How one poll of the operation settles. */
  datatype PollReply = Polled(op: Operation) | PollRejected(thrown: Thrown)

  /** How the fetch of the video file settles: a response with its `ok` flag
      and, when the blob was read, the object URL made from it; or a thrown
      value (network failure, unreadable body). */
  datatype FetchReply = Response(ok: bool, objectUrl: string) | FetchRejected(thrown: Thrown)

  /** How `window.aistudio.hasSelectedApiKey()` settles. */
  datatype KeyQueryReply = KeyAnswer(hasKey: bool) | KeyQueryRejected

  /** How `window.aistudio.openSelectKey()` settles. */
  datatype DialogReply = DialogResolved | DialogRejected

  /** The continuation the page is awaiting outside the poll timer. */
  datatype Pending = NoPending | AwaitingSubmit | AwaitingFetch(url: string)

  /** An outbound request: to the generation provider or to the network. */
  datatype Call = GenerateVideos(prompt: string) | GetVideosOperation(op: Operation) | FetchVideo(url: string)

  /** The page's component state (`prompt` to `pollInterval`), the
      environment value `process.env.API_KEY`, and what the browser holds for
      the page: the live interval timer, the next timer id it hands out, the
      `operation` variable the poll callback closes over, the awaited
      continuation and whether the page is still mounted. */
  datatype VideoState = VideoState(
    prompt: string,
    isLoading: bool,
    error: Option<string>,
    status: Option<string>,
    videoSrc: Option<string>,
    apiKeySelected: bool,
    pollInterval: Option<nat>,
    apiKeyEnv: Option<string>,
    activeTimer: Option<nat>,
    nextTimer: nat,
    operation: Option<Operation>,
    pending: Pending,
    mounted: bool)

  datatype Transition = Transition(state: VideoState, calls: seq<Call>)

  /** The events that drive the page. */
  datatype Event =
    | EditPrompt(text: string)
    | Submit
    | SubmitOk(op: Operation)
    | SubmitErr(thrown: Thrown)
    | Tick(reply: PollReply)
    | FetchSettled(fetchReply: FetchReply)
    | KeyQuery(keyReply: KeyQueryReply)
    | SelectKey(dialogReply: DialogReply)
    | Unmount

  /** The state right after mounting. */
  function Initial(apiKeyEnv: Option<string>): (s: VideoState)
    ensures Valid(s) && s.mounted && !GenerateEnabled(s) && !s.apiKeySelected
    ensures !Polling(s) && !s.isLoading && s.pending == NoPending && s.videoSrc.None?
  {
    VideoState("", false, None, None, None, false, None, apiKeyEnv, None, 1, None, NoPending, true)
  }

  /** The structure the page and the browser keep at every point: timer ids
      are positive and handed out in increasing order, a live timer is the
      one the ref holds, it polls a known operation, and nothing else is
      awaited while it runs; an unmounted page has no live timer. */
  ghost predicate WellFormed(s: VideoState) {
    && 1 <= s.nextTimer
    && (s.pollInterval.Some? ==> 1 <= s.pollInterval.value < s.nextTimer)
    && (s.activeTimer.Some? ==> s.activeTimer == s.pollInterval && s.operation.Some? && s.pending == NoPending)
    && (!s.mounted ==> s.activeTimer.None?)
  }

  /** What holds between events: besides the structure, the page shows its
      spinner exactly while a submission or a poll timer is outstanding, and
      the final fetch runs after loading has stopped. */
  ghost predicate Valid(s: VideoState) {
    && WellFormed(s)
    && (s.pending.AwaitingFetch? ==> !s.isLoading)
    && (s.mounted ==> (s.isLoading <==> s.pending == AwaitingSubmit || s.activeTimer.Some?))
  }

  /** The Generate button is clickable: `disabled={isLoading || !apiKeySelected}`.
      On a page that keeps its invariant, a clickable button means that no
      submission is awaited and no poll timer is live. */
  predicate GenerateEnabled(s: VideoState): (b: bool)
    ensures b ==> s.apiKeySelected
    ensures b && Valid(s) && s.mounted ==> s.pending != AwaitingSubmit && !Polling(s)
  {
    !s.isLoading && s.apiKeySelected
  }

  /** Nothing is in progress: the page is mounted, not loading and not
      fetching a finished video. */
  predicate Idle(s: VideoState) {
    s.mounted && !s.isLoading && !s.pending.AwaitingFetch?
  }

  /** A poll of the live timer can fire. */
  predicate Polling(s: VideoState) {
    s.activeTimer.Some?
  }

  /** `if (pollInterval.current) clearInterval(pollInterval.current)`: stops
      the timer the ref holds, if it is the live one. The ref itself keeps its
      stale id. */
  function ClearPoll(s: VideoState): (r: VideoState)
    requires WellFormed(s)
    ensures WellFormed(r)
    ensures r == s.(activeTimer := None)
  {
    if s.pollInterval.Some? && s.activeTimer == s.pollInterval then s.(activeTimer := None) else s
  }

  /** The error rule shared by both catch blocks: the message becomes the
      error, unless it reports that the requested entity was not found, in
      which case the key is declared invalid and the key gate re-engages. */
  function ReportError(s: VideoState, message: string): (r: VideoState)
    ensures Includes(message, NOT_FOUND_SIGNATURE) ==> r == s.(error := Some(INVALID_KEY), apiKeySelected := false)
    ensures !Includes(message, NOT_FOUND_SIGNATURE) ==> r == s.(error := Some(message))
  {
    var r := s.(error := Some(message));
    if Includes(message, NOT_FOUND_SIGNATURE) then r.(error := Some(INVALID_KEY), apiKeySelected := false) else r
  }

  /** The messages the page throws itself never trip the invalid-key rule. */
  lemma OwnMessagesAreNotNotFound()
    ensures !Includes(NO_DOWNLOAD_LINK, NOT_FOUND_SIGNATURE)
    ensures !Includes(FETCH_FAILED, NOT_FOUND_SIGNATURE)
  {
    NotIncludedWithoutFirstChar(NO_DOWNLOAD_LINK, NOT_FOUND_SIGNATURE);
    NotIncludedWithoutFirstChar(FETCH_FAILED, NOT_FOUND_SIGNATURE);
  }

  /** A catch block of the page: clear the poll timer, report the error,
      stop loading and clear the status. */
  function Caught(s: VideoState, message: string): (r: VideoState)
    requires WellFormed(s) && s.pending == NoPending
    ensures Valid(r) && !Polling(r) && !r.isLoading && r.status.None? && r.pending == NoPending
    ensures r.videoSrc == s.videoSrc && r.prompt == s.prompt
    ensures Includes(message, NOT_FOUND_SIGNATURE) ==> r.error == Some(INVALID_KEY) && !r.apiKeySelected
    ensures !Includes(message, NOT_FOUND_SIGNATURE) ==> r.error == Some(message) && r.apiKeySelected == s.apiKeySelected
  {
    ReportError(ClearPoll(s), message).(isLoading := false, status := None)
  }

  /** `${process.env.API_KEY}` in a template literal: an unset variable
      renders as the text "undefined". */
  function KeyText(apiKeyEnv: Option<string>): (k: string)
    ensures apiKeyEnv.Some? ==> k == apiKeyEnv.value
    ensures apiKeyEnv.None? ==> k == "undefined"
  {
    match apiKeyEnv
    case Some(key) => key
    case None => "undefined"
  }

  /** `handleGenerate` up to its first await: the prompt check, then the key
      check, then the reset of the page and the submission request. */
  function GenerateStep(s: VideoState): (t: Transition)
    requires Valid(s) && Idle(s)
    ensures Valid(t.state)
    ensures t.calls != [] <==> !IsBlank(s.prompt) && s.apiKeySelected
    ensures IsBlank(s.prompt) ==> t.state == s.(error := Some(PROMPT_REQUIRED))
    ensures !IsBlank(s.prompt) && !s.apiKeySelected ==> t.state == s.(error := Some(KEY_REQUIRED))
    ensures !IsBlank(s.prompt) && s.apiKeySelected ==>
              && t.calls == [GenerateVideos(s.prompt)]
              && t.state == s.(isLoading := true, error := None, videoSrc := None,
                               status := Some(INITIALIZING), pending := AwaitingSubmit)
  {
    if Trim(s.prompt) == [] then
      Transition(s.(error := Some(PROMPT_REQUIRED)), [])
    else if !s.apiKeySelected then
      Transition(s.(error := Some(KEY_REQUIRED)), [])
    else
      var s' := s.(isLoading := true, error := None, videoSrc := None, status := Some(INITIALIZING));
      Transition(s'.(pending := AwaitingSubmit), [GenerateVideos(s.prompt)])
  }

  /** The submission resolved with an operation: the status moves on and a
      fresh interval timer starts polling that operation. */
  function SubmitOkStep(s: VideoState, op: Operation): (r: VideoState)
    requires Valid(s) && s.mounted && s.pending == AwaitingSubmit
    ensures Valid(r) && Polling(r) && r.isLoading && r.pending == NoPending
    ensures r.status == Some(PROCESSING) && r.operation == Some(op)
    ensures r.activeTimer == r.pollInterval
    ensures s.pollInterval.Some? ==> r.activeTimer != s.pollInterval
    ensures r.error == s.error && r.videoSrc == s.videoSrc && r.apiKeySelected == s.apiKeySelected && r.prompt == s.prompt
  {
    var id := s.nextTimer;
    s.(status := Some(PROCESSING), operation := Some(op), pollInterval := Some(id),
       activeTimer := Some(id), nextTimer := id + 1, pending := NoPending)
  }

  /** The submission rejected: the outer catch block, whose fallback message
      for a non-Error value is the generic one. */
  function SubmitErrStep(s: VideoState, thrown: Thrown): (r: VideoState)
    requires Valid(s) && s.mounted && s.pending == AwaitingSubmit
    ensures Valid(r) && !Polling(r) && !r.isLoading && r.status.None? && r.pending == NoPending
    ensures r == Caught(s.(pending := NoPending), MessageOf(thrown, UNKNOWN_SUBMIT_ERROR))
  {
    Caught(s.(pending := NoPending), MessageOf(thrown, UNKNOWN_SUBMIT_ERROR))
  }

  /** The URL the finished video is fetched from: the download link,
      unchanged, followed by the `key` query parameter carrying the key text. */
  function VideoUrl(downloadLink: string, apiKeyEnv: Option<string>): (url: string)
    ensures |url| == |downloadLink| + 5 + |KeyText(apiKeyEnv)|
    ensures url[..|downloadLink|] == downloadLink
    ensures url[|downloadLink|..|downloadLink| + 5] == "&key="
    ensures url[|downloadLink| + 5..] == KeyText(apiKeyEnv)
  {
    downloadLink + "&key=" + KeyText(apiKeyEnv)
  }

  /** One run of the interval callback: poll the operation, then act on the
      refreshed record. */
  function TickStep(s: VideoState, reply: PollReply): (t: Transition)
    requires Valid(s) && Polling(s)
    ensures Valid(t.state) && |t.calls| >= 1 && t.calls[0] == GetVideosOperation(s.operation.value)
    ensures forall c :: c in t.calls ==> !c.GenerateVideos?
    ensures reply.Polled? && !reply.op.done ==>
              && Polling(t.state) && t.calls == [GetVideosOperation(s.operation.value)]
              && t.state == s.(operation := Some(reply.op), status := Some(STILL_GENERATING))
    ensures reply.Polled? && reply.op.done ==>
              && !Polling(t.state) && !t.state.isLoading && t.state.operation == Some(reply.op)
              && t.state.videoSrc == s.videoSrc && t.state.apiKeySelected == s.apiKeySelected
    ensures reply.Polled? && reply.op.done && Truthy(reply.op.videoUri) ==>
              var url := reply.op.videoUri.value + "&key=" + KeyText(s.apiKeyEnv);
              && t.calls == [GetVideosOperation(s.operation.value), FetchVideo(url)]
              && t.state.pending == AwaitingFetch(url)
              && t.state.status == Some(COMPLETE) && t.state.error == s.error
    ensures reply.Polled? && reply.op.done && !Truthy(reply.op.videoUri) ==>
              && t.calls == [GetVideosOperation(s.operation.value)]
              && t.state.error == Some(NO_DOWNLOAD_LINK) && t.state.status.None?
              && t.state.pending == NoPending
    ensures reply.PollRejected? ==>
              && t.calls == [GetVideosOperation(s.operation.value)]
              && t.state == Caught(s, MessageOf(reply.thrown, UNKNOWN_POLL_ERROR))
  {
    var call := GetVideosOperation(s.operation.value);
    match reply
    case PollRejected(thrown) =>
      Transition(Caught(s, MessageOf(thrown, UNKNOWN_POLL_ERROR)), [call])
    case Polled(op) =>
      var s1 := s.(operation := Some(op));
      if !op.done then
        Transition(s1.(status := Some(STILL_GENERATING)), [call])
      else
        var d := PollDoneStep(s1);
        Transition(d.state, [call] + d.calls)
  }

  /** The poll callback once the refreshed record says the job is done: the
      timer is stopped and loading ends with the status "complete"; then the
      video is fetched from the download link with the key appended, or, when
      the record has no link, the callback's catch block reports it. */
  function PollDoneStep(s: VideoState): (t: Transition)
    requires WellFormed(s) && s.pending == NoPending && s.operation.Some? && s.operation.value.done
    ensures Valid(t.state) && !Polling(t.state) && !t.state.isLoading
    ensures t.state.operation == s.operation && t.state.videoSrc == s.videoSrc
    ensures t.state.apiKeySelected == s.apiKeySelected
    ensures Truthy(s.operation.value.videoUri) ==>
              var url := s.operation.value.videoUri.value + "&key=" + KeyText(s.apiKeyEnv);
              && t.calls == [FetchVideo(url)] && t.state.pending == AwaitingFetch(url)
              && t.state.status == Some(COMPLETE) && t.state.error == s.error
    ensures !Truthy(s.operation.value.videoUri) ==>
              && t.calls == [] && t.state.pending == NoPending
              && t.state.error == Some(NO_DOWNLOAD_LINK) && t.state.status.None?
  {
    var link := s.operation.value.videoUri;
    var s1 := ClearPoll(s).(isLoading := false, status := Some(COMPLETE));
    if Truthy(link) then
      var url := VideoUrl(link.value, s.apiKeyEnv);
      Transition(s1.(pending := AwaitingFetch(url)), [FetchVideo(url)])
    else
      OwnMessagesAreNotNotFound();
      Transition(Caught(s1, NO_DOWNLOAD_LINK), [])
  }

  /** The fetch of the finished video settled: an ok response shows the
      video; anything else goes to the poll callback's catch block. */
  function FetchStep(s: VideoState, reply: FetchReply): (r: VideoState)
    requires Valid(s) && s.mounted && s.pending.AwaitingFetch?
    ensures Valid(r) && !Polling(r) && !r.isLoading && r.pending == NoPending
    ensures reply.Response? && reply.ok ==>
              r == s.(videoSrc := Some(reply.objectUrl), pending := NoPending)
    ensures reply.Response? && !reply.ok ==>
              r.error == Some(FETCH_FAILED) && r.status.None? && r.videoSrc == s.videoSrc
              && r.apiKeySelected == s.apiKeySelected
    ensures reply.FetchRejected? ==>
              r == Caught(s.(pending := NoPending), MessageOf(reply.thrown, UNKNOWN_POLL_ERROR))
  {
    var s1 := s.(pending := NoPending);
    match reply
    case Response(ok, objectUrl) =>
      if ok then
        s1.(videoSrc := Some(objectUrl))
      else
        OwnMessagesAreNotNotFound();
        Caught(s1, FETCH_FAILED)
    case FetchRejected(thrown) =>
      Caught(s1, MessageOf(thrown, UNKNOWN_POLL_ERROR))
  }

  /** `checkApiKey`: the gate fails closed, so a key counts as selected only
      when the query answers true. */
  function KeyQueryStep(s: VideoState, reply: KeyQueryReply): (r: VideoState)
    requires Valid(s) && s.mounted
    ensures Valid(r)
    ensures r.apiKeySelected <==> reply == KeyAnswer(true)
    ensures r.(apiKeySelected := s.apiKeySelected) == s
  {
    match reply
    case KeyAnswer(hasKey) => s.(apiKeySelected := hasKey)
    case KeyQueryRejected => s.(apiKeySelected := false)
  }

  /** `handleSelectKey`: a dialog that opened is taken to have selected a
      key, without asking again; a dialog that failed leaves the gate as it
      was and reports the failure. */
  function SelectKeyStep(s: VideoState, reply: DialogReply): (r: VideoState)
    requires Valid(s) && s.mounted
    ensures Valid(r)
    ensures reply == DialogResolved ==> r == s.(apiKeySelected := true)
    ensures reply == DialogRejected ==> r == s.(error := Some(KEY_DIALOG_FAILED))
  {
    match reply
    case DialogResolved => s.(apiKeySelected := true)
    case DialogRejected => s.(error := Some(KEY_DIALOG_FAILED))
  }

  /** Whether an event can happen in a state. Submit is a click on the
      Generate button, which is disabled while loading or without a key; a
      new generation is not started while the previous video is still being
      fetched. Every other continuation needs the page to be mounted and
      awaiting it. */
  predicate Enabled(s: VideoState, e: Event) {
    s.mounted &&
    match e
    case Submit => GenerateEnabled(s) && !s.pending.AwaitingFetch?
    case SubmitOk(_) => s.pending == AwaitingSubmit
    case SubmitErr(_) => s.pending == AwaitingSubmit
    case Tick(_) => Polling(s)
    case FetchSettled(_) => s.pending.AwaitingFetch?
    case _ => true
  }

  /** The effect cleanup of the page: the live timer is cleared and nothing
      can happen to the page afterwards. */
  function UnmountStep(s: VideoState): (r: VideoState)
    requires Valid(s) && s.mounted
    ensures Valid(r) && !Polling(r)
    ensures forall e :: !Enabled(r, e)
    ensures r.(activeTimer := s.activeTimer, mounted := true) == s
  {
    ClearPoll(s).(mounted := false)
  }

  /** One event applied to the page. */
  function Step(s: VideoState, e: Event): (t: Transition)
    requires Valid(s) && Enabled(s, e)
    ensures Valid(t.state)
    ensures e == Submit ==>
              t.calls == [] || (t.calls == [GenerateVideos(s.prompt)] && !IsBlank(s.prompt) && s.apiKeySelected)
    ensures e != Submit ==> forall c :: c in t.calls ==> !c.GenerateVideos?
  {
    match e
    case EditPrompt(text) => Transition(s.(prompt := text), [])
    case Submit => GenerateStep(s)
    case SubmitOk(op) => Transition(SubmitOkStep(s, op), [])
    case SubmitErr(thrown) => Transition(SubmitErrStep(s, thrown), [])
    case Tick(reply) => TickStep(s, reply)
    case FetchSettled(reply) => Transition(FetchStep(s, reply), [])
    case KeyQuery(reply) => Transition(KeyQueryStep(s, reply), [])
    case SelectKey(reply) => Transition(SelectKeyStep(s, reply), [])
    case Unmount => Transition(UnmountStep(s), [])
  }

  /** Every event of `es` is enabled when it happens. */
  ghost predicate Feasible(s: VideoState, es: seq<Event>)
    requires Valid(s)
    decreases |es|
  {
    es == [] || (Enabled(s, es[0]) && Feasible(Step(s, es[0]).state, es[1..]))
  }

  /** The events of `es` applied in order: the final state and every request
      issued on the way. */
  function Run(s: VideoState, es: seq<Event>): (t: Transition)
    requires Valid(s) && Feasible(s, es)
    ensures Valid(t.state)
    decreases |es|
  {
    if es == [] then
      Transition(s, [])
    else
      var first := Step(s, es[0]);
      var rest := Run(first.state, es[1..]);
      Transition(rest.state, first.calls + rest.calls)
  }

  /** Through the button, the handler's own key check never fires: a click
      is possible only with a key selected, so it makes no request exactly
      when the prompt is blank, and otherwise submits the prompt. */
  lemma ButtonMakesKeyCheckRedundant(s: VideoState)
    requires Valid(s) && Enabled(s, Submit)
    ensures GenerateStep(s).calls == [] <==> IsBlank(s.prompt)
    ensures !IsBlank(s.prompt) ==> GenerateStep(s).calls == [GenerateVideos(s.prompt)]
  {
  }

  /** Whatever happens to the page, it never asks the provider to generate a
      video from a blank prompt. */
  lemma {:induction false} NoRequestWithBlankPrompt(s: VideoState, es: seq<Event>)
    requires Valid(s) && Feasible(s, es)
    ensures forall c :: c in Run(s, es).calls && c.GenerateVideos? ==> !IsBlank(c.prompt)
    decreases |es|
  {
    if es != [] {
      var first := Step(s, es[0]);
      NoRequestWithBlankPrompt(first.state, es[1..]);
    }
  }

  /** A run that starts with a tick answered "not done": one poll of the
      current record, then the rest of the run from the refreshed state. */
  lemma PollThenRun(s: VideoState, op: Operation, es: seq<Event>)
    requires Valid(s) && Polling(s) && !op.done
    requires var s1 := s.(operation := Some(op), status := Some(STILL_GENERATING));
             Valid(s1) && Feasible(s1, es)
    ensures Feasible(s, [Tick(Polled(op))] + es)
    ensures var s1 := s.(operation := Some(op), status := Some(STILL_GENERATING));
            var rest := Run(s1, es);
            Run(s, [Tick(Polled(op))] + es)
            == Transition(rest.state, [GetVideosOperation(s.operation.value)] + rest.calls)
  {
    var all := [Tick(Polled(op))] + es;
    assert all[0] == Tick(Polled(op)) && all[1..] == es;
  }

  /** Poll ticks answered, in order, with the records `ops`. */
  function Ticks(ops: seq<Operation>): (es: seq<Event>)
    ensures |es| == |ops|
    ensures forall i :: 0 <= i < |ops| ==> es[i] == Tick(Polled(ops[i]))
  {
    if ops == [] then [] else [Tick(Polled(ops[0]))] + Ticks(ops[1..])
  }

  /** The polls that `|ops|` ticks make when the job is first known as
      `current` and the ticks receive the records `ops` in turn: each tick
      polls the record the previous tick received. */
  function Polls(current: Operation, ops: seq<Operation>): (calls: seq<Call>)
    ensures |calls| == |ops|
    decreases |ops|
  {
    if ops == [] then [] else [GetVideosOperation(current)] + Polls(ops[0], ops[1..])
  }

  /** The `i`-th poll passes the record received by the tick before it, and
      the first one the record the submission returned. */
  lemma {:induction false} PollsPassPreviousRecord(current: Operation, ops: seq<Operation>)
    ensures forall i :: 0 <= i < |ops| ==>
              Polls(current, ops)[i] == GetVideosOperation(if i == 0 then current else ops[i - 1])
    decreases |ops|
  {
    if ops != [] {
      var rest := Polls(ops[0], ops[1..]);
      PollsPassPreviousRecord(ops[0], ops[1..]);
      forall i | 0 < i < |ops|
        ensures Polls(current, ops)[i] == GetVideosOperation(ops[i - 1])
      {
        assert Polls(current, ops)[i] == rest[i - 1];
      }
    }
  }

  /** While the provider answers "not done", every tick polls once, and the
      page stays in polling with only its status and operation snapshot
      changed. */
  lemma {:induction false} PollsWhileNotDone(s: VideoState, ops: seq<Operation>)
    requires Valid(s) && Polling(s)
    requires forall i :: 0 <= i < |ops| ==> !ops[i].done
    ensures Feasible(s, Ticks(ops))
    ensures Run(s, Ticks(ops)) == Transition(
              if ops == [] then s else s.(operation := Some(ops[|ops| - 1]), status := Some(STILL_GENERATING)),
              Polls(s.operation.value, ops))
    decreases |ops|
  {
    if ops != [] {
      var es := Ticks(ops);
      var s1 := s.(operation := Some(ops[0]), status := Some(STILL_GENERATING));
      assert es[1..] == Ticks(ops[1..]);
      PollsWhileNotDone(s1, ops[1..]);
      assert es == [Tick(Polled(ops[0]))] + es[1..];
      PollThenRun(s, ops[0], es[1..]);
    }
  }

  /** The poll that finds the job done with a link stops polling and
      fetches the video. */
  lemma LastPollFetches(s: VideoState, last: Operation)
    requires Valid(s) && Polling(s)
    requires last.done && Truthy(last.videoUri)
    ensures Feasible(s, [Tick(Polled(last))])
    ensures Run(s, [Tick(Polled(last))]) == TickStep(s, Polled(last))
  {
    var es := [Tick(Polled(last))];
    assert es[1..] == [];
    var first := TickStep(s, Polled(last));
    assert first.calls + [] == first.calls;
  }

  /** A job that reports "not done" on its first `|ops|` polls and "done" with
      a download link on the next is polled exactly `|ops| + 1` times; then
      the timer is stopped and the video is fetched from the link with the
      key appended. */
  lemma {:induction false} PollsUntilDone(s: VideoState, ops: seq<Operation>, last: Operation)
    requires Valid(s) && Polling(s)
    requires forall i :: 0 <= i < |ops| ==> !ops[i].done
    requires last.done && Truthy(last.videoUri)
    ensures Feasible(s, Ticks(ops + [last]))
    ensures var t := Run(s, Ticks(ops + [last]));
            var url := last.videoUri.value + "&key=" + KeyText(s.apiKeyEnv);
            && t.calls == Polls(s.operation.value, ops + [last]) + [FetchVideo(url)]
            && !Polling(t.state) && !t.state.isLoading
            && t.state.status == Some(COMPLETE) && t.state.pending == AwaitingFetch(url)
            && t.state.error == s.error
    decreases |ops|
  {
    var es := Ticks(ops + [last]);
    if ops == [] {
      assert es == [Tick(Polled(last))];
      LastPollFetches(s, last);
      assert Polls(s.operation.value, [last]) == [GetVideosOperation(s.operation.value)];
    } else {
      assert (ops + [last])[0] == ops[0] && (ops + [last])[1..] == ops[1..] + [last];
      assert es[1..] == Ticks(ops[1..] + [last]);
      var s1 := s.(operation := Some(ops[0]), status := Some(STILL_GENERATING));
      PollsUntilDone(s1, ops[1..], last);
      assert es == [Tick(Polled(ops[0]))] + es[1..];
      PollThenRun(s, ops[0], es[1..]);
      var poll := GetVideosOperation(s.operation.value);
      var later := Polls(ops[0], ops[1..] + [last]);
      var fetch := FetchVideo(last.videoUri.value + "&key=" + KeyText(s.apiKeyEnv));
      assert Polls(s.operation.value, ops + [last]) == [poll] + later;
      assert [poll] + (later + [fetch]) == ([poll] + later) + [fetch];
    }
  }

  /** The page component. Its fields are the component state, the
      environment's API key and the browser-side state of `VideoState`; each
      method is one event and updates the fields in the order the page does. */
  class VideoPage {
    var prompt: string
    var isLoading: bool
    var error: Option<string>
    var status: Option<string>
    var videoSrc: Option<string>
    var apiKeySelected: bool
    var pollInterval: Option<nat>
    const apiKeyEnv: Option<string>
    var activeTimer: Option<nat>
    var nextTimer: nat
    var operation: Option<Operation>
    var pending: Pending
    var mounted: bool

    ghost function State(): VideoState
      reads this
    {
      VideoState(prompt, isLoading, error, status, videoSrc, apiKeySelected, pollInterval,
                 apiKeyEnv, activeTimer, nextTimer, operation, pending, mounted)
    }

    ghost predicate Invariant()
      reads this
    {
      Valid(State())
    }

    /** Mounting the page with the environment's API key. */
    constructor (apiKeyEnv: Option<string>)
      ensures State() == Initial(apiKeyEnv) && Invariant()
    {
      prompt, isLoading, error, status, videoSrc := "", false, None, None, None;
      apiKeySelected, pollInterval := false, None;
      this.apiKeyEnv := apiKeyEnv;
      activeTimer, nextTimer, operation, pending, mounted := None, 1, None, NoPending, true;
    }

    /** The prompt input's `onChange`. */
    method SetPrompt(text: string)
      requires Invariant() && Enabled(State(), EditPrompt(text))
      modifies this
      ensures Invariant() && State() == Step(old(State()), EditPrompt(text)).state
    {
      prompt := text;
    }

    /** `handleGenerate` up to the submission request, which it returns.
      The handler itself checks the key, so it is modelled for any idle
      page, not only for a click on the enabled button. */
    method HandleGenerate() returns (calls: seq<Call>)
      requires Invariant() && Idle(State())
      modifies this
      ensures Invariant()
      ensures State() == GenerateStep(old(State())).state && calls == GenerateStep(old(State())).calls
    {
      ghost var s := State();
      calls := [];
      var trimmed := Trim(prompt);
      if trimmed == [] {
        error := Some(PROMPT_REQUIRED);
        assert State() == s.(error := Some(PROMPT_REQUIRED));
      } else if !apiKeySelected {
        error := Some(KEY_REQUIRED);
        assert State() == s.(error := Some(KEY_REQUIRED));
      } else {
        ResetForGeneration();
        calls := [GenerateVideos(prompt)];
        pending := AwaitingSubmit;
      }
    }

    /** The four updates before the submission request. */
    method ResetForGeneration()
      modifies this
      ensures State() == old(State()).(isLoading := true, error := None, videoSrc := None,
                                       status := Some(INITIALIZING))
    {
      isLoading := true;
      error := None;
      videoSrc := None;
      status := Some(INITIALIZING);
    }

    /** `if (pollInterval.current) clearInterval(pollInterval.current)`. */
    method ClearPollInterval()
      requires WellFormed(State())
      modifies this
      ensures State() == ClearPoll(old(State()))
    {
      if pollInterval.Some? && activeTimer == pollInterval {
        activeTimer := None;
      }
    }

    /** The body of both catch blocks. */
    method HandleError(message: string)
      requires WellFormed(State()) && pending == NoPending
      modifies this
      ensures Invariant() && State() == Caught(old(State()), message)
    {
      ClearPollInterval();
      error := Some(message);
      if Includes(message, NOT_FOUND_SIGNATURE) {
        error := Some(INVALID_KEY);
        apiKeySelected := false;
      }
      isLoading := false;
      status := None;
    }

    /** `generateVideo` resolved: start polling the operation. */
    method OnSubmitResolved(op: Operation)
      requires Invariant() && Enabled(State(), SubmitOk(op))
      modifies this
      ensures Invariant() && State() == SubmitOkStep(old(State()), op)
    {
      pending := NoPending;
      operation := Some(op);
      status := Some(PROCESSING);
      var id := nextTimer;
      nextTimer := nextTimer + 1;
      activeTimer := Some(id);
      pollInterval := Some(id);
    }

    /** `generateVideo` rejected: the outer catch block. */
    method OnSubmitRejected(thrown: Thrown)
      requires Invariant() && Enabled(State(), SubmitErr(thrown))
      modifies this
      ensures Invariant() && State() == SubmitErrStep(old(State()), thrown)
    {
      pending := NoPending;
      HandleError(MessageOf(thrown, UNKNOWN_SUBMIT_ERROR));
    }

    /** One run of the interval callback; returns the requests it issues. */
    method OnTick(reply: PollReply) returns (calls: seq<Call>)
      requires Invariant() && Enabled(State(), Tick(reply))
      modifies this
      ensures Invariant()
      ensures State() == TickStep(old(State()), reply).state && calls == TickStep(old(State()), reply).calls
    {
      calls := [GetVideosOperation(operation.value)];
      match reply {
        case PollRejected(thrown) =>
          HandleError(MessageOf(thrown, UNKNOWN_POLL_ERROR));
        case Polled(op) =>
          operation := Some(op);
          if op.done {
            var more := OnPollDone();
            calls := calls + more;
          } else {
            status := Some(STILL_GENERATING);
          }
      }
    }

    /** The poll callback once the job is done; returns the fetch request,
      if there is a download link. */
    method OnPollDone() returns (more: seq<Call>)
      requires WellFormed(State()) && pending == NoPending && operation.Some? && operation.value.done
      modifies this
      ensures State() == PollDoneStep(old(State())).state && more == PollDoneStep(old(State())).calls
    {
      ClearPollInterval();
      isLoading := false;
      status := Some(COMPLETE);
      var link := operation.value.videoUri;
      if Truthy(link) {
        var url := VideoUrl(link.value, apiKeyEnv);
        more := [FetchVideo(url)];
        pending := AwaitingFetch(url);
      } else {
        more := [];
        OwnMessagesAreNotNotFound();
        HandleError(NO_DOWNLOAD_LINK);
      }
    }

    /** The fetch of the finished video settled. */
    method OnFetchSettled(reply: FetchReply)
      requires Invariant() && Enabled(State(), FetchSettled(reply))
      modifies this
      ensures Invariant() && State() == FetchStep(old(State()), reply)
    {
      pending := NoPending;
      match reply {
        case Response(ok, objectUrl) =>
          if ok {
            videoSrc := Some(objectUrl);
          } else {
            OwnMessagesAreNotNotFound();
            HandleError(FETCH_FAILED);
          }
        case FetchRejected(thrown) =>
          HandleError(MessageOf(thrown, UNKNOWN_POLL_ERROR));
      }
    }

    /** `checkApiKey`, with the answer of the key query; returns whether a
      key is selected. */
    method CheckApiKey(reply: KeyQueryReply) returns (hasKey: bool)
      requires Invariant() && Enabled(State(), KeyQuery(reply))
      modifies this
      ensures Invariant() && State() == KeyQueryStep(old(State()), reply)
      ensures hasKey == apiKeySelected
    {
      match reply {
        case KeyAnswer(answer) =>
          apiKeySelected := answer;
          hasKey := answer;
        case KeyQueryRejected =>
          apiKeySelected := false;
          hasKey := false;
      }
    }

    /** `handleSelectKey`, with the outcome of the selection dialog. */
    method HandleSelectKey(reply: DialogReply)
      requires Invariant() && Enabled(State(), SelectKey(reply))
      modifies this
      ensures Invariant() && State() == SelectKeyStep(old(State()), reply)
    {
      match reply {
        case DialogResolved => apiKeySelected := true;
        case DialogRejected => error := Some(KEY_DIALOG_FAILED);
      }
    }

    /** The cleanup of the mount effect. */
    method Unmount()
      requires Invariant() && Enabled(State(), Event.Unmount)
      modifies this
      ensures Invariant() && State() == UnmountStep(old(State()))
      ensures forall e :: !Enabled(State(), e)
    {
      ClearPollInterval();
      mounted := false;
    }
  }
}
