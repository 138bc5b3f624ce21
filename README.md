# Generation pages and chat assistant: a Dafny model

This project models the stateful part of a single-page web application over a
generative-AI API. The application has three generation pages (voice, image and video)
and a chat panel.

- **Video page** (`Video`, from `pages/VideoPage.tsx`):
  - an API-key gate: the key query and the key selection dialog;
  - a submit handler with a prompt check and a key check;
  - the submission of a long-running generation job;
  - an interval callback that polls the job until it is done;
  - the fetch of the finished video from its download link, with the key appended;
  - a shared error rule: a message containing "Requested entity was not found" revokes the key;
  - the unmount cleanup that stops the timer.
- **Chat assistant** (`Chat`, from `components/ChatAssistant.tsx`):
  - sending appends the user's message and a loading placeholder, and clears the input;
  - the reply removes every placeholder and appends the model's answer.
- **Image page** (`Image`, from `pages/ImagePage.tsx`) and **voice page** (`Voice`, from
  `pages/VoicePage.tsx`): a prompt check, then one request per click on a button that is
  disabled while loading. Success shows a data URI. Failure shows the error's message. The
  `finally` block stops loading. The voice page also has a fixed list of voices and a selector.
- **Common** (`Common`): the JavaScript operations the pages rely on.
  - `String.prototype.trim`, with the ECMAScript whitespace set;
  - `String.prototype.includes`;
  - `err instanceof Error ? err.message : fallback`.

Each page is modelled twice, and the two agree by proof.

- As a value: a state record and one transition function per event. Each transition returns
  the new state and the outbound requests.
- As a class: fields that the event methods update in the order the page does. Each method
  ensures that its new state (and what it returns) equals the transition function applied to
  the old state.

Asynchronous continuations are events:
- the resolution or rejection of a submission;
- one run of the interval callback, with the poll's reply;
- the settlement of the video fetch;
- the answers of the key query and of the dialog;
- unmount;
- prompt edits.

The external services (`generateVideo`, `getVideosOperation`, `generateImage`,
`generateSpeech`, `sendMessageToAI`, `fetch`, `window.aistudio`) become event parameters.
`process.env.API_KEY` becomes an optional string fixed at construction. Traces of events
(`Run`) support properties about whole runs.

Three behaviours of the video page follow from the code as written:
- `handleGenerate` does not cancel an earlier timer before it starts a new one;
- a poll or fetch result is not checked against the submission it belongs to;
- the object URL of a fetched video is never released.

No run of the model shows any of them:
- a submission needs the enabled button and no pending fetch, so when it happens no timer is
  live and nothing else is awaited;
- a tick, with its poll and what the callback does with the reply, is one event;
- no event follows unmount;
- object URLs are plain strings with no lifecycle.

The event sequences in which the page does show them are described under "## Left out".

## Model

| member | source | states |
|---|---|---|
| Common.Trim | pages/VideoPage.tsx:54 | `s.trim()` is empty exactly when every character of `s` is JavaScript whitespace; a non-empty result neither starts nor ends with whitespace |
| Common.Includes | pages/VideoPage.tsx:102 | `s.includes(sub)` holds exactly when `sub` occurs in `s` at some position |
| Common.NotIncludedWithoutFirstChar | pages/VideoPage.tsx:116 | a string lacking the first character of `sub` does not include `sub` |
| Common.MessageOf | pages/VideoPage.tsx:100 | a thrown `Error` yields its message, any other thrown value the fallback text |
| Common.Truthy | pages/VideoPage.tsx:84 | `undefined` or `null` and the empty string are falsy; any other string is truthy |
| Video.Initial | pages/VideoPage.tsx:16-22 | the mounted page satisfies the invariant, is not loading, polling or fetching, shows no video, and has no key selected, so Generate is disabled |
| Video.GenerateEnabled | pages/VideoPage.tsx:159 | the button is clickable only with a key selected and while not loading; on a mounted page that keeps the invariant, a clickable button means that no submission is awaited and no timer is live |
| Video.ClearPoll | pages/VideoPage.tsx:99 | clearing the interval the ref holds stops the live timer, whatever the ref's stale id, and changes nothing else |
| Video.ReportError | pages/VideoPage.tsx:100-105 | a message containing the not-found signature sets the invalid-key message and revokes the key; any other message becomes the error and the key is kept |
| Video.OwnMessagesAreNotNotFound | pages/VideoPage.tsx:88-92 | the page's own fetch-failed and no-link messages never trigger the invalid-key rule |
| Video.Caught | pages/VideoPage.tsx:98-108 | a catch block leaves the page valid, with no timer, not loading, status cleared, video kept, and the error and key as the error rule says |
| Video.GenerateStep | pages/VideoPage.tsx:53-66 | the prompt check comes first: a blank prompt sets only its error; then a missing key sets only its error; otherwise loading starts, error and video are cleared, the status is "Initializing", and exactly one generation request with the untrimmed prompt is made |
| Video.ButtonMakesKeyCheckRedundant | pages/VideoPage.tsx:157-159 | through the enabled button the key check never fires: the click makes no request exactly when the prompt is blank and otherwise submits it |
| Video.SubmitOkStep | pages/VideoPage.tsx:71-74 | a resolved submission sets status "Processing" and starts a fresh timer whose id the ref holds, differing from any stale id; error, video, key and prompt are unchanged |
| Video.SubmitErrStep | pages/VideoPage.tsx:111-122 | a rejected submission goes through the outer catch block, with the generic fallback message |
| Video.TickStep | pages/VideoPage.tsx:74-109 | every tick polls the current record first; not done: only the record and the status "Still generating" change and polling continues; done with a link: polling stops and the video is fetched; done without one: the no-link error with status cleared; a rejected poll: the catch block; a tick never submits a new job |
| Video.KeyText | pages/VideoPage.tsx:86 | a set key is interpolated as itself; an unset key as the text "undefined" |
| Video.VideoUrl | pages/VideoPage.tsx:86 | the fetch URL is the download link unchanged, then `&key=`, then the key text, and nothing more |
| Video.PollDoneStep | pages/VideoPage.tsx:78-93 | a done record stops the timer and loading; with a truthy link the only request is a fetch of `link + "&key=" + key` and the status is "complete"; without one nothing is fetched, the error is the no-link message and the status is null |
| Video.FetchStep | pages/VideoPage.tsx:87-90 | an ok response shows the object URL and changes nothing else; a non-ok one sets "Failed to fetch video file." with status cleared; a rejection goes to the catch block |
| Video.KeyQueryStep | pages/VideoPage.tsx:24-34 | fail-closed gate: the key counts as selected exactly when the query answers true, and nothing else changes |
| Video.SelectKeyStep | pages/VideoPage.tsx:43-51 | an opened dialog selects the key without asking again; a failed one sets the dialog error and keeps the key state |
| Video.UnmountStep | pages/VideoPage.tsx:38-40 | unmount clears the live timer; only the timer and the mounted flag change; the model enables no event afterwards (work still pending at unmount is listed under "## Left out") |
| Video.Step | pages/VideoPage.tsx:53-122 | every event keeps the page invariant; only a click can request a generation, and then only for a non-blank prompt with a key selected |
| Video.NoRequestWithBlankPrompt | pages/VideoPage.tsx:54-57 | over any run of events, no generation request carries a blank prompt |
| Video.PollsPassPreviousRecord | pages/VideoPage.tsx:76 | the `i`-th poll passes the record received by the tick before it, and the first poll passes the submitted operation |
| Video.PollsWhileNotDone | pages/VideoPage.tsx:94-97 | ticks answered "not done" each make exactly one poll; the page stays polling with only its status and operation record changed |
| Video.PollsUntilDone | pages/VideoPage.tsx:74-93 | a job that is not done for N polls and done with a link on poll N+1 is polled exactly N+1 times, then fetched once; loading stops, the status is "complete" and the error is untouched |
| Video.VideoPage.constructor | pages/VideoPage.tsx:16-22 | the fields start in the initial state |
| Video.VideoPage.SetPrompt | pages/VideoPage.tsx:151 | the prompt input changes only the prompt |
| Video.VideoPage.HandleGenerate | pages/VideoPage.tsx:53-71 | the handler's updates, in order, produce `GenerateStep`'s state and request |
| Video.VideoPage.ResetForGeneration | pages/VideoPage.tsx:63-66 | the four resets before the submission request |
| Video.VideoPage.ClearPollInterval | pages/VideoPage.tsx:99 | the field update is `ClearPoll` |
| Video.VideoPage.HandleError | pages/VideoPage.tsx:98-108 | the catch block's updates produce `Caught` and keep the invariant |
| Video.VideoPage.OnSubmitResolved | pages/VideoPage.tsx:71-74 | produces `SubmitOkStep` and keeps the invariant |
| Video.VideoPage.OnSubmitRejected | pages/VideoPage.tsx:111-122 | produces `SubmitErrStep` and keeps the invariant |
| Video.VideoPage.OnTick | pages/VideoPage.tsx:74-109 | the callback's updates produce `TickStep`'s state and requests and keep the invariant |
| Video.VideoPage.OnPollDone | pages/VideoPage.tsx:78-93 | produces `PollDoneStep`'s state and fetch request |
| Video.VideoPage.OnFetchSettled | pages/VideoPage.tsx:87-90 | produces `FetchStep` and keeps the invariant |
| Video.VideoPage.CheckApiKey | pages/VideoPage.tsx:24-34 | produces `KeyQueryStep` and returns the stored answer |
| Video.VideoPage.HandleSelectKey | pages/VideoPage.tsx:43-51 | produces `SelectKeyStep` |
| Video.VideoPage.Unmount | pages/VideoPage.tsx:38-40 | produces `UnmountStep`; afterwards the model enables no event |
| Chat.WithPending | components/ChatAssistant.tsx:31-32 | the previous list, unchanged, followed by the user's message with the untrimmed text and one loading placeholder |
| Chat.WithoutLoading | components/ChatAssistant.tsx:39 | the filter leaves no loading message and never lengthens the list |
| Chat.WithReply | components/ChatAssistant.tsx:38-41 | after a reply no loading message remains and the last message is the model's reply |
| Chat.KeptIndices | components/ChatAssistant.tsx:39 | the positions of the non-loading messages, strictly increasing, containing exactly those positions |
| Chat.FilterKeepsOrder | components/ChatAssistant.tsx:39 | the `k`-th message the filter keeps is the message at the `k`-th non-loading position |
| Chat.ReplyKeepsOrder | components/ChatAssistant.tsx:38-41 | the new list is the non-loading messages of the previous list in order, then the reply; its length is their count plus one |
| Chat.WithoutLoadingAppend | components/ChatAssistant.tsx:39 | the filter of a concatenation is the concatenation of the filters |
| Chat.WithoutLoadingKeepsClean | components/ChatAssistant.tsx:39 | a list without placeholders passes the filter unchanged |
| Chat.TwoSendsThenReply | components/ChatAssistant.tsx:28-41 | two sends before the first reply: that reply removes both placeholders and keeps both user messages in the order sent |
| Chat.ReplyToCleanList | components/ChatAssistant.tsx:38-41 | a reply arriving when no placeholder is left only appends |
| Chat.ChatAssistant.constructor | components/ChatAssistant.tsx:10-11 | an empty list and an empty input |
| Chat.ChatAssistant.SetInput | components/ChatAssistant.tsx:77 | the input line changes only the input |
| Chat.ChatAssistant.HandleSend | components/ChatAssistant.tsx:28-36 | a blank input changes nothing and sends nothing; otherwise the list gets `WithPending`, the input is cleared and the text captured before clearing is sent |
| Chat.ChatAssistant.HandleKeyPress | components/ChatAssistant.tsx:44-49 | only Enter sends, exactly as `HandleSend`; any other key changes nothing |
| Chat.ChatAssistant.OnReply | components/ChatAssistant.tsx:38-41 | the list becomes `WithReply` of the list current when the reply arrives |
| Image.Initial | pages/ImagePage.tsx:5-8 | no image, no error, and the button enabled |
| Image.GenerateEnabled | pages/ImagePage.tsx:51 | the button is disabled exactly while loading; on a page that keeps the invariant, a disabled button shows neither an error nor an image |
| Image.GenerateStep | pages/ImagePage.tsx:10-17 | a request is made exactly when the prompt is not blank; a blank prompt sets only its error; otherwise loading starts and the error and image are cleared |
| Image.SettleStep | pages/ImagePage.tsx:19-26 | success shows the JPEG data URI of the data; failure shows the error's message or the fallback, with the image still cleared; loading always ends |
| Image.ClickDisablesButton | pages/ImagePage.tsx:10-27 | a click disables the button exactly when it sends a request; after that request settles, with either reply, the button is enabled again |
| Image.Step | pages/ImagePage.tsx:10-26 | every event keeps the page invariant; only a click on a non-blank prompt makes a request, for that prompt |
| Image.NoRequestWithBlankPrompt | pages/ImagePage.tsx:11-14 | over any run, no request carries a blank prompt |
| Image.AtMostOneInFlight | pages/ImagePage.tsx:51 | over any run, requests made minus requests settled changes by exactly the change in loading |
| Image.InFlightFromIdle | pages/ImagePage.tsx:51 | from an idle page, at most one request is unsettled, exactly while loading |
| Image.ImagePage.constructor | pages/ImagePage.tsx:5-8 | the fields start in the initial state |
| Image.ImagePage.SetPrompt | pages/ImagePage.tsx:43 | the prompt input changes only the prompt |
| Image.ImagePage.HandleGenerate | pages/ImagePage.tsx:10-17 | the handler's updates produce `GenerateStep`'s state and request |
| Image.ImagePage.StartLoading | pages/ImagePage.tsx:15-17 | loading starts and the error and the old image are cleared; nothing else changes |
| Image.ImagePage.OnSettled | pages/ImagePage.tsx:19-26 | the try, catch and finally blocks produce `SettleStep` |
| Voice.VoiceName | pages/VoicePage.tsx:59 | the selector only offers names from the voice list |
| Voice.IndicesNameEveryVoice | pages/VoicePage.tsx:4 | the selector's five positions and the voice list correspond one to one: every voice is named by exactly one position |
| Voice.Initial | pages/VoicePage.tsx:4-11 | the page starts with "Kore" selected, no audio, no error and the button enabled |
| Voice.GenerateEnabled | pages/VoicePage.tsx:65 | the button is disabled exactly while loading; on a page that keeps the invariant, a disabled button shows neither an error nor audio |
| Voice.SelectVoiceStep | pages/VoicePage.tsx:53-56 | choosing a voice changes only the selection |
| Voice.GenerateStep | pages/VoicePage.tsx:13-20 | a request is made exactly when the text is not blank, for the text as typed and the voice selected at the click; a blank text sets only its error |
| Voice.SettleStep | pages/VoicePage.tsx:22-29 | success plays the MPEG data URI of the data; failure shows the error's message or the fallback; loading always ends; text and voice are untouched |
| Voice.ClickDisablesButton | pages/VoicePage.tsx:13-30 | a click disables the button exactly when it sends a request; after that request settles, with either reply, the button is enabled again |
| Voice.Step | pages/VoicePage.tsx:13-29 | every event keeps the page invariant; only a click on non-blank text makes a request |
| Voice.RunRequestsAdmissible | pages/VoicePage.tsx:14-23 | over any run, every request has non-blank text and a voice from the list |
| Voice.AtMostOneInFlight | pages/VoicePage.tsx:65 | over any run, requests made minus requests settled changes by exactly the change in loading |
| Voice.InFlightFromIdle | pages/VoicePage.tsx:65 | from an idle page, at most one request is unsettled, exactly while loading |
| Voice.VoiceCapturedAtClick | pages/VoicePage.tsx:23 | changing the voice while a request is in flight does not change that request's voice; the next click uses the new voice |
| Voice.VoicePage.constructor | pages/VoicePage.tsx:7-11 | the fields start in the initial state |
| Voice.VoicePage.SetPrompt | pages/VoicePage.tsx:45 | the text area changes only the text |
| Voice.VoicePage.SetSelectedVoice | pages/VoicePage.tsx:56 | produces `SelectVoiceStep` |
| Voice.VoicePage.HandleGenerate | pages/VoicePage.tsx:13-20 | the handler's updates produce `GenerateStep`'s state and request |
| Voice.VoicePage.StartLoading | pages/VoicePage.tsx:18-20 | loading starts and the error and the old audio are cleared; nothing else changes |
| Voice.VoicePage.OnSettled | pages/VoicePage.tsx:22-29 | the try, catch and finally blocks produce `SettleStep` |

## Left out

- Services: `services/geminiVideo.ts`, `services/geminiImage.ts`, `services/geminiTTS.ts` and `services/geminiService.ts` are not part of this model. Their results are event parameters: an operation record, base64 data, a reply string, or a thrown value.
- Browser facilities: timers, `fetch`, `Response.blob`, `URL.createObjectURL`, `window.aistudio` and `process.env` have no model of their own.
  - A timer is an id.
  - A tick is an event.
  - A fetch settles as an `ok` flag with an object URL, or as a thrown value.
  - The key query and the dialog settle as events.
  - The environment key is an optional string fixed at mount.
- Timing: the 10-second poll period is only a constant. The model has no clock.
- A click while the finished video is being fetched. The model holds one awaited continuation (`pending`) and at most one live timer, so its `Enabled` excludes that click. The page's button is enabled then: line 80 has already cleared `isLoading`, and line 159 checks only `isLoading` and the key. On the page, the following can then happen:
  - a tick finds the job done, stops its timer and loading, and awaits the fetch (lines 79-87);
  - the user submits again;
  - the old fetch fails, and its catch block (lines 99-107) clears the timer the ref holds, which is the new submission's timer if that submission has already resolved, so the new job is abandoned;
  - the same catch block sets `isLoading` to false while the new submission may still be pending, so the button is enabled again;
  - a further click starts a second submission, so two timers can be live while the ref holds only the later one;
  - the earlier timer's `clearInterval` at line 79 then stops the ref's timer, not its own, and the earlier timer keeps polling and fetching;
  - an old fetch that succeeds instead shows the old video on the new generation (line 90).
- Work pending at unmount: the model enables no event after unmount. On the page, a submission pending at unmount still resolves, and line 74 then starts a timer that the cleanup at line 39, having already run, never clears. The ref holds that timer's id, so the timer's own done branch (line 79) or catch block (line 99) clears it: it keeps polling until its job is done or a poll fails, and a done job with a download link still fetches the video into the unmounted page. A fetch pending at unmount likewise still settles into the unmounted page.
- Object URLs: the result of `URL.createObjectURL` (line 90) is an opaque string, and the page never revokes it; the model has no notion of its lifetime.
- `Video.VideoPage.HandleGenerate` and `Video.GenerateStep` assume a page that is mounted, idle and not fetching, rather than any state. Only under that assumption does a click reach the handler in the modelled event order.
- Chat failures: when `sendMessageToAI` throws before producing a reply string, the placeholder is never removed. The model has no event for it: `Chat.ChatAssistant.OnReply` is only called with a reply.
- `startChat` and the scroll effect have no model. Neither changes the list.
- The `setMessages` handle that `useImperativeHandle` exposes to parents has no model.
- JSX rendering, CSS and the other pages, layout, routing and the service worker have no model.
