# Social post wizard — a Dafny model

This project models the logic of a small client-side wizard. The wizard walks a
user through five steps:

1. pick a social network;
2. enter and confirm a handle;
3. describe a topic;
4. receive generated captions, hashtags and image ideas;
5. edit, copy and share those results.

The model covers four pieces:

- **The `App` component (App.tsx).** Its nine state hooks and handlers are modelled
  twice:
  - as a pure transition function over a snapshot of the state (`Wizard.Apply`),
    about which the reachable-state invariant and the scenario lemmas are proved;
  - as a class `AppComponent.App` whose methods update the fields one setter at a
    time, each proved to move the state exactly as `Apply` says.

  Each `await` is split into two parts: the synchronous prologue that issues a
  request, and a completion event (`ContentArrived`, `ContentFailed`,
  `IdeasArrived`, `IdeasFailed`). The generation service is an oracle whose answers
  are those events' arguments. The requests in flight are tracked as ghost
  multisets of the arguments their closures captured. This lets the model say which
  completions can arrive.
- **The handle step (components/HandleInput.tsx).**
  - the per-network rule table;
  - the ordered checks of `validateHandle` and the message each one sets;
  - removing one '@' on input;
  - prefixing '@' on submit;
  - the form state.
- **The topic step (components/TopicInput.tsx).** The trim-and-guard on submit and
  the disabled condition of the submit button.
- **The results view (components/ResultsDisplay.tsx).**
  - caption editing as a single-card update;
  - the hashtag line and the share text;
  - the copied-flag map keyed by `${type}-${index}`, with its expiry timers;
  - the per-network share fallback.

The value types of types.ts are `Types`. The ECMAScript built-ins the code relies
on are `JsString`:

- `trim`;
- `replace` with a one-character pattern, together with `IndexOf`, the
  first-occurrence search that `replace` performs;
- `join` on one character. `Split` is not called by the code: it is the inverse
  of `join`, used to state that the hashtag line holds one token per tag;
- integer printing in template literals.

Files: `types.dfy`, `js_string.dfy`, `handle_input.dfy`, `topic_input.dfy`,
`wizard.dfy`, `app.dfy`, `results_display.dfy`.

The model keeps these behaviours of the code as written:

- `handleReset` does not clear `isLoading` or `isGeneratingNextSteps`, and requests
  in flight are not cancelled.
- Completions carry no request tag, so a stale completion updates the current state.
  `Wizard.StaleIdeasLandAfterReset` shows this; it is not suppressed.
- `replace('@', '')` removes the first '@' anywhere in the value, not only a leading
  one.
- `App`'s handlers check neither the current step nor the handle's validity. Those
  guarantees come from which view is rendered, and from the handle step's own
  validation. `Wizard.Offered` states this.
- `handleRegenerateForPlatform` is passed to the results view, whose props do not
  declare it. It is modelled as a transition that the view never raises.

## Model

| member | source | states |
|---|---|---|
| Types.PlatformName | types.ts:1-7 | each network's enum string value is non-empty |
| Types.PlatformNameInjective | types.ts:1-7 | distinct networks print as distinct strings |
| JsString.Strip | components/TopicInput.tsx:17-18 | `trim`'s stripping: the result is a slice of the input with only characters of the set cut from either end, and neither starts nor ends with one |
| JsString.Trim | components/TopicInput.tsx:17-18 | `trim` is empty exactly for all-whitespace input; otherwise it is the slice of the input with only whitespace cut from either end, and has no whitespace at either end |
| JsString.StripEmptyIff | components/TopicInput.tsx:51 | a string trims to "" exactly when all its characters are whitespace |
| JsString.StripOfUnpadded | components/TopicInput.tsx:18 | a string with no whitespace at either end is its own trim |
| JsString.StripIdempotent | components/TopicInput.tsx:18 | trimming a trimmed string changes nothing |
| JsString.IndexOf | components/HandleInput.tsx:76 | the search inside `replace`: -1 exactly when the character is absent; otherwise the position of its first occurrence |
| JsString.IndexOfAfterPrefix | components/ResultsDisplay.tsx:29 | after a prefix free of the character, the first occurrence is the one that follows the prefix |
| JsString.RemoveFirst | components/HandleInput.tsx:76 | `replace(c, '')` returns the input unchanged when `c` is absent; otherwise it removes exactly the first `c`, keeping everything before and after it |
| JsString.Join | components/ResultsDisplay.tsx:121 | `join(sep)`: a single part is returned as is; otherwise the result starts with the first part followed by the separator |
| JsString.SplitJoin | components/ResultsDisplay.tsx:121 | `join` loses nothing: splitting the joined string at the separator gives back the parts when no part contains it |
| JsString.NatToString | components/ResultsDisplay.tsx:29 | a natural number prints as a non-empty string of decimal digits |
| JsString.DecimalValueOfNatToString | components/ResultsDisplay.tsx:29 | reading the printed digits back gives the number |
| JsString.IntToString | components/ResultsDisplay.tsx:29 | an integer prints as a non-empty string that starts with '-' exactly when the integer is negative |
| JsString.ParseIntOfIntToString | components/ResultsDisplay.tsx:29 | reading a printed integer back, with its sign, gives the integer |
| JsString.IntToStringInjective | components/ResultsDisplay.tsx:29 | distinct integers print as distinct strings |
| HandleInput.RuleFor | components/HandleInput.tsx:10-41 | the rule table; each network's bounds satisfy 1 <= min <= max |
| HandleInput.MatchesPattern | components/HandleInput.tsx:61 | a string the rule's pattern accepts is non-empty and holds no '@' and no whitespace; it ends with a period only under the two classes that admit one |
| HandleInput.TrailingPeriodMessage | components/HandleInput.tsx:67 | the message names the network, and it differs from every message of the rule table |
| HandleInput.Validate | components/HandleInput.tsx:48-73 | valid exactly when the handle is within bounds, uses only allowed characters and has no forbidden trailing period. A blank handle is invalid with no message. Length is checked before characters, and both give the table's message. A trailing period is checked last and gives the network-naming message. A valid handle has no message |
| HandleInput.AcceptableIsNotBlank | components/HandleInput.tsx:49-64 | no handle the other checks accept is blank, so the blank check never rejects a valid handle |
| HandleInput.InClassIsPlain | components/HandleInput.tsx:10-41 | no network's character class admits '@' or whitespace |
| HandleInput.ValidHandleShape | components/HandleInput.tsx:61-64 | a valid handle contains neither '@' nor whitespace |
| HandleInput.InputValue | components/HandleInput.tsx:76 | typing removes the first '@', keeping the characters before and after it, and keeps a value with no '@' unchanged |
| HandleInput.IsBlank | components/HandleInput.tsx:49 | `!value.trim()` holds exactly when every character is whitespace |
| HandleInput.WithAt | components/HandleInput.tsx:85 | the submitted value always starts with '@': a handle that already does is kept, and any other gets exactly one '@' in front |
| HandleInput.Emitted | components/HandleInput.tsx:81-87 | submit hands a value on exactly when the handle is acceptable, and that value starts with '@' |
| HandleInput.EmittedShape | components/HandleInput.tsx:81-87 | submit hands a value on exactly when the handle is valid; that value is the handle behind exactly one '@' |
| HandleInput.EmittedWhenValid | components/HandleInput.tsx:83-85 | a valid handle is emitted as '@' + handle |
| HandleInput.AtPrefixedEmits | components/HandleInput.tsx:85 | '@' + a valid handle is the kind of value the step emits, with no further '@' |
| HandleInput.EmitsRoundTrip | components/HandleInput.tsx:81-87 | a value the step emits is re-emitted from the handle behind its '@' |
| HandleInput.TwitterTooShort | components/HandleInput.tsx:56-58 | a 3-character Twitter handle is rejected with Twitter's message |
| HandleInput.TwitterShortest | components/HandleInput.tsx:11-16 | a 4-character Twitter handle is accepted |
| HandleInput.TwitterTooLong | components/HandleInput.tsx:56-58 | a 16-character Twitter handle is rejected with Twitter's message |
| HandleInput.InstagramInnerPeriod | components/HandleInput.tsx:17-22 | Instagram accepts a period inside a handle |
| HandleInput.InstagramTrailingPeriod | components/HandleInput.tsx:66-69 | Instagram rejects a trailing period with "A Instagram username cannot end with a period." |
| HandleInput.InstagramSpace | components/HandleInput.tsx:61-64 | Instagram rejects a space with the table's message |
| HandleInput.InputDropsFirstAtOnly | components/HandleInput.tsx:76 | "@@demo" is stored as "@demo" |
| HandleInput.LeftoverAtIsRejected | components/HandleInput.tsx:61-64 | the '@' left behind by a doubled prefix fails the character check |
| HandleInput.NotBlankAt | components/HandleInput.tsx:49 | a string with a non-whitespace character is not blank |
| HandleInput.NotBlankEmpty | components/HandleInput.tsx:49-52 | the empty handle is blank |
| HandleInput.HandleForm.constructor | components/HandleInput.tsx:45-46 | the form starts empty with no error, and the error is the verdict on the handle |
| HandleInput.HandleForm.ValidateHandle | components/HandleInput.tsx:48-73 | returns the verdict on the value and sets the error to that verdict's message |
| HandleInput.HandleForm.InputChange | components/HandleInput.tsx:75-79 | stores the typed value without its first '@' and keeps the error equal to the verdict on it |
| HandleInput.HandleForm.SubmitDisabled | components/HandleInput.tsx:120 | Continue is disabled exactly when the handle is not valid |
| HandleInput.HandleForm.Submit | components/HandleInput.tsx:81-87 | re-validates, then emits '@' + handle exactly when the handle is valid, and emits a value the wizard can accept |
| TopicInput.SubmittableIsTrimmed | components/TopicInput.tsx:17-18 | a topic with no whitespace at either end is its own trim and is not all whitespace |
| TopicInput.TopicForm.constructor | components/TopicInput.tsx:13 | the textarea starts empty |
| TopicInput.TopicForm.Change | components/TopicInput.tsx:34 | typing stores the value exactly as typed |
| TopicInput.TopicForm.SubmitDisabled | components/TopicInput.tsx:51 | the button is disabled exactly when the topic is all whitespace |
| TopicInput.TopicForm.Submit | components/TopicInput.tsx:15-20 | hands over nothing exactly when the button is disabled; otherwise hands over the trimmed topic, which has no whitespace at either end |
| Wizard.StepIndex | types.ts:9-16 | each step's value lies below 6; 0 belongs to SELECT_PLATFORM alone and 5 to SHOW_RESULTS alone |
| Wizard.StepOrder | types.ts:9-16 | the values increase in declaration order, so with `StepIndex` the six steps take 0 to 5 in turn |
| Wizard.StartGeneration | App.tsx:44-49 | both async handlers' prologue: the spinner shows; results, ideas and error are cleared; exactly one more copy of the captured query is in flight; platform, handle, topic, the follow-up flag and follow-up requests are unchanged |
| Wizard.Apply | App.tsx:24-120 | the handlers' writers: the platform changes only on selection, regeneration and reset; the handle only on submission and reset; the topic only on generation and reset; new results appear only when content arrives; the only error ever set is the fixed message, on a failed request |
| Wizard.Offered | App.tsx:122-147 | what the rendered view can raise: nothing from the user while the spinner shows, only the reset from the results view, and never a regeneration |
| Wizard.InitialInv | App.tsx:14-22 | the initial state satisfies the invariant |
| Wizard.InvPreserved | App.tsx:24-120 | every event the rendered view can raise is possible and keeps the invariant: platform set beyond the first step, a confirmed handle valid and '@'-prefixed, a submittable topic from generation on, loading exactly while generating with one request in flight, the error only before generation and never with results, and results only on the results step |
| Wizard.InvAlongRun | App.tsx:24-120 | the invariant holds after every trace of offered events |
| Wizard.ReachableStates | App.tsx:122-147 | in every reachable state the `platform!` uses are sound, because a platform is chosen whenever the step is past the first |
| Wizard.GenerateThenContent | App.tsx:42-61 | a submitted topic issues one request with the current platform and handle; its success shows the results with no error, stops loading and issues the follow-up with the same arguments |
| Wizard.GenerateThenFailure | App.tsx:69-74 | a failed request returns to the topic step with the fixed message and no results; platform, handle and topic are kept and no follow-up is issued |
| Wizard.IdeasFailureIsSwallowed | App.tsx:62-67 | a failed follow-up keeps the results, clears the ideas and raises no error |
| Wizard.GenerateGuard | App.tsx:43 | without a platform and a handle, submitting a topic changes nothing |
| Wizard.RegenerateGuard | App.tsx:78 | without a handle and a topic, regenerating changes nothing |
| Wizard.RegenerateIsGenerateOnNewPlatform | App.tsx:77-110 | regenerating is generating the stored topic again for the new platform |
| Wizard.ResetClears | App.tsx:112-120 | a reset writes exactly the seven fields `handleReset` sets; the loading flags and the requests in flight are left as they are |
| Wizard.ResetFromResults | App.tsx:112-120 | reset from the results restores every initial value except the follow-up flag, and the follow-up request stays in flight |
| Wizard.StaleIdeasLandAfterReset | App.tsx:57-67 | follow-up ideas requested before a reset still land after it, on the first step |
| Wizard.StaleIdeasClearFlag | App.tsx:65-67 | with two follow-ups in flight, the first to finish clears the flag while the other still runs |
| AppComponent.App.constructor | App.tsx:13-22 | the fields start at the initial state |
| AppComponent.App.PlatformSelect | App.tsx:24-27 | sets the platform and moves to the handle step |
| AppComponent.App.HandleSubmit | App.tsx:29-32 | stores the handle and moves to confirmation |
| AppComponent.App.HandleConfirm | App.tsx:34-36 | moves to the topic step |
| AppComponent.App.HandleEdit | App.tsx:38-40 | moves back to the handle step |
| AppComponent.App.Back | App.tsx:127 | moves back to the first step and keeps the platform |
| AppComponent.App.GenerateContent | App.tsx:42-49 | issues no request without a platform and a handle; otherwise stores the topic, clears the results and error, starts loading and issues the request with the current arguments |
| AppComponent.App.RegenerateForPlatform | App.tsx:77-85 | issues no request without a handle and a topic; otherwise switches the platform, clears the results and error, starts loading and issues the request |
| AppComponent.App.Reset | App.tsx:112-120 | clears platform, handle, topic, results, ideas and error, and leaves the loading flags |
| AppComponent.App.ContentReady | App.tsx:52-58 | shows the results, stops loading and issues the follow-up with the request's arguments |
| AppComponent.App.ContentError | App.tsx:69-74 | sets the fixed message, returns to the topic step and stops loading |
| AppComponent.App.IdeasReady | App.tsx:60-67 | stores the ideas and clears the follow-up flag |
| AppComponent.App.IdeasError | App.tsx:62-67 | clears the ideas and the follow-up flag |
| ResultsDisplay.WithCaption | components/ResultsDisplay.tsx:21-25 | an edit changes only the caption of the edited card: same length, same image idea and hashtags, every other card unchanged |
| ResultsDisplay.Hashtagged | components/ResultsDisplay.tsx:121 | each tag gets a '#' in front, in order, one per tag |
| ResultsDisplay.HashtagLine | components/ResultsDisplay.tsx:121 | the hashtag line is empty exactly when there are no tags, and otherwise starts with '#' |
| ResultsDisplay.HashtagLineSplits | components/ResultsDisplay.tsx:121 | when no tag contains a space, the line splits back into the '#'-tags, one token per tag |
| ResultsDisplay.ShareText | components/ResultsDisplay.tsx:39 | the share text is the caption, two newlines, then exactly the hashtag line the card shows |
| ResultsDisplay.KindName | components/ResultsDisplay.tsx:27 | the two copy types print without a '-' |
| ResultsDisplay.CopyKey | components/ResultsDisplay.tsx:29 | the key `${type}-${index}` reads back: the type's name, then '-', then the printed index |
| ResultsDisplay.ShowsCopied | components/ResultsDisplay.tsx:112 | a button reads "Copied!" exactly when its key holds `true`; a key never written reads as "Copy" |
| ResultsDisplay.CopyKeyInjective | components/ResultsDisplay.tsx:29 | distinct (type, index) pairs, including index -1, have distinct flag keys |
| ResultsDisplay.FlagTouchesOnlyItsButton | components/ResultsDisplay.tsx:29-33 | setting or clearing one key's flag changes the label of that Copy button and of no other |
| ResultsDisplay.ShareFlagIsInvisible | components/ResultsDisplay.tsx:63 | the share fallback's flag (index -1) never changes any card's Copy label |
| ResultsDisplay.Fallback | components/ResultsDisplay.tsx:53-71 | the fallback copies exactly for LinkedIn, Instagram and TikTok, and opens a page exactly for Twitter, Facebook and LinkedIn; Twitter alone gets the tweet intent and Facebook alone the sharer page; LinkedIn's notice is the fixed LinkedIn message and the copy-only notice names the network; it always carries the share text |
| ResultsDisplay.ShareOutcome | components/ResultsDisplay.tsx:37-72 | the share sheet is used exactly when it completes, titled for the network; otherwise the network's fallback runs |
| ResultsDisplay.ResultsView.constructor | components/ResultsDisplay.tsx:13-15 | no cards, nothing in edit mode, no flags |
| ResultsDisplay.ResultsView.ReceiveSuggestions | components/ResultsDisplay.tsx:17-19 | new suggestions replace the editable copy and discard edits |
| ResultsDisplay.ResultsView.CaptionChange | components/ResultsDisplay.tsx:21-25 | the editable copy becomes the single-card caption update |
| ResultsDisplay.ResultsView.CopyToClipboard | components/ResultsDisplay.tsx:27-34 | copies the text, sets only its key's flag and starts that key's expiry timer |
| ResultsDisplay.ResultsView.CopyExpired | components/ResultsDisplay.tsx:31-33 | a timer sets only its own key's flag back to false |
| ResultsDisplay.ResultsView.CopyCaption | components/ResultsDisplay.tsx:109 | copies the card's current caption and shows "Copied!" on that button |
| ResultsDisplay.ResultsView.CopyHashtags | components/ResultsDisplay.tsx:124 | copies the card's hashtag line, which is the tail of its share text, and shows "Copied!" on that button |
| ResultsDisplay.ResultsView.StartEditing | components/ResultsDisplay.tsx:104 | clicking a caption puts that card in edit mode |
| ResultsDisplay.ResultsView.StopEditing | components/ResultsDisplay.tsx:98 | blur leaves no card in edit mode |
| ResultsDisplay.ResultsView.Share | components/ResultsDisplay.tsx:37-72 | shares the card's current text as `ShareOutcome` says; only the copying fallbacks set a flag, under `caption--1` |

## Left out

- The generation service (services/geminiService.ts) is not part of this model. Its two calls are an oracle: their results and failures are the arguments of the completion events. Prompt text, the SDK call, JSON parsing and response schemas are not modelled.
- Browser side effects are not performed:
  - `navigator.clipboard.writeText`: the copied text is returned instead;
  - `navigator.share`: its outcome is an input;
  - `window.open` and `encodeURIComponent`: the chosen action carries the raw text, not the URL;
  - `alert`: only its message is kept;
  - `console`.
- Timing is not modelled. `setTimeout` becomes a ghost multiset of pending expiries, and the two-second delay is not modelled. The order in which completions and timers fire is free.
- `AppComponent.App`: stale completions are not suppressed, because the code has no request tag. The model exhibits the consequences rather than claiming suppression.
- Wizard.InvPreserved: the invariant is proved only for events the rendered view can raise. `handleRegenerateForPlatform` is never raised by the results view, and `App`'s handlers, called directly, accept any argument.
- ResultsDisplay.ResultsView.CaptionChange: requires an index of an existing card, as the rendered textarea supplies. An assignment past the end of the array would grow it; that is not modelled.
- ResultsDisplay.HashtagLineSplits: the one-token-per-tag property is proved only for tags without spaces. A tag containing a space yields more tokens.
- Regular expressions are modelled as character-class predicates, not by a regex engine.
- Strings are sequences of characters, so `.length` counts characters, not UTF-16 code units.
- `trim` removes the ECMAScript WhiteSpace and LineTerminator characters, listed explicitly.
- The view props `handle` and `topic` of the results view are only displayed and are not modelled. Neither are the props `nextSteps` and `isGeneratingNextSteps`, which `App` passes but the view does not declare.
- Pure presentation is not part of this model: components/PlatformSelector.tsx, components/HandleConfirmation.tsx, components/LoadingSpinner.tsx, the icons and the logo, and all markup and styling.
