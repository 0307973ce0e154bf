# Year capsule: a Dafny model of the journey controller

The app walks a visitor through a year-end reflection. The visitor:

1. picks a year colour;
2. holds a button to "unlock" a capsule;
3. answers twenty questions on question cards;
4. receives a written review of the year from a chat-completion backend, then chats with it.

This project models the parts of the app that decide what happens:

- The journey controller, `AppComponent` (`journey.dfy`). It covers:
  - the six-state view machine (`intro`, `color-selection`, `unlocking`, `questions`, `loading`, `results`);
  - the answer dictionary;
  - the step index;
  - the tick-driven unlock progress;
  - the checkpoints after every fifth answer;
  - the review request and how its reply is cleaned and parsed;
  - the chat transcript;
  - the full reset.
- The backend client, `GeminiService` (`gemini.dfy`). It covers:
  - how the API key is found and when demo mode is on;
  - what a completion call yields or throws;
  - the three requests with their fixed fallbacks;
  - the chat message list;
  - the demo review.
- The question card, `QuestionCardComponent` (`question_card.dfy`). It covers the answer being typed, the typewriter and the button guards.

The supporting modules each model one thing:

- `text.dfy`: JavaScript's `trim`, ASCII lower-casing, `includes`, and `split(/\n+/)` with the paragraph filter.
- `record.dfy`: a JavaScript object used as an insertion-ordered string dictionary.
- `json.dfy`: `JSON.stringify` of strings and string dictionaries, with a reader that reads back what it writes.
- `analysis.dfy`: the review result, its `JSON.stringify`, and the code-fence stripping.
- `catalog.dfy`: the twenty questions and five colours.

Stateful parts are classes whose methods change fields under `modifies` frames that name each field.

Timers are explicit:

- every interval or timeout the app starts is a pending counter or queue;
- a "fires"/"tick" method runs the timer's body once.

An `await` splits an operation in two:

- the method up to the await queues the request;
- a second method takes the oldest queued request and the awaited value.

The backend is a `Transport` value: what `fetch` produced. `JSON.parse` of the review is an abstract function parameter.

## Model

| member | source | states |
|---|---|---|
| Text.Trim | src/app.component.ts:612 | `trim()` leaves no whitespace at either end, and its result is an infix of the input with only whitespace cut from each side |
| Text.BlankIffAllSpace | src/components/question-card.component.ts:174 | `s.trim()` is empty exactly when every character of s is whitespace |
| Text.TrimOfTrimmed | src/app.component.ts:612 | trimming a string with no surrounding whitespace returns it unchanged |
| Text.NonSpaceOfTrim | src/services/gemini.service.ts:126 | trimming removes whitespace only: the visible characters survive in order |
| Text.ToLower | src/services/gemini.service.ts:227 | `toLowerCase` on ASCII: the length is kept, no capital letter is left, each capital becomes its small letter and every other character stays in place |
| Text.ToLowerIdempotent | src/services/gemini.service.ts:227 | lower-casing twice gives the same text as lower-casing once |
| Text.SplitNewlineRuns | src/app.component.ts:150 | `split(/\n+/)`: pieces hold no newline, every inner piece is non-empty, the first is empty exactly when the text is empty or starts with a newline |
| Text.SplitNewlineRunsOfLine | src/app.component.ts:150 | a text without newlines is split into exactly one piece, itself |
| Text.SplitNewlineRunsCut | src/app.component.ts:150 | the text is cut at each whole run of newlines: a newline-free head, a run and the rest give the head followed by the split of the rest |
| Text.SplitNewlineRunsConcat | src/app.component.ts:150 | the pieces joined are the text with its newlines taken out |
| Text.TrimAll | src/app.component.ts:150 | `map(p => p.trim())` trims each piece, keeping the count |
| Text.DropEmpty | src/app.component.ts:150 | `filter(p => p.length > 0)` keeps every non-empty piece and only those, each one taken from the input |
| Text.DropEmptyAppend | src/app.component.ts:150 | the filter keeps order: filtering joined lists joins the filtered lists |
| Text.ParagraphsWellFormed | src/app.component.ts:147-151 | every paragraph is non-empty, has no whitespace at either end and holds no newline |
| Text.ParagraphsOfLine | src/app.component.ts:147-151 | a line without newlines is one paragraph, its trim, unless it is whitespace only, when there is none |
| Text.ParagraphsCut | src/app.component.ts:147-151 | every run of newlines ends a paragraph: the head line gives its trim (when not blank) and the paragraphs of the rest follow |
| Text.ParagraphsTwoLines | src/app.component.ts:150 | `"a\nb"` yields exactly `["a", "b"]` |
| Text.ParagraphsKeepText | src/app.component.ts:147-151 | no visible character of the letter body is lost or reordered by the paragraph split |
| Text.ParagraphsExample | src/app.component.ts:150 | `"a\n\nb\n"` yields exactly `["a", "b"]` |
| Record.Get | src/app.component.ts:651 | reading a key yields a value exactly when the key is present, and that value is the entry's |
| Record.Put | src/app.component.ts:522-524 | assignment adds one entry for a new key and none for a present key |
| Record.GetPutSame | src/app.component.ts:523 | after `answers[id] = answer`, reading id gives the answer |
| Record.GetPutOther | src/app.component.ts:522-523 | after the assignment, every other key reads as before |
| Record.PutPut | src/app.component.ts:523 | answering the same question again overwrites: the earlier answer leaves no trace |
| Record.KeyOrderPut | src/app.component.ts:522-523 | present keys keep their order and a new key goes last, the order `JSON.stringify` writes |
| Record.PutKeys | src/app.component.ts:522-524 | assignment keeps the keys distinct and adds exactly the assigned key |
| Json.ReadQuote | src/app.component.ts:619 | a string written by `JSON.stringify` reads back as the same string |
| Json.EscapeBodyPrintable | src/app.component.ts:619 | a stringified string holds no raw control character |
| Json.StringifyRecord | src/app.component.ts:619 | a stringified dictionary is enclosed in braces |
| Json.ReadStringifiedRecord | src/app.component.ts:619 | the stringified answers read back as exactly the answers, in order |
| Analysis.StringifyAnalysis | src/services/gemini.service.ts:252-254 | the stringified review is a brace-enclosed object |
| Analysis.StringifyNoBacktick | src/services/gemini.service.ts:253 | stringifying a review with no backtick in its text adds none |
| Analysis.StripFencesOfPlain | src/app.component.ts:612 | the fence removal leaves text without a backtick unchanged |
| Analysis.StripFencedJson | src/app.component.ts:612 | a reply wrapped as `` ```json\n…\n``` `` loses exactly the fence |
| Analysis.ReviewJsonTextIgnoresFence | src/app.component.ts:611-612 | the parser sees the same text whether or not the reply was fenced |
| Analysis.ReviewJsonTextOfBraced | src/app.component.ts:611-612 | a brace-enclosed reply without backticks reaches the parser unchanged |
| Journey.ReviewJsonTextOfStringified | src/app.component.ts:611-614 | a reply that is `JSON.stringify` of a review (no backticks in its text) reaches the parser unchanged |
| Catalog.QuestionsCarryIds | src/app.component.ts:171-321 | there are twenty questions and the i-th carries the i-th id |
| Catalog.QuestionIdsDistinct | src/app.component.ts:171-321 | no two questions share an id |
| Gemini.DemoModeExactly | src/services/gemini.service.ts:58-61 | demo mode is on exactly when the resolved key is empty or `'undefined'`, spelled out for both key sources |
| Gemini.GeminiService.constructor | src/services/gemini.service.ts:27-62 | the service starts with the resolved key and in demo mode exactly for a demo key |
| Gemini.GeminiService.Init | src/services/gemini.service.ts:31-62 | `init` stores the resolved key and switches demo mode on for a demo key (never off) |
| Gemini.FirstContent | src/services/gemini.service.ts:93 | a non-empty result is the content of the first choice's message |
| Gemini.FirstContentOf | src/services/gemini.service.ts:93 | a non-empty s is extracted exactly when the first choice's message content is s |
| Gemini.GeminiService.CallDeepSeek | src/services/gemini.service.ts:67-98 | it throws in demo mode, on a network failure, on a non-ok status (with that status) and on a body without choices; otherwise it yields the first content |
| Gemini.RoleOf | src/services/gemini.service.ts:207 | a transcript role maps to `assistant` exactly when it is `'model'`, never to `system` |
| Gemini.Relay | src/services/gemini.service.ts:205-210 | each transcript entry becomes one message, in order, role mapped and content unchanged |
| Gemini.ChatRequestShape | src/services/gemini.service.ts:198-212 | the chat request has `history.length + 2` messages: the system prompt, the transcript in order, then the new message as `user` |
| Gemini.ChatRequestOneSystemMessage | src/services/gemini.service.ts:198-212 | only the first message of a chat request has the system role |
| Gemini.BuildChatMessages | src/services/gemini.service.ts:198-212 | the push loop builds exactly the chat request |
| Gemini.GeminiService.GenerateInspiration | src/services/gemini.service.ts:100-130 | never throws: the demo text in demo mode, the trim of the reply (same visible characters) on success, the fixed fallback on any failure; always trimmed |
| Gemini.FixedRepliesTrimmed | src/services/gemini.service.ts:103 | the demo and fallback hints have no surrounding whitespace |
| Gemini.GeminiService.GenerateYearReview | src/services/gemini.service.ts:132-190 | never throws: the backend's text on success, the mock review for the colour context in demo mode and on any failure |
| Gemini.GeminiService.ChatWithYear | src/services/gemini.service.ts:192-220 | never throws: the offline reply in demo mode, else the reply to the built request, or the fixed fallback on failure |
| Gemini.KeywordsPool | src/services/gemini.service.ts:227-239 | the warm pool exactly when the context is warm, the cool pool otherwise, three keywords either way |
| Gemini.WarmWhenMentioned | src/services/gemini.service.ts:227 | a context containing "warm" or "nature" in any ASCII case, anywhere, is warm |
| Gemini.NeutralIsCool | src/services/gemini.service.ts:227 | the default context "Neutral" is not warm |
| Journey.StepsKeepRange | src/app.component.ts:457-483 | press and release ticks keep the progress in (-5, 101.5) |
| Journey.PressRise | src/app.component.ts:457-465 | k press ticks below 100 raise the progress by 1.5 each |
| Journey.UnlockFromRest | src/app.component.ts:448-466 | from 0, 67 press ticks reach 100.5 without completing and the 68th clamps to 100 and completes |
| Journey.DecayEndsAtZero | src/app.component.ts:475-483 | from p with p ≤ 5k, k+1 release ticks end at exactly 0 with the interval cleared |
| Journey.CheckpointMessage | src/app.component.ts:581-586 | a message exists exactly for counts 5, 10 and 15 |
| Journey.CheckpointSteps | src/app.component.ts:534-538 | over the twenty steps, a checkpoint shows after answers at steps 4, 9 and 14 only, never after the last |
| Journey.AnswerCountBound | src/app.component.ts:518-524 | answers keyed by distinct question ids number at most twenty |
| Journey.PutKeepsQuestionKeys | src/app.component.ts:519-524 | storing under a question id keeps the answers keyed by distinct question ids |
| Journey.PutLeavesOthers | src/app.component.ts:522-524 | storing under one id leaves every other id's answer as it was |
| Journey.AppComponent.constructor | src/app.component.ts:63-164 | the controller starts valid, fresh, with no timers and no pending calls |
| Journey.AppComponent.CurrentQuestion | src/app.component.ts:401 | the current question is a catalogue question and carries the id of the current step |
| Journey.AppComponent.GetAnswerFor | src/app.component.ts:650-652 | the stored answer for an id that has one, "" for an id with none |
| Journey.AppComponent.LetterParagraphs | src/app.component.ts:147-151 | the paragraphs are the paragraph split of the letter body (cut at every newline run, as `Text.ParagraphsCut` states): non-empty newline-free lines without surrounding whitespace that keep all of the body's visible text |
| Journey.AppComponent.ColorContext | src/app.component.ts:607 | the chosen colour's context when it is non-empty, "Neutral" without a colour or with an empty context; never empty |
| Journey.AppComponent.StartJourney | src/app.component.ts:403-411 | the view becomes the colour selection |
| Journey.AppComponent.ResetJourney | src/app.component.ts:415-437 | answers, chat, analysis, step, progress, particles, colour and view are back at their initial values |
| Journey.AppComponent.ConfirmColor | src/app.component.ts:439-445 | the colour is kept, the progress is 0 and the view is the unlock screen |
| Journey.AppComponent.StartUnlock | src/app.component.ts:448-466 | a no-op at 100 or more; otherwise pressing starts |
| Journey.AppComponent.EndUnlock | src/app.component.ts:468-485 | short of 100 it stops pressing and starts one release interval; otherwise nothing changes |
| Journey.AppComponent.CompleteUnlock | src/app.component.ts:487-499 | the press interval stops and one opening timeout is scheduled |
| Journey.AppComponent.PressTick | src/app.component.ts:457-465 | +1.5 below 100; at 100 or more the progress is clamped to 100 and the unlock completes |
| Journey.AppComponent.DecayTick | src/app.component.ts:475-483 | -5 above 0; at 0 or below the progress is set to 0 and this interval clears |
| Journey.AppComponent.OpenTimerFires | src/app.component.ts:496-498 | the opening timeout shows the questions |
| Journey.AppComponent.AddMemoryParticle | src/app.component.ts:545-579 | one particle of the colour's kind and colour is added; none without a colour |
| Journey.AppComponent.TriggerCheckpoint | src/app.component.ts:581-594 | for 5, 10 and 15 the message shows and a dismissal is scheduled; any other count changes nothing |
| Journey.AppComponent.DismissCheckpoint | src/app.component.ts:590-592 | the dismissal hides the checkpoint |
| Journey.AppComponent.FinishAndAnalyze | src/app.component.ts:603-610 | the view becomes loading and a review of the current answers in the colour's context is requested |
| Journey.AppComponent.StoreAnswer | src/app.component.ts:519-524 | the answer is stored under the current question's id, other ids unchanged, the answers stay keyed by distinct question ids |
| Journey.AppComponent.Advance | src/app.component.ts:532-542 | below the last step the step goes up by one, with a checkpoint shown and one dismissal scheduled after every fifth answer; at the last step the analysis starts |
| Journey.AppComponent.HandleAnswer | src/app.component.ts:518-543 | the answer is stored under the current id and readable back, others unchanged, one particle of the colour added (none without a colour), the hint cleared, then one step on with a checkpoint and its scheduled dismissal for counts 5, 10 and 15, or at the last step the loading view and a review request |
| Journey.AppComponent.HandleBack | src/app.component.ts:596-601 | one step back and the hint cleared when the step is above 0; at 0 nothing changes, so the step never goes negative |
| Journey.AppComponent.ApplyReview | src/app.component.ts:611-627 | the cleaned reply is parsed; on success the result is stored, the chat is seeded with exactly the answers' JSON (which reads back as the answers) and the greeting, and the results show; on failure the questions show and the answers, analysis and chat are kept |
| Journey.AppComponent.ReceiveReview | src/app.component.ts:610-627 | the oldest review request is answered and applied as above |
| Journey.AppComponent.GetInspiration | src/app.component.ts:501-508 | a no-op while a hint is on its way; otherwise the hint is cleared and one is requested for the current question's text |
| Journey.AppComponent.ReceiveInspiration | src/app.component.ts:508-515 | the hint is the service's answer to the oldest request, trimmed, and loading ends |
| Journey.AppComponent.SendChatMessage | src/app.component.ts:631-641 | whitespace-only input changes nothing; otherwise the trimmed message is appended as a user turn, the input is cleared and the reply is requested for the earlier transcript |
| Journey.AppComponent.ReceiveChatReply | src/app.component.ts:641-647 | exactly one model turn is appended (the offline reply in demo mode, else the backend's reply or the fallback) and loading ends |
| QuestionCard.AfterTicksIsPrefix | src/components/question-card.component.ts:153-167 | after n ticks the typewriter shows the first min(n, length) characters: always a prefix, and the whole text once n reaches its length |
| QuestionCard.QuestionCardComponent.constructor | src/components/question-card.component.ts:129-147 | the card starts with the initial answer, nothing shown and one typewriter start pending |
| QuestionCard.QuestionCardComponent.InputsChanged | src/components/question-card.component.ts:130-146 | on new inputs the shown text is cleared, the answer is reset to the initial answer, the interval stops and a start is scheduled for the new text |
| QuestionCard.QuestionCardComponent.StartFires | src/components/question-card.component.ts:143-157 | the oldest start runs the typewriter over its text from index 0 |
| QuestionCard.QuestionCardComponent.TypeTick | src/components/question-card.component.ts:159-166 | below the end a tick appends `fullText[index]` and advances; at the end the interval clears; the shown text is always `fullText[..index]`, and the whole text once stopped |
| QuestionCard.QuestionCardComponent.OnInput | src/components/question-card.component.ts:169-171 | the answer becomes the input's value and nothing else changes |
| QuestionCard.QuestionCardComponent.Submit | src/components/question-card.component.ts:173-177 | something is emitted exactly when the trimmed answer is non-empty, and it is the untrimmed answer |
| QuestionCard.SubmitNeedsVisibleText | src/components/question-card.component.ts:173-177 | nothing is emitted exactly when the answer is whitespace only |
| QuestionCard.NextEnabledButNothingSent | src/components/question-card.component.ts:173-177 | a non-empty whitespace-only answer enables the next button, yet submitting emits nothing |
| Journey.LastCardStartsAnalysis | src/components/question-card.component.ts:179-181 | the card showing the controller's step is the last exactly when answering it starts the analysis instead of moving on |
| Journey.BackDisabledAtFirstStep | src/components/question-card.component.ts:91 | back is disabled exactly at the first step, where the controller's `handleBack` changes nothing |
| QuestionCard.DisabledNextSendsNothing | src/components/question-card.component.ts:99 | while next is disabled (empty answer) submitting would emit nothing, so the guard only hides a blank answer; `NextEnabledButNothingSent` shows the converse fails |

## Notes on the code as written

- The unlock progress is not kept within 0 and 100.
  - A press tick at 99.0 moves it to 100.5, and only the next tick clamps it to 100.
  - From rest, 67 ticks reach 100.5 (`Journey.UnlockFromRest`).
  - A release tick above 0 subtracts 5 and can reach a negative value such as -3.5. Only the next tick sets it to 0.
  - A release interval started by `endUnlock` is never cleared by `startUnlock`, so pressing again while it runs mixes +1.5 and -5 ticks.
  - The model keeps all of this; `Journey.StepsKeepRange` bounds the progress to (-5, 101.5).
- `getInspiration` and `sendChatMessage` have `catch` branches that cannot run: the service methods they await never reject. The model has no such branch, and its `ReceiveInspiration` and `ReceiveChatReply` always succeed.
- `finishAndAnalyze` seeds the chat with `JSON.stringify(this.answers())` as read after the await, not the answers that were sent. The model does the same.
- `JSON.stringify` writes a plain object's keys in insertion order. Integer-like keys would come first, but no question id (`q1` … `q20`) is one, so `record.dfy` keeps insertion order only.

## Left out

- Audio (`toggleAudio`, `onBgmFileSelected`, the audio setup in the constructor, the audio attempt in `startJourney`): browser media I/O.
- `generateReport`, `downloadReport`, `closeReportModal`: DOM rasterisation by a foreign script.
- The random position, rotation, scale and border radius of a memory particle, and its `Date.now` id: only the particle's kind and colour are kept.
- The `progress` percentage: a floating-point display value.
- The jelly-capsule directive: spring physics on animation frames with DOM writes.
- The `fetch` call, its headers and body, the temperatures, and the prompt texts: the response is the `Transport` parameter, and a chat reply's endpoint is a function from the message list to a `Transport`.
- `console` logging, `alert`, `navigator.vibrate` and the `delay` waits: I/O and timing only.
- Timer scheduling itself: every interval and timeout is a pending counter or queue, with one method per body run. Two timing facts are stated as preconditions:
  - A typewriter tick requires that no start is pending. The effect clears the running interval, and an interval's first tick comes 50 ms after its own start. So a start queued earlier always fires before the next tick.
  - The model does not order the 800 ms opening timeouts and 3 s checkpoint dismissals against other events.
- `JSON.parse` of the review: an abstract function parameter. The shape of the parsed object is not validated, as in the source.
- Journey.AppComponent.ReceiveReview: takes the response that `generateYearReview` resolved to as a parameter. The link between it and the request it answers is stated by `Gemini.GeminiService.GenerateYearReview`, not restated in this contract.
- Gemini.GeminiService.GenerateYearReview: the demo review's text is not shown to reach the parser unchanged for the concrete demo letter. `Journey.ReviewJsonTextOfStringified` proves this for any review without backticks, but the demo texts are too long to check character by character.
- Text.ToLower: folds ASCII letters only. For the searched words "warm" and "nature" this decides the same as `toLowerCase`: no other character lower-cases to one of their letters except the Kelvin sign (to `k`) and `İ` (to `i̇`), and neither letter occurs in those words.
- The app's template, which binds the card's inputs to the controller, is not part of this model. `Journey.ShowsStep` states the binding the card lemmas assume: the card's index is the controller's step and its total is the number of questions.
- `ngOnDestroy`: clearing the interval when the card is destroyed is not modelled.
- The card's `inspirationHint` and `isGettingInspiration` inputs and its `requestInspiration`/`back` outputs: they only pass values between the card and the controller.
