# CodeSENSEI page logic in Dafny

CodeSENSEI takes a pasted code snippet and explains it. It fans the snippet out to six analyzers (summary, line-by-line explanation, complexity, alternatives, practice problems, topics). The page keeps a local history of past analyses and a follow-up question/answer chat. The analyzers and the follow-up answerer are calls to a hosted language model. This project models the deterministic logic around those calls as pure functions over immutable state:

- `Actions` (`app/actions.ts`). `analyzeCode` rejects blank code. Otherwise it issues the six analysis requests and joins them settle-all: a rejection only empties its own slot. `askFollowUpQuestion` makes two ordered blank checks and then passes the answer through. The analyzers' settled outcomes are inputs. The requests an action issues are part of its result, so "no analyzer is invoked" can be stated.
- `History` (`components/history-sidebar.tsx` type, `components/code-analysis.tsx` list operations). This covers the de-duplicating, capped insertion of line 78, the lookup by id, and the conversation update of the active item.
- `Conversation`. The follow-up log edits: append a pending exchange, fill in the last answer, roll back.
- `CodeAnalysis` (`components/code-analysis.tsx`). The page state and every handler as an atomic transition. The asynchronous handlers are also split at their `await` into a begin and a finish half. The code-change effect is modelled too. A page invariant (distinct codes, at most 50 items, nothing pending for the effect) is proved for every run of allowed events.
- `AnalysisView` (`components/analysis-results.tsx`). The skeleton / empty / results choice, each section's content-or-fallback rule, the default open section, the follow-up submit guard, the send-button rule and the "Thinking..." placeholder.
- `Text`. JavaScript `trim()`, `split('\n')[0]` and `substring(0, n)`. `IsWhitespace` is the ECMAScript WhiteSpace and LineTerminator set.
- `Flows`. The output shapes of the `ai/flows/*.ts` prompts and the outbound request type.

The error behaviour follows `app/actions.ts`:

- `analyzeCode` throws `Error("Code input cannot be empty.")` on blank code (actions.ts:15). `askFollowUpQuestion` throws "Code context cannot be empty." (actions.ts:59) and then "Question cannot be empty." (actions.ts:62). These are modelled as `InvalidInput(message)` with those exact messages.
- Otherwise `askFollowUpQuestion` returns `await askFollowUp(input)` unchanged (actions.ts:64), so a rejection of that call propagates as is (`FlowFailed(reason)`).
- The follow-up answer is the record `{answer}`.

## Model

| member | source | states |
|---|---|---|
| Text.Trim | chat-bot/src/app/actions.ts:15 | `trim()` returns an infix of its input. The parts cut off at both ends are all whitespace. The result is empty or starts and ends with a non-whitespace character. |
| Text.TrimEmptyIffBlank | chat-bot/src/app/actions.ts:15 | `!s.trim()` holds exactly when every character of `s` is whitespace, empty string included. |
| Text.FirstLine | chat-bot/src/components/code-analysis.tsx:73 | `split('\n')[0]` is the longest prefix without a line feed. It is the whole string or stops right before a `'\n'`. |
| Flows.AnalysisRequests | chat-bot/src/app/actions.ts:26-33 | The fan-out issues exactly six requests in dispatch order. Every analyzer appears, and each receives the same code. |
| Flows.AnalyzersDistinct | chat-bot/src/app/actions.ts:26-33 | No analyzer is dispatched twice, and every analyzer is dispatched. |
| Actions.GetValue | chat-bot/src/app/actions.ts:35-41 | `getValue` is present exactly when the outcome fulfilled, and then holds the fulfilled value. |
| Actions.AnalyzerOfBijective | chat-bot/src/app/actions.ts:43-50 | The slot-to-analyzer mapping is one-to-one and onto. In particular `problems` is fed by `suggestPracticeProblems` and by nothing else. |
| Actions.Assemble | chat-bot/src/app/actions.ts:43-50 | Each slot is present iff its own analyzer fulfilled, and then holds that value. The number of populated slots equals the number of fulfilled outcomes. |
| Actions.SlotDependsOnlyOnItsAnalyzer | chat-bot/src/app/actions.ts:43-50 | Two outcome records that agree on one analyzer give equal content in that analyzer's slot, whatever the other five did. |
| Actions.AnalyzeCode | chat-bot/src/app/actions.ts:12-53 | Fails iff the code is blank. A blank code fails with the exact message and issues no request. Otherwise it issues the six requests and never fails, however many analyzers reject. Each slot is `getValue` of its analyzer's outcome. |
| Actions.AllFulfilledAllPopulated | chat-bot/src/app/actions.ts:26-50 | When all six analyzers fulfil, the call succeeds and all six slots are populated. |
| Actions.OneRejectedFivePopulated | chat-bot/src/app/actions.ts:26-50 | When exactly one analyzer rejects, the call still succeeds. Five slots are populated and the rejected analyzer's slot is empty. |
| Actions.AskFollowUpQuestion | chat-bot/src/app/actions.ts:57-65 | Blank code fails with "Code context cannot be empty." even when the question is blank too. Non-blank code with a blank question fails with "Question cannot be empty.". No request is issued iff one of them is blank. Otherwise exactly one `askFollowUp` request is issued and its outcome is returned unchanged. |
| History.FindIndex | chat-bot/src/components/code-analysis.tsx:78 | `findIndex` returns the first index holding the code, or -1 when none does. |
| History.KeepFirstOccurrences | chat-bot/src/components/code-analysis.tsx:78 | The `filter` keeps an order-preserving subsequence with pairwise distinct codes and loses no code. The item kept for each code is the first one with that code, and the kept items appear in the order of their codes' first occurrences. Its length is the number of distinct codes of its input. |
| History.UpdateHistory | chat-bot/src/components/code-analysis.tsx:78 | After the insertion the new item is at index 0 and no older item with its code survives. Codes are pairwise distinct and the length is min(50, distinct codes of `[new] ++ old`). The result is the first items of the de-duplicated list, so only the oldest are evicted, and it keeps every code when at most 50 are distinct. |
| History.FindById | chat-bot/src/components/code-analysis.tsx:158 | `find` by id is absent iff no item has the id. Otherwise it returns the first item of the history with that id. |
| History.ReplaceConversation | chat-bot/src/components/code-analysis.tsx:137-139 | The length is unchanged. Only conversations change. The items with the active id get the new conversation, and every other item is untouched. |
| History.ReplaceConversationKeepsCodes | chat-bot/src/components/code-analysis.tsx:136-141 | Updating the active item's conversation keeps the set of codes and the history invariant. |
| History.ReplaceConversationKeepsLookup | chat-bot/src/components/code-analysis.tsx:136-141 | For every id, it keeps whether `find` succeeds and the code of the item it finds. |
| Conversation.AppendPending | chat-bot/src/components/code-analysis.tsx:125 | The conversation grows by exactly one pending exchange `{question, ''}`, and earlier entries are unchanged. |
| Conversation.FillLastAnswer | chat-bot/src/components/code-analysis.tsx:131-133 | Only the last entry changes: it keeps its question and takes the answer. The length is unchanged. |
| Conversation.DropLast | chat-bot/src/components/code-analysis.tsx:150 | `slice(0, -1)` removes exactly the last entry and leaves an empty conversation empty. |
| Conversation.AnswerCompletesPending | chat-bot/src/components/code-analysis.tsx:125-133 | Answering the pending entry gives the old conversation plus one completed exchange. |
| Conversation.RollbackRestores | chat-bot/src/components/code-analysis.tsx:125-150 | Rolling back after a failure restores the conversation as it was before the submit. |
| AnalysisView.ResultSection | chat-bot/src/components/analysis-results.tsx:69-91 | A section renders its content iff it has data. Otherwise it renders "Could not generate insights for: " followed by its title. |
| AnalysisView.DefaultOpen | chat-bot/src/components/analysis-results.tsx:97 | The default open section is "Code Summary" iff `summary` is non-null, and "Line-by-Line Explanation" iff it is null. |
| AnalysisView.Render | chat-bot/src/components/analysis-results.tsx:93-194 | Loading takes priority and shows the skeleton. Then a null record shows the empty state. Otherwise six sections render in order, each with content iff `hasData` holds and with the fallback naming it otherwise. |
| AnalysisView.HasData | chat-bot/src/components/analysis-results.tsx:115-187 | A section shows content iff its slot is non-null and lists at least one entry. The summary and the complexity report count as one entry, so for them content shows iff the slot is non-null. The four list sections show the fallback for an empty list. |
| AnalysisView.FormSubmit | chat-bot/src/components/analysis-results.tsx:99-103 | A whitespace-only question is never submitted. Any other question is submitted as typed. |
| AnalysisView.SendDisabled | chat-bot/src/components/analysis-results.tsx:260 | The send button is disabled iff a follow-up is loading or the question is blank. |
| AnalysisView.EnabledSendSubmits | chat-bot/src/components/analysis-results.tsx:99-260 | Whenever the send button is enabled, submitting passes the question through unchanged. |
| AnalysisView.ShowsThinking | chat-bot/src/components/analysis-results.tsx:231 | "Thinking..." appears only while a follow-up is loading, only on the last conversation entry, and only when that entry's answer is empty. |
| CodeAnalysis.SummaryLine | chat-bot/src/components/code-analysis.tsx:73 | The stored summary is a prefix of the summary text and contains no line feed. It is at most 100 characters long. It is the longest such prefix: it stops only at 100 characters, at the end of the text or before a `'\n'`. |
| CodeAnalysis.NewHistoryItem | chat-bot/src/components/code-analysis.tsx:70-77 | The new item carries the id, the analysed code, the results and the timestamp. Its summary is the summary line of the summary text: a line-feed-free prefix of at most 100 characters. Its conversation is empty. |
| CodeAnalysis.BeginAnalysis | chat-bot/src/components/code-analysis.tsx:62-65 | Before awaiting, loading is on, the results are cleared, the active id is null and the conversation is empty. Nothing else changes. |
| CodeAnalysis.FinishAnalysis | chat-bot/src/components/code-analysis.tsx:66-93 | A failure only stops loading. A success records the results. With a non-empty summary the history becomes exactly the line-78 insertion of the new item into the old history, and the new item is active. Without one the history and active id are kept. The code, conversation and follow-up fields never change. |
| CodeAnalysis.HandleAnalyze | chat-bot/src/components/code-analysis.tsx:53-94 | Blank code changes nothing and issues no request. Otherwise loading ends, the conversation is empty and the follow-up fields are kept. If the action rejects (the catch path) the results stay null, nothing is active and the history is unchanged. If it settles, the six requests go out and the results are the assembled record. The history is then the line-78 insertion of a new item with this code, which becomes active, iff the summary text is non-empty; otherwise the active id is null and the history is unchanged. |
| CodeAnalysis.HandleUseExample | chat-bot/src/components/code-analysis.tsx:96-101 | Loading the example sets the code to the factorial snippet, which is not blank. The analysis, active id and conversation are dropped, and every other field is unchanged. |
| CodeAnalysis.HandleSelectHistory | chat-bot/src/components/code-analysis.tsx:103-108 | Selecting an item restores its code and results and makes it active. Its conversation is restored, or an empty one when it has none. Every other field is unchanged. |
| CodeAnalysis.HandleClearHistory | chat-bot/src/components/code-analysis.tsx:110-117 | Clearing empties the history, code, results, conversation and active id. The loading flags and the typed question are kept. |
| CodeAnalysis.BeginFollowUp | chat-bot/src/components/code-analysis.tsx:122-126 | Before awaiting, the follow-up is loading, the question box is cleared and the pending exchange is appended. Every other field is unchanged. |
| CodeAnalysis.FinishFollowUp | chat-bot/src/components/code-analysis.tsx:128-153 | Loading always ends. On success the last entry takes the answer, and the active history item gets the answered conversation exactly when an active id is set. On failure the pending entry is dropped and the history is kept. No other field changes. |
| CodeAnalysis.HandleFollowUpSubmit | chat-bot/src/components/code-analysis.tsx:119-154 | Blank code or a blank question is a no-op with no request. Otherwise one request goes out and the question box is cleared. On success the conversation gains exactly `{question, answer}`. Only history items with the active id get the new conversation, and the history length is unchanged. On failure the conversation and the history are as before. |
| CodeAnalysis.TypeQuestion | chat-bot/src/components/analysis-results.tsx:250 | Typing replaces the follow-up question and changes nothing else. |
| CodeAnalysis.SubmitQuestion | chat-bot/src/components/analysis-results.tsx:99-103 | Submitting the form with a blank typed question does nothing. Otherwise it runs the follow-up handler on the typed question. |
| CodeAnalysis.SyncActive | chat-bot/src/components/code-analysis.tsx:156-165 | The effect changes the state iff the active id is set and `find` locates an item whose code differs from the editor's. It then clears the active id, results and conversation. |
| CodeAnalysis.EditCode | chat-bot/src/components/code-analysis.tsx:156-165 | Editing the code away from the active item's code clears the active id, results and conversation, and keeps the history, loading flags and question. Otherwise only the code changes. Afterwards the effect has nothing left to do. |
| CodeAnalysis.AnalyzeLeavesEffectIdle | chat-bot/src/components/code-analysis.tsx:156-165 | After an analysis the effect does nothing: the new active item is the one `find` returns, and its code is the editor's. |
| CodeAnalysis.FollowUpKeepsInvariant | chat-bot/src/components/code-analysis.tsx:136-142 | A follow-up keeps the history well-formed and keeps the effect idle. |
| CodeAnalysis.StepKeepsInvariant | chat-bot/src/components/code-analysis.tsx:53-165 | Every handler keeps the page invariant: distinct codes, at most 50 items, nothing pending for the effect. Selecting requires the item to be the one `find` returns for its id. |
| CodeAnalysis.RunKeepsInvariant | chat-bot/src/components/code-analysis.tsx:53-165 | The invariant holds along every sequence of allowed events. |
| CodeAnalysis.InitialInvariant | chat-bot/src/components/code-analysis.tsx:31-39 | The initial page state satisfies the invariant. |
| CodeAnalysis.SkeletonWhileAnalyzing | chat-bot/src/components/analysis-results.tsx:94 | While an analysis is awaited the skeleton shows. |
| CodeAnalysis.PanelsFollowOutcomes | chat-bot/src/components/analysis-results.tsx:115-187 | After an analysis, a section shows content iff its analyzer fulfilled with a non-empty output. A rejected analyzer's section shows the fallback naming that section. |
| CodeAnalysis.FailedAnalysisShowsEmptyState | chat-bot/src/components/code-analysis.tsx:84-92 | When the analysis action rejects, the page ends on the empty state with nothing active and the history unchanged. |
| CodeAnalysis.ThinkingOnlyForPending | chat-bot/src/components/analysis-results.tsx:231 | While the answer is awaited, exactly the pending last entry shows "Thinking...". Once the handler finishes, no entry does. |

## Left out

- The seven `ai/flows/*.ts` prompt and flow definitions: they are calls to an external language model with schema validation done by a library. Only their output shapes are kept, as `Flows` datatypes. Each call is an opaque settled outcome given as input.
- Concurrency of `Promise.allSettled`: the six outcomes are a given record, with no interleaving. The rejection reason of an analyzer is only logged, so it is carried but unused.
- `localStorage` and JSON persistence (code-analysis.tsx lines 41-51, 81, 116, 141): this is storage plumbing. The history loaded on mount is therefore not modelled. `Initial` is the state before that load. The invariant lemmas start from any state that satisfies the invariant.
- Id and timestamp generation (`new Date().toISOString()`, `Date.now()`): they are parameters of `HandleAnalyze`.
- Toasts, `console.error`, and React's scheduling of state updates. Each handler is one atomic transition, so the stale `history` closure read at lines 136-141 is not modelled.
- UTF-16 detail: a Dafny `char` is a Unicode scalar value, not a UTF-16 code unit, so lengths count code points.
- CodeAnalysis.SummaryLine: the cap counts 100 code points, while `substring(0, 100)` counts 100 UTF-16 code units. The two differ for text with characters outside the Basic Multilingual Plane: for a line of 60 emoji the page keeps 50, the model 60. The page can also cut a surrogate pair in half, which a Dafny string cannot represent.
- CodeAnalysis.HandleAnalyze: when the action rejects, the model records no outbound requests. Which analyzer calls went out before the failure cannot be seen from the page. The error message goes to a toast, which is not modelled.
- Rendering itself: markup, styling, Markdown, animation, the code editor, code blocks, badges and buttons, the layout, and the sidebar's `formatDistanceToNow` dates.
- `dev.ts`: it only loads environment variables and registers the flows.
- CodeAnalysis.StepKeepsInvariant: the selection event assumes the picked item is the one `find` returns for its id. Two history items with the same id but different codes would make the effect drop the selection at once; the lemma does not cover that case.
