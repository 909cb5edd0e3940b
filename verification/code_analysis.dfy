/**
 * The page state of `components/code-analysis.tsx` and its handlers, each
 * taken as one atomic transition. The asynchronous handlers are split at
 * their `await` into a begin half (what the user sees while waiting) and a
 * finish half; the composed handler takes the awaited call's outcome as an
 * input and returns the requests it issued. Ids and timestamps are inputs.
 * The follow-up text box is part of the state: typing replaces it, and a
 * submit sends what it holds through the form's blank guard.
 */
module CodeAnalysis {
  import opened Wrappers
  import opened Text
  import opened Flows
  import opened Actions
  import opened History
  import opened Conversation
  import opened AnalysisView

  /** The `useState` hooks of `CodeAnalysis`. */
  datatype State = State(
    code: string,
    results: Option<AnalysisResults>,
    isLoading: bool,
    history: seq<HistoryItem>,
    activeHistoryId: Option<string>,
    followUpQuestion: string,
    isFollowUpLoading: bool,
    conversation: seq<Exchange>)

  /** A transition together with the calls to the model service it made. */
  datatype Step = Step(state: State, requests: seq<Request>)

  /** The state before the stored history is loaded. */
  function Initial(): State {
    State("", None, false, [], None, "", false, [])
  }

  /** JavaScript truthiness of `activeHistoryId`: present and not the empty string. */
  predicate IsSet(id: Option<string>) {
    id.Some? && id.value != ""
  }

  /** The longest summary line a history item stores. */
  const MaxSummaryLength: nat := 100

  /** Line 73: the first line of the summary, cut to at most 100 characters. */
  function SummaryLine(text: string): (line: string)
    ensures |line| <= MaxSummaryLength && |line| <= |text|
    ensures line == text[..|line|]
    ensures '\n' !in line
    ensures |line| == MaxSummaryLength || |line| == |text| || text[|line|] == '\n'
  {
    Prefix(FirstLine(text), MaxSummaryLength)
  }

  /** Line 69: `res.summary?.summary` is truthy. */
  predicate HasSummaryText(res: AnalysisResults) {
    res.summary.Some? && res.summary.value.summary != ""
  }

  /** Lines 70-77: the history item recorded for a finished analysis. */
  function NewHistoryItem(code: string, res: AnalysisResults, id: string, timestamp: int): (item: HistoryItem)
    requires res.summary.Some?
    ensures item.id == id && item.code == code && item.results == res && item.timestamp == timestamp
    ensures item.summary == SummaryLine(res.summary.value.summary)
    ensures |item.summary| <= MaxSummaryLength && '\n' !in item.summary
    ensures item.summary == res.summary.value.summary[..|item.summary|]
    ensures item.conversation == Some([])
  {
    HistoryItem(id, code, SummaryLine(res.summary.value.summary), res, timestamp, Some([]))
  }

  /** Lines 62-65: what `handleAnalyze` sets before awaiting the analysis. */
  function BeginAnalysis(s: State): (r: State)
    ensures r.isLoading && r.results.None? && r.activeHistoryId.None? && r.conversation == []
    ensures r.(isLoading := s.isLoading, results := s.results, activeHistoryId := s.activeHistoryId,
               conversation := s.conversation) == s
  {
    s.(isLoading := true, results := None, activeHistoryId := None, conversation := [])
  }

  /** Lines 66-93: record the results, add a history entry when there is a summary, stop loading. */
  function FinishAnalysis(s: State, outcome: Result<AnalysisResults, Failure>, id: string, timestamp: int): (r: State)
    ensures !r.isLoading && r.code == s.code && r.conversation == s.conversation
    ensures r.followUpQuestion == s.followUpQuestion && r.isFollowUpLoading == s.isFollowUpLoading
    ensures outcome.Err? ==> r == s.(isLoading := false)
    ensures outcome.Ok? ==> r.results == Some(outcome.value)
    ensures outcome.Ok? && HasSummaryText(outcome.value) ==>
      && r.activeHistoryId == Some(id)
      && |r.history| > 0
      && r.history[0] == NewHistoryItem(s.code, outcome.value, id, timestamp)
      && r.history == UpdateHistory(NewHistoryItem(s.code, outcome.value, id, timestamp), s.history)
      && WellFormed(r.history)
      && IsSubsequence(r.history, [r.history[0]] + s.history)
    ensures outcome.Ok? && !HasSummaryText(outcome.value) ==>
      r.activeHistoryId == s.activeHistoryId && r.history == s.history
  {
    match outcome
    case Err(_) => s.(isLoading := false)
    case Ok(res) =>
      if HasSummaryText(res) then
        var item := NewHistoryItem(s.code, res, id, timestamp);
        s.(results := Some(res), history := UpdateHistory(item, s.history), activeHistoryId := Some(id),
           isLoading := false)
      else
        s.(results := Some(res), isLoading := false)
  }

  /**
   * `handleAnalyze`, with the settled server action as input: `Fulfilled`
   * carries the six analyzers' settled outcomes, `Rejected` is the action
   * itself failing (the catch at lines 84-90).
   */
  function HandleAnalyze(s: State, call: Settled<Outcomes>, id: string, timestamp: int): (r: Step)
    ensures IsBlank(s.code) ==> r == Step(s, [])
    ensures !IsBlank(s.code) ==>
      && !r.state.isLoading
      && r.state.conversation == []
      && r.state.code == s.code
      && r.state.followUpQuestion == s.followUpQuestion && r.state.isFollowUpLoading == s.isFollowUpLoading
    ensures !IsBlank(s.code) && call.Rejected? ==>
      && r.requests == []
      && r.state.results.None? && r.state.activeHistoryId.None? && r.state.history == s.history
    ensures !IsBlank(s.code) && call.Fulfilled? ==>
      && r.requests == AnalysisRequests(s.code)
      && r.state.results == Some(Assemble(call.value))
    ensures !IsBlank(s.code) && call.Fulfilled? && HasSummaryText(Assemble(call.value)) ==>
      && r.state.activeHistoryId == Some(id)
      && r.state.history == UpdateHistory(NewHistoryItem(s.code, Assemble(call.value), id, timestamp), s.history)
      && |r.state.history| > 0
      && r.state.history[0] == NewHistoryItem(s.code, Assemble(call.value), id, timestamp)
      && r.state.history[0].code == s.code
      && WellFormed(r.state.history)
      && IsSubsequence(r.state.history, [r.state.history[0]] + s.history)
    ensures !IsBlank(s.code) && call.Fulfilled? && !HasSummaryText(Assemble(call.value)) ==>
      r.state.activeHistoryId.None? && r.state.history == s.history
  {
    TrimEmptyIffBlank(s.code);
    if Trim(s.code) == [] then Step(s, [])
    else
      match call
      case Rejected(reason) =>
        Step(FinishAnalysis(BeginAnalysis(s), Err(FlowFailed(reason)), id, timestamp), [])
      case Fulfilled(outcomes) =>
        var action := AnalyzeCode(s.code, outcomes);
        assert action.result == Ok(Assemble(outcomes));
        Step(FinishAnalysis(BeginAnalysis(s), action.result, id, timestamp), action.requests)
  }

  /** The factorial snippet `handleUseExample` loads. */
  const ExampleCode: string :=
    "function factorial(n) {\n"
    + "  if (n < 0) {\n"
    + "    return \"Number must be non-negative.\";\n"
    + "  }\n"
    + "  if (n === 0 || n === 1) {\n"
    + "    return 1;\n"
    + "  }\n"
    + "  let result = 1;\n"
    + "  for (let i = 2; i <= n; i++) {\n"
    + "    result *= i;\n"
    + "  }\n"
    + "  return result;\n"
    + "}"

  /** Lines 96-101: load the example and drop the current analysis. */
  function HandleUseExample(s: State): (r: State)
    ensures r.code == ExampleCode && !IsBlank(r.code)
    ensures r.results.None? && r.activeHistoryId.None? && r.conversation == []
    ensures r.(code := s.code, results := s.results, activeHistoryId := s.activeHistoryId,
               conversation := s.conversation) == s
  {
    assert ExampleCode[0] == 'f';
    s.(code := ExampleCode, results := None, activeHistoryId := None, conversation := [])
  }

  /** Lines 103-108: reopen a past analysis with its conversation. */
  function HandleSelectHistory(s: State, item: HistoryItem): (r: State)
    ensures r.code == item.code && r.results == Some(item.results) && r.activeHistoryId == Some(item.id)
    ensures item.conversation.None? ==> r.conversation == []
    ensures item.conversation.Some? ==> r.conversation == item.conversation.value
    ensures r.(code := s.code, results := s.results, activeHistoryId := s.activeHistoryId,
               conversation := s.conversation) == s
  {
    s.(code := item.code, results := Some(item.results), activeHistoryId := Some(item.id),
       conversation := item.conversation.GetOr([]))
  }

  /** Lines 110-117: forget the history and the current analysis. */
  function HandleClearHistory(s: State): (r: State)
    ensures r.history == [] && r.activeHistoryId.None? && r.code == "" && r.results.None? && r.conversation == []
    ensures r.isLoading == s.isLoading && r.isFollowUpLoading == s.isFollowUpLoading
    ensures r.followUpQuestion == s.followUpQuestion
  {
    s.(history := [], activeHistoryId := None, code := "", results := None, conversation := [])
  }

  /** Lines 122-126: what `handleFollowUpSubmit` sets before awaiting the answer. */
  function BeginFollowUp(s: State, question: string): (r: State)
    ensures r.isFollowUpLoading && r.followUpQuestion == ""
    ensures r.conversation == AppendPending(s.conversation, question)
    ensures r.(isFollowUpLoading := s.isFollowUpLoading, followUpQuestion := s.followUpQuestion,
               conversation := s.conversation) == s
  {
    s.(isFollowUpLoading := true, followUpQuestion := "", conversation := AppendPending(s.conversation, question))
  }

  /** Lines 128-153: fill in the answer (and the active history item), or roll back. */
  function FinishFollowUp(s: State, outcome: Result<AskFollowUpOutput, Failure>): (r: State)
    ensures !r.isFollowUpLoading
    ensures outcome.Ok? ==> r.conversation == FillLastAnswer(s.conversation, outcome.value.answer)
    ensures outcome.Ok? && IsSet(s.activeHistoryId) ==>
      r.history == ReplaceConversation(s.history, s.activeHistoryId.value, r.conversation)
    ensures outcome.Ok? && !IsSet(s.activeHistoryId) ==> r.history == s.history
    ensures outcome.Err? ==> r.conversation == DropLast(s.conversation) && r.history == s.history
    ensures r.(isFollowUpLoading := s.isFollowUpLoading, conversation := s.conversation, history := s.history) == s
  {
    match outcome
    case Ok(res) =>
      var answered := FillLastAnswer(s.conversation, res.answer);
      var history := if IsSet(s.activeHistoryId) then ReplaceConversation(s.history, s.activeHistoryId.value, answered)
                     else s.history;
      s.(conversation := answered, history := history, isFollowUpLoading := false)
    case Err(_) =>
      s.(conversation := DropLast(s.conversation), isFollowUpLoading := false)
  }

  /** `handleFollowUpSubmit`, with the settled `askFollowUp` outcome as input. */
  function HandleFollowUpSubmit(s: State, question: string, answer: Settled<AskFollowUpOutput>): (r: Step)
    ensures IsBlank(s.code) || IsBlank(question) ==> r == Step(s, [])
    ensures !IsBlank(s.code) && !IsBlank(question) ==>
      && r.requests == [AskFollowUp(s.code, question)]
      && r.state.followUpQuestion == "" && !r.state.isFollowUpLoading
      && r.state.code == s.code && r.state.results == s.results && r.state.activeHistoryId == s.activeHistoryId
      && r.state.isLoading == s.isLoading
      && |r.state.history| == |s.history|
    ensures !IsBlank(s.code) && !IsBlank(question) && answer.Fulfilled? ==>
      && r.state.conversation == s.conversation + [Exchange(question, answer.value.answer)]
      && (forall k | 0 <= k < |s.history| ::
            !(IsSet(s.activeHistoryId) && s.history[k].id == s.activeHistoryId.value) ==> r.state.history[k] == s.history[k])
      && (forall k | 0 <= k < |s.history| ::
            IsSet(s.activeHistoryId) && s.history[k].id == s.activeHistoryId.value ==>
              r.state.history[k] == s.history[k].(conversation := Some(r.state.conversation)))
    ensures !IsBlank(s.code) && !IsBlank(question) && answer.Rejected? ==>
      r.state.conversation == s.conversation && r.state.history == s.history
  {
    TrimEmptyIffBlank(s.code);
    TrimEmptyIffBlank(question);
    if Trim(s.code) == [] || Trim(question) == [] then Step(s, [])
    else
      var begun := BeginFollowUp(s, question);
      var call := AskFollowUpQuestion(s.code, question, answer);
      AnswerCompletesPending(s.conversation, question, if answer.Fulfilled? then answer.value.answer else "");
      RollbackRestores(s.conversation, question);
      Step(FinishFollowUp(begun, call.result), call.requests)
  }

  /**
   * The effect of lines 156-165 has nothing to do: no active id is set, `find`
   * does not locate the active item, or the located item's code is the editor's.
   */
  predicate EffectIdle(s: State) {
    IsSet(s.activeHistoryId) ==>
      var found := FindById(s.history, s.activeHistoryId.value);
      found.None? || found.value.code == s.code
  }

  /** Lines 156-165: the effect that drops the active analysis once the code no longer matches it. */
  function SyncActive(s: State): (r: State)
    ensures r.code == s.code && r.history == s.history && r.isLoading == s.isLoading
    ensures r.followUpQuestion == s.followUpQuestion && r.isFollowUpLoading == s.isFollowUpLoading
    ensures r == s <==> EffectIdle(s)
    ensures r != s ==> r.activeHistoryId.None? && r.results.None? && r.conversation == []
    ensures EffectIdle(r)
  {
    if IsSet(s.activeHistoryId) then
      match FindById(s.history, s.activeHistoryId.value)
      case Some(item) =>
        if item.code != s.code then
          var r := s.(activeHistoryId := None, results := None, conversation := []);
          assert r.activeHistoryId != s.activeHistoryId;
          r
        else s
      case None => s
    else s
  }

  /** Editing the code, followed by the effect it triggers. */
  function EditCode(s: State, code: string): (r: State)
    ensures r.code == code && r.history == s.history
    ensures IsSet(s.activeHistoryId) && FindById(s.history, s.activeHistoryId.value).Some?
            && FindById(s.history, s.activeHistoryId.value).value.code != code ==>
              r.activeHistoryId.None? && r.results.None? && r.conversation == []
    ensures r.isLoading == s.isLoading && r.followUpQuestion == s.followUpQuestion
    ensures r.isFollowUpLoading == s.isFollowUpLoading
    ensures !IsSet(s.activeHistoryId) || FindById(s.history, s.activeHistoryId.value).None?
            || FindById(s.history, s.activeHistoryId.value).value.code == code ==>
              r == s.(code := code)
    ensures EffectIdle(r)
  {
    SyncActive(s.(code := code))
  }

  /** Line 250: typing replaces the follow-up question; nothing else changes. */
  function TypeQuestion(s: State, text: string): (r: State)
    ensures r.followUpQuestion == text
    ensures r.(followUpQuestion := s.followUpQuestion) == s
  {
    s.(followUpQuestion := text)
  }

  /** Lines 99-103 and 119-154: the form submits the typed question unless it is blank. */
  function SubmitQuestion(s: State, answer: Settled<AskFollowUpOutput>): (r: Step)
    ensures IsBlank(s.followUpQuestion) ==> r == Step(s, [])
    ensures !IsBlank(s.followUpQuestion) ==> r == HandleFollowUpSubmit(s, s.followUpQuestion, answer)
  {
    match FormSubmit(s.followUpQuestion)
    case None => Step(s, [])
    case Some(question) => HandleFollowUpSubmit(s, question, answer)
  }

  /** The page invariant: a well-formed history and nothing pending for the effect. */
  predicate Invariant(s: State) {
    WellFormed(s.history) && EffectIdle(s)
  }

  /** Everything the user can do on the page. */
  datatype Event =
    | Analyze(call: Settled<Outcomes>, id: string, timestamp: int)
    | UseExample
    | SelectHistory(item: HistoryItem)
    | ClearHistory
    | EditQuestion(text: string)
    | FollowUp(answer: Settled<AskFollowUpOutput>)
    | Edit(code: string)

  /** The sidebar only offers items of the history, and `find` locates an item by its id. */
  predicate Allowed(s: State, e: Event) {
    e.SelectHistory? ==> FindById(s.history, e.item.id) == Some(e.item)
  }

  function Apply(s: State, e: Event): Step {
    match e
    case Analyze(call, id, timestamp) => HandleAnalyze(s, call, id, timestamp)
    case UseExample => Step(HandleUseExample(s), [])
    case SelectHistory(item) => Step(HandleSelectHistory(s, item), [])
    case ClearHistory => Step(HandleClearHistory(s), [])
    case EditQuestion(text) => Step(TypeQuestion(s, text), [])
    case FollowUp(answer) => SubmitQuestion(s, answer)
    case Edit(code) => Step(EditCode(s, code), [])
  }

  /** An analysis leaves nothing for the effect: the new item is what `find` returns for the active id. */
  lemma AnalyzeLeavesEffectIdle(s: State, call: Settled<Outcomes>, id: string, timestamp: int)
    requires EffectIdle(s)
    ensures EffectIdle(HandleAnalyze(s, call, id, timestamp).state)
  {
    var r := HandleAnalyze(s, call, id, timestamp).state;
    if !IsBlank(s.code) && call.Fulfilled? && HasSummaryText(Assemble(call.value)) {
      assert r.history[0].id == id;
      assert FindById(r.history, id) == Some(r.history[0]);
    }
  }

  /** A follow-up keeps every code and id, so it keeps the effect idle. */
  lemma FollowUpKeepsInvariant(s: State, question: string, answer: Settled<AskFollowUpOutput>)
    requires Invariant(s)
    ensures Invariant(HandleFollowUpSubmit(s, question, answer).state)
  {
    var r := HandleFollowUpSubmit(s, question, answer).state;
    if !IsBlank(s.code) && !IsBlank(question) && answer.Fulfilled? && IsSet(s.activeHistoryId) {
      var id := s.activeHistoryId.value;
      var answered := FillLastAnswer(AppendPending(s.conversation, question), answer.value.answer);
      assert r.history == ReplaceConversation(s.history, id, answered);
      ReplaceConversationKeepsCodes(s.history, id, answered);
      ReplaceConversationKeepsLookup(s.history, id, answered, id);
    }
  }

  /** Every allowed event keeps the page invariant. */
  lemma StepKeepsInvariant(s: State, e: Event)
    requires Invariant(s) && Allowed(s, e)
    ensures Invariant(Apply(s, e).state)
  {
    match e
    case Analyze(call, id, timestamp) => AnalyzeLeavesEffectIdle(s, call, id, timestamp);
    case UseExample =>
    case SelectHistory(item) =>
    case ClearHistory =>
    case EditQuestion(text) =>
    case FollowUp(answer) => FollowUpKeepsInvariant(s, s.followUpQuestion, answer);
    case Edit(code) =>
  }

  /** Every event of the sequence is allowed in the state it meets. */
  predicate AllAllowed(s: State, events: seq<Event>)
    decreases |events|
  {
    events == [] || (Allowed(s, events[0]) && AllAllowed(Apply(s, events[0]).state, events[1..]))
  }

  /** The state after a sequence of events. */
  function Run(s: State, events: seq<Event>): State
    decreases |events|
  {
    if events == [] then s else Run(Apply(s, events[0]).state, events[1..])
  }

  /** The invariant holds initially and along every run of allowed events. */
  lemma {:induction false} RunKeepsInvariant(s: State, events: seq<Event>)
    requires Invariant(s) && AllAllowed(s, events)
    ensures Invariant(Run(s, events))
    decreases |events|
  {
    if events != [] {
      StepKeepsInvariant(s, events[0]);
      RunKeepsInvariant(Apply(s, events[0]).state, events[1..]);
    }
  }

  lemma InitialInvariant()
    ensures Invariant(Initial())
  {
  }

  /** While an analysis is awaited the skeleton shows, whatever was on screen before. */
  lemma SkeletonWhileAnalyzing(s: State)
    ensures Render(BeginAnalysis(s).isLoading, BeginAnalysis(s).results) == Skeleton
  {
  }

  /**
   * After an analysis a section shows content iff its analyzer fulfilled with a
   * non-empty output, and a rejected analyzer's section names itself in the fallback.
   */
  lemma PanelsFollowOutcomes(s: State, outcomes: Outcomes, id: string, timestamp: int, k: nat)
    requires !IsBlank(s.code) && k < |Sections|
    ensures
      var after := HandleAnalyze(s, Fulfilled(outcomes), id, timestamp).state;
      var screen := Render(after.isLoading, after.results);
      var outcome := OutcomeOf(outcomes, AnalyzerOf(SlotOfSection(Sections[k])));
      && screen.Complete?
      && (screen.panels[k].Insight? ==> outcome.Fulfilled?)
      && (screen.panels[k].Insight? <==> outcome.Fulfilled? && ItemCount(outcome.value) > 0)
      && (outcome.Rejected? ==> screen.panels[k] == Fallback(FallbackPrefix + Title(Sections[k])))
  {
    var after := HandleAnalyze(s, Fulfilled(outcomes), id, timestamp).state;
    assert !after.isLoading && after.results == Some(Assemble(outcomes));
  }

  /** A failed analysis ends on the empty state: no results, no active item, the history as it was. */
  lemma FailedAnalysisShowsEmptyState(s: State, reason: string, id: string, timestamp: int)
    requires !IsBlank(s.code)
    ensures
      var r := HandleAnalyze(s, Rejected(reason), id, timestamp);
      && Render(r.state.isLoading, r.state.results) == EmptyState
      && r.state.history == s.history && r.state.activeHistoryId.None?
  {
  }

  /** While an answer is awaited exactly the pending last entry shows "Thinking..."; afterwards none does. */
  lemma ThinkingOnlyForPending(s: State, question: string, answer: Settled<AskFollowUpOutput>)
    requires !IsBlank(s.code) && !IsBlank(question)
    ensures
      var waiting := BeginFollowUp(s, question);
      && ShowsThinking(waiting.isFollowUpLoading, waiting.conversation, |waiting.conversation| - 1)
      && forall k | 0 <= k < |waiting.conversation| - 1 :: !ShowsThinking(waiting.isFollowUpLoading, waiting.conversation, k)
    ensures
      var done := HandleFollowUpSubmit(s, question, answer).state;
      forall k | 0 <= k < |done.conversation| :: !ShowsThinking(done.isFollowUpLoading, done.conversation, k)
  {
  }
}
