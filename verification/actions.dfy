/**
 * The two server actions of `app/actions.ts`.
 *
 * `analyzeCode` rejects blank code, otherwise fans out to the six analyzers
 * and joins them settle-all: every analyzer runs to a terminal state and a
 * rejection only empties its own slot. The analyzers themselves are opaque;
 * their settled outcomes are an input of the model, and the requests the
 * action issues are part of its result so that "no analyzer is invoked" can
 * be stated.
 */
module Actions {
  import opened Wrappers
  import opened Text
  import opened Flows

  /** A settled promise: `PromiseSettledResult<T>`. */
  datatype Settled<+T> = Fulfilled(value: T) | Rejected(reason: string)

  /** The settled outcomes of the six analyzers for one invocation. */
  datatype Outcomes = Outcomes(
    summarizeCode: Settled<SummarizeCodeOutput>,
    explainCode: Settled<ExplainCodeOutput>,
    analyzeComplexity: Settled<AnalyzeComplexityOutput>,
    suggestAlternatives: Settled<SuggestAlternativesOutput>,
    suggestPracticeProblems: Settled<SuggestPracticeProblemsOutput>,
    identifyTopics: Settled<IdentifyTopicsOutput>)

  /** `AnalysisResults`: six slots, each the analyzer's output or null. */
  datatype AnalysisResults = AnalysisResults(
    summary: Option<SummarizeCodeOutput>,
    explanation: Option<ExplainCodeOutput>,
    complexity: Option<AnalyzeComplexityOutput>,
    alternatives: Option<SuggestAlternativesOutput>,
    problems: Option<SuggestPracticeProblemsOutput>,
    topics: Option<IdentifyTopicsOutput>)

  /** Why an action threw. */
  datatype Failure = InvalidInput(message: string) | FlowFailed(reason: string)

  /** What an action returns (or throws) together with the requests it issued. */
  datatype Call<+T> = Call(result: Result<T, Failure>, requests: seq<Request>)

  const EmptyCodeMessage: string := "Code input cannot be empty."
  const EmptyContextMessage: string := "Code context cannot be empty."
  const EmptyQuestionMessage: string := "Question cannot be empty."

  /** The six named slots of an `AnalysisResults` record. */
  datatype Slot = SummarySlot | ExplanationSlot | ComplexitySlot | AlternativesSlot | ProblemsSlot | TopicsSlot

  /** Any one analyzer output, so that slots can be compared uniformly. */
  datatype Insight =
    | SummaryInsight(summary: SummarizeCodeOutput)
    | ExplanationInsight(explanation: ExplainCodeOutput)
    | ComplexityInsight(complexity: AnalyzeComplexityOutput)
    | AlternativesInsight(alternatives: SuggestAlternativesOutput)
    | ProblemsInsight(problems: SuggestPracticeProblemsOutput)
    | TopicsInsight(topics: IdentifyTopicsOutput)

  /** How many entries an output lists; the summary and the complexity report are one entry each. */
  function ItemCount(i: Insight): nat {
    match i
    case SummaryInsight(_) => 1
    case ExplanationInsight(e) => |e.explanation|
    case ComplexityInsight(_) => 1
    case AlternativesInsight(a) => |a.alternatives|
    case ProblemsInsight(p) => |p.problems|
    case TopicsInsight(t) => |t.topics|
  }

  /** The analyzer whose outcome feeds each slot. */
  function AnalyzerOf(slot: Slot): Analyzer {
    match slot
    case SummarySlot => SummarizeCode
    case ExplanationSlot => ExplainCode
    case ComplexitySlot => AnalyzeComplexity
    case AlternativesSlot => SuggestAlternatives
    case ProblemsSlot => SuggestPracticeProblems
    case TopicsSlot => IdentifyTopics
  }

  /** The slot each analyzer feeds: the inverse of `AnalyzerOf`. */
  function SlotOf(a: Analyzer): Slot {
    match a
    case SummarizeCode => SummarySlot
    case ExplainCode => ExplanationSlot
    case AnalyzeComplexity => ComplexitySlot
    case SuggestAlternatives => AlternativesSlot
    case SuggestPracticeProblems => ProblemsSlot
    case IdentifyTopics => TopicsSlot
  }

  /** The slot-to-analyzer mapping is a bijection: no analyzer feeds two slots and none is unused. */
  lemma AnalyzerOfBijective()
    ensures forall s: Slot :: SlotOf(AnalyzerOf(s)) == s
    ensures forall a: Analyzer :: AnalyzerOf(SlotOf(a)) == a
  {
  }

  function Wrap<T>(s: Settled<T>, inject: T -> Insight): Settled<Insight> {
    match s
    case Fulfilled(v) => Fulfilled(inject(v))
    case Rejected(e) => Rejected(e)
  }

  function WrapOption<T>(o: Option<T>, inject: T -> Insight): Option<Insight> {
    match o
    case Some(v) => Some(inject(v))
    case None => None
  }

  /** The settled outcome of one analyzer, as an `Insight`. */
  function OutcomeOf(o: Outcomes, a: Analyzer): Settled<Insight> {
    match a
    case SummarizeCode => Wrap(o.summarizeCode, v => SummaryInsight(v))
    case ExplainCode => Wrap(o.explainCode, v => ExplanationInsight(v))
    case AnalyzeComplexity => Wrap(o.analyzeComplexity, v => ComplexityInsight(v))
    case SuggestAlternatives => Wrap(o.suggestAlternatives, v => AlternativesInsight(v))
    case SuggestPracticeProblems => Wrap(o.suggestPracticeProblems, v => ProblemsInsight(v))
    case IdentifyTopics => Wrap(o.identifyTopics, v => TopicsInsight(v))
  }

  /** The content of one slot, as an `Insight`. */
  function SlotAt(r: AnalysisResults, slot: Slot): Option<Insight> {
    match slot
    case SummarySlot => WrapOption(r.summary, v => SummaryInsight(v))
    case ExplanationSlot => WrapOption(r.explanation, v => ExplanationInsight(v))
    case ComplexitySlot => WrapOption(r.complexity, v => ComplexityInsight(v))
    case AlternativesSlot => WrapOption(r.alternatives, v => AlternativesInsight(v))
    case ProblemsSlot => WrapOption(r.problems, v => ProblemsInsight(v))
    case TopicsSlot => WrapOption(r.topics, v => TopicsInsight(v))
  }

  function Ind(b: bool): nat { if b then 1 else 0 }

  /** How many of the six analyzers fulfilled. */
  function FulfilledCount(o: Outcomes): nat {
    Ind(o.summarizeCode.Fulfilled?) + Ind(o.explainCode.Fulfilled?) + Ind(o.analyzeComplexity.Fulfilled?)
    + Ind(o.suggestAlternatives.Fulfilled?) + Ind(o.suggestPracticeProblems.Fulfilled?) + Ind(o.identifyTopics.Fulfilled?)
  }

  /** How many of the six slots hold a value. */
  function PopulatedCount(r: AnalysisResults): nat {
    Ind(r.summary.Some?) + Ind(r.explanation.Some?) + Ind(r.complexity.Some?)
    + Ind(r.alternatives.Some?) + Ind(r.problems.Some?) + Ind(r.topics.Some?)
  }

  /** `getValue`: the fulfilled value, or null for a rejection. */
  function GetValue<T>(s: Settled<T>): (r: Option<T>)
    ensures r.Some? <==> s.Fulfilled?
    ensures r.Some? ==> r.value == s.value
  {
    match s
    case Fulfilled(v) => Some(v)
    case Rejected(_) => None
  }

  /** The result record assembled after the settle-all join. */
  function Assemble(o: Outcomes): (r: AnalysisResults)
    ensures forall slot: Slot :: SlotAt(r, slot).Some? <==> OutcomeOf(o, AnalyzerOf(slot)).Fulfilled?
    ensures forall slot: Slot :: SlotAt(r, slot).Some? ==> SlotAt(r, slot).value == OutcomeOf(o, AnalyzerOf(slot)).value
    ensures PopulatedCount(r) == FulfilledCount(o)
  {
    AnalysisResults(
      summary := GetValue(o.summarizeCode),
      explanation := GetValue(o.explainCode),
      complexity := GetValue(o.analyzeComplexity),
      alternatives := GetValue(o.suggestAlternatives),
      problems := GetValue(o.suggestPracticeProblems),
      topics := GetValue(o.identifyTopics))
  }

  /** A slot's content depends on its own analyzer's outcome and on nothing else. */
  lemma SlotDependsOnlyOnItsAnalyzer(o1: Outcomes, o2: Outcomes, slot: Slot)
    requires OutcomeOf(o1, AnalyzerOf(slot)) == OutcomeOf(o2, AnalyzerOf(slot))
    ensures SlotAt(Assemble(o1), slot) == SlotAt(Assemble(o2), slot)
  {
    var r1, r2 := Assemble(o1), Assemble(o2);
    if SlotAt(r1, slot).Some? {
      assert SlotAt(r1, slot).value == OutcomeOf(o1, AnalyzerOf(slot)).value;
    }
  }

  /** `analyzeCode`: blank check, fan-out to six analyzers, settle-all assembly. */
  function AnalyzeCode(code: string, outcomes: Outcomes): (r: Call<AnalysisResults>)
    ensures r.result.Err? <==> IsBlank(code)
    ensures IsBlank(code) ==> r.result == Err(InvalidInput(EmptyCodeMessage)) && r.requests == []
    ensures !IsBlank(code) ==> r.requests == AnalysisRequests(code)
    ensures r.result.Ok? ==> forall slot: Slot ::
      SlotAt(r.result.value, slot) == GetValue(OutcomeOf(outcomes, AnalyzerOf(slot)))
    ensures r.result.Ok? ==> PopulatedCount(r.result.value) == FulfilledCount(outcomes)
  {
    TrimEmptyIffBlank(code);
    if Trim(code) == [] then Call(Err(InvalidInput(EmptyCodeMessage)), [])
    else
      var results := Assemble(outcomes);
      assert forall slot: Slot :: SlotAt(results, slot) == GetValue(OutcomeOf(outcomes, AnalyzerOf(slot))) by {
        forall slot: Slot ensures SlotAt(results, slot) == GetValue(OutcomeOf(outcomes, AnalyzerOf(slot))) {
          if SlotAt(results, slot).Some? {
            assert SlotAt(results, slot).value == OutcomeOf(outcomes, AnalyzerOf(slot)).value;
          }
        }
      }
      Call(Ok(results), AnalysisRequests(code))
  }

  /** With every analyzer fulfilled, all six slots are populated. */
  lemma AllFulfilledAllPopulated(code: string, o: Outcomes)
    requires !IsBlank(code)
    requires forall a: Analyzer :: OutcomeOf(o, a).Fulfilled?
    ensures AnalyzeCode(code, o).result.Ok?
    ensures PopulatedCount(AnalyzeCode(code, o).result.value) == 6
    ensures forall slot: Slot :: SlotAt(AnalyzeCode(code, o).result.value, slot).Some?
  {
    assert OutcomeOf(o, SummarizeCode).Fulfilled? && OutcomeOf(o, ExplainCode).Fulfilled?;
    assert OutcomeOf(o, AnalyzeComplexity).Fulfilled? && OutcomeOf(o, SuggestAlternatives).Fulfilled?;
    assert OutcomeOf(o, SuggestPracticeProblems).Fulfilled? && OutcomeOf(o, IdentifyTopics).Fulfilled?;
  }

  /** With exactly one analyzer rejected, the call still succeeds and five slots are populated. */
  lemma OneRejectedFivePopulated(code: string, o: Outcomes, failed: Analyzer, slot: Slot)
    requires !IsBlank(code)
    requires OutcomeOf(o, failed).Rejected?
    requires forall a: Analyzer :: a != failed ==> OutcomeOf(o, a).Fulfilled?
    requires AnalyzerOf(slot) == failed
    ensures AnalyzeCode(code, o).result.Ok?
    ensures PopulatedCount(AnalyzeCode(code, o).result.value) == 5
    ensures SlotAt(AnalyzeCode(code, o).result.value, slot).None?
    ensures forall other: Slot :: other != slot ==> SlotAt(AnalyzeCode(code, o).result.value, other).Some?
  {
    AnalyzerOfBijective();
    var summary, explanation, complexity := OutcomeOf(o, SummarizeCode), OutcomeOf(o, ExplainCode), OutcomeOf(o, AnalyzeComplexity);
    var alternatives, problems, topics := OutcomeOf(o, SuggestAlternatives), OutcomeOf(o, SuggestPracticeProblems), OutcomeOf(o, IdentifyTopics);
    assert FulfilledCount(o) == 5;
  }

  /** `askFollowUpQuestion`: two ordered precondition checks, then `askFollowUp` unchanged. */
  function AskFollowUpQuestion(code: string, question: string, answer: Settled<AskFollowUpOutput>): (r: Call<AskFollowUpOutput>)
    ensures IsBlank(code) ==> r == Call(Err(InvalidInput(EmptyContextMessage)), [])
    ensures !IsBlank(code) && IsBlank(question) ==> r == Call(Err(InvalidInput(EmptyQuestionMessage)), [])
    ensures r.requests == [] <==> IsBlank(code) || IsBlank(question)
    ensures !IsBlank(code) && !IsBlank(question) ==>
      && r.requests == [AskFollowUp(code, question)]
      && (answer.Fulfilled? ==> r.result == Ok(answer.value))
      && (answer.Rejected? ==> r.result == Err(FlowFailed(answer.reason)))
  {
    TrimEmptyIffBlank(code);
    TrimEmptyIffBlank(question);
    if Trim(code) == [] then Call(Err(InvalidInput(EmptyContextMessage)), [])
    else if Trim(question) == [] then Call(Err(InvalidInput(EmptyQuestionMessage)), [])
    else
      var result := match answer
        case Fulfilled(v) => Ok(v)
        case Rejected(e) => Err(FlowFailed(e));
      Call(result, [AskFollowUp(code, question)])
  }
}
