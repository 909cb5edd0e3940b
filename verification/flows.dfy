/**
 * The output shapes of the seven model-backed flows under `ai/flows/`, the
 * analyzers that produce them, and the outbound requests the application
 * issues. What a flow computes is opaque: only its result shape is kept.
 */
module Flows {

  /** summarizeCode: a concise summary. */
  datatype SummarizeCodeOutput = SummarizeCodeOutput(summary: string)

  /** One chunk of the line-by-line walkthrough. */
  datatype ExplanationChunk = ExplanationChunk(lines: string, code: string, explanation: string)

  /** explainCode: the chunk-by-chunk explanation, in order. */
  datatype ExplainCodeOutput = ExplainCodeOutput(explanation: seq<ExplanationChunk>)

  /** analyzeComplexity: time and space complexity with a justification. */
  datatype AnalyzeComplexityOutput =
    AnalyzeComplexityOutput(timeComplexity: string, spaceComplexity: string, justification: string)

  /** One alternative approach. */
  datatype Alternative = Alternative(
    approach: string,
    codeSnippet: string,
    explanation: string,
    pros: string,
    cons: string,
    timeComplexity: string,
    spaceComplexity: string)

  /** suggestAlternatives: the alternative approaches, in order. */
  datatype SuggestAlternativesOutput = SuggestAlternativesOutput(alternatives: seq<Alternative>)

  /** One practice problem with its link. */
  datatype PracticeProblem = PracticeProblem(title: string, link: string)

  /** suggestPracticeProblems: the practice problems, in order. */
  datatype SuggestPracticeProblemsOutput = SuggestPracticeProblemsOutput(problems: seq<PracticeProblem>)

  /** identifyTopics: the topic labels. */
  datatype IdentifyTopicsOutput = IdentifyTopicsOutput(topics: seq<string>)

  /** askFollowUp: the answer to one follow-up question. */
  datatype AskFollowUpOutput = AskFollowUpOutput(answer: string)

  /** The six analyzers `analyzeCode` fans out to. */
  datatype Analyzer =
    | SummarizeCode
    | ExplainCode
    | AnalyzeComplexity
    | SuggestAlternatives
    | SuggestPracticeProblems
    | IdentifyTopics

  /** The order in which `analyzeCode` dispatches the analyzers. */
  const Analyzers: seq<Analyzer> :=
    [SummarizeCode, ExplainCode, AnalyzeComplexity, SuggestAlternatives, SuggestPracticeProblems, IdentifyTopics]

  /** One outbound call to the language-model service. */
  datatype Request =
    | Analyze(analyzer: Analyzer, code: string)
    | AskFollowUp(code: string, question: string)

  /** The six analysis requests for one code snippet, in dispatch order. */
  function AnalysisRequests(code: string): (r: seq<Request>)
    ensures |r| == |Analyzers|
    ensures forall k | 0 <= k < |r| :: r[k] == Analyze(Analyzers[k], code)
    ensures forall a: Analyzer :: Analyze(a, code) in r
  {
    var r := seq(|Analyzers|, k requires 0 <= k < |Analyzers| => Analyze(Analyzers[k], code));
    AnalyzersDistinct();
    assert forall a: Analyzer :: Analyze(a, code) in r by {
      forall a: Analyzer ensures Analyze(a, code) in r {
        assert r[DispatchIndex(a)] == Analyze(a, code);
      }
    }
    r
  }

  /** Each analyzer appears exactly once in the dispatch order. */
  lemma AnalyzersDistinct()
    ensures forall i, j | 0 <= i < j < |Analyzers| :: Analyzers[i] != Analyzers[j]
    ensures forall a: Analyzer :: a in Analyzers
  {
    forall a: Analyzer ensures a in Analyzers {
      assert Analyzers[DispatchIndex(a)] == a;
    }
  }

  /** The position of each analyzer in the dispatch order. */
  function DispatchIndex(a: Analyzer): (k: nat)
    ensures k < |Analyzers| && Analyzers[k] == a
  {
    match a
    case SummarizeCode => 0
    case ExplainCode => 1
    case AnalyzeComplexity => 2
    case SuggestAlternatives => 3
    case SuggestPracticeProblems => 4
    case IdentifyTopics => 5
  }
}
