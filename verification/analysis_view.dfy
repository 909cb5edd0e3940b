/**
 * The decisions `components/analysis-results.tsx` makes before anything is
 * drawn: which screen shows, which of the six sections render content and
 * which render the fallback, which section opens first, when a follow-up
 * question is submitted, when the send button is disabled and where the
 * "Thinking..." placeholder goes. Markup, styling and Markdown are not modelled.
 */
module AnalysisView {
  import opened Wrappers
  import opened Text
  import opened Flows
  import opened Actions
  import opened History

  /** The six result sections, in the order they are rendered. */
  datatype Section = CodeSummary | LineByLine | ComplexityAnalysis | AlternativeApproaches | PracticeProblems | TopicsCovered

  const Sections: seq<Section> :=
    [CodeSummary, LineByLine, ComplexityAnalysis, AlternativeApproaches, PracticeProblems, TopicsCovered]

  /** The section title, which is also its accordion value. */
  function Title(sec: Section): string {
    match sec
    case CodeSummary => "Code Summary"
    case LineByLine => "Line-by-Line Explanation"
    case ComplexityAnalysis => "Complexity Analysis"
    case AlternativeApproaches => "Alternative Approaches"
    case PracticeProblems => "Practice Problems"
    case TopicsCovered => "Topics Covered"
  }

  /** The result slot each section reads. */
  function SlotOfSection(sec: Section): Slot {
    match sec
    case CodeSummary => SummarySlot
    case LineByLine => ExplanationSlot
    case ComplexityAnalysis => ComplexitySlot
    case AlternativeApproaches => AlternativesSlot
    case PracticeProblems => ProblemsSlot
    case TopicsCovered => TopicsSlot
  }

  /**
   * The `hasData` flag passed to each `ResultSection`. A section with data always
   * reads a populated slot; for summary and complexity the converse holds too,
   * while the four list sections also need a non-empty list.
   */
  function HasData(r: AnalysisResults, sec: Section): (b: bool)
    ensures b ==> SlotAt(r, SlotOfSection(sec)).Some?
    ensures sec == CodeSummary || sec == ComplexityAnalysis ==> (b <==> SlotAt(r, SlotOfSection(sec)).Some?)
    ensures b <==> SlotAt(r, SlotOfSection(sec)).Some? && ItemCount(SlotAt(r, SlotOfSection(sec)).value) > 0
  {
    match sec
    case CodeSummary => r.summary.Some?
    case LineByLine => r.explanation.Some? && |r.explanation.value.explanation| > 0
    case ComplexityAnalysis => r.complexity.Some?
    case AlternativeApproaches => r.alternatives.Some? && |r.alternatives.value.alternatives| > 0
    case PracticeProblems => r.problems.Some? && |r.problems.value.problems| > 0
    case TopicsCovered => r.topics.Some? && |r.topics.value.topics| > 0
  }

  /** What one `ResultSection` renders. */
  datatype Panel = Insight(title: string) | Fallback(message: string)

  const FallbackPrefix: string := "Could not generate insights for: "

  /** `ResultSection`: the accordion item when there is data, the fallback notice otherwise. */
  function ResultSection(title: string, hasData: bool): (p: Panel)
    ensures p.Insight? <==> hasData
    ensures p.Insight? ==> p.title == title
    ensures p.Fallback? ==> p.message == FallbackPrefix + title && p.message[|FallbackPrefix|..] == title
  {
    if !hasData then Fallback(FallbackPrefix + title) else Insight(title)
  }

  /** What the results pane shows. */
  datatype Screen = Skeleton | EmptyState | Complete(panels: seq<Panel>, defaultOpen: string)

  /** `defaultOpen`: the summary if there is one, otherwise the line-by-line walkthrough. */
  function DefaultOpen(r: AnalysisResults): (title: string)
    ensures title == Title(CodeSummary) <==> r.summary.Some?
    ensures title == Title(LineByLine) <==> r.summary.None?
  {
    if r.summary.Some? then Title(CodeSummary) else Title(LineByLine)
  }

  /** `AnalysisResults`: loading wins, then the empty state, then the six sections. */
  function Render(isLoading: bool, results: Option<AnalysisResults>): (screen: Screen)
    ensures isLoading ==> screen == Skeleton
    ensures !isLoading && results.None? ==> screen == EmptyState
    ensures !isLoading && results.Some? ==>
      && screen.Complete?
      && |screen.panels| == |Sections|
      && screen.defaultOpen == DefaultOpen(results.value)
      && (forall k | 0 <= k < |Sections| :: screen.panels[k].Insight? <==> HasData(results.value, Sections[k]))
      && (forall k | 0 <= k < |Sections| :: screen.panels[k].Insight? ==> screen.panels[k].title == Title(Sections[k]))
      && (forall k | 0 <= k < |Sections| :: screen.panels[k].Fallback? ==>
            screen.panels[k].message == FallbackPrefix + Title(Sections[k]))
  {
    if isLoading then Skeleton
    else if results.None? then EmptyState
    else
      var r := results.value;
      Complete(seq(|Sections|, k requires 0 <= k < |Sections| => ResultSection(Title(Sections[k]), HasData(r, Sections[k]))),
               DefaultOpen(r))
  }

  /** `handleFormSubmit`: the question handed to `onFollowUpSubmit`, if any. */
  function FormSubmit(question: string): (submitted: Option<string>)
    ensures submitted.None? <==> IsBlank(question)
    ensures submitted.Some? ==> submitted.value == question
  {
    TrimEmptyIffBlank(question);
    if Trim(question) == [] then None else Some(question)
  }

  /** The send button's `disabled` flag. */
  function SendDisabled(isFollowUpLoading: bool, question: string): (disabled: bool)
    ensures disabled <==> isFollowUpLoading || IsBlank(question)
  {
    TrimEmptyIffBlank(question);
    isFollowUpLoading || Trim(question) == []
  }

  /** An enabled send button always submits the question as typed. */
  lemma EnabledSendSubmits(isFollowUpLoading: bool, question: string)
    requires !SendDisabled(isFollowUpLoading, question)
    ensures FormSubmit(question) == Some(question)
  {
  }

  /** Whether conversation entry `index` shows "Thinking..." instead of its answer. */
  function ShowsThinking(isFollowUpLoading: bool, conversation: seq<Exchange>, index: nat): (thinking: bool)
    requires index < |conversation|
    ensures thinking ==> isFollowUpLoading && conversation[index].answer == "" && index == |conversation| - 1
  {
    isFollowUpLoading && conversation[index].answer == "" && index == |conversation| - 1
  }
}
