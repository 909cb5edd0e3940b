/**
 * The three edits `handleFollowUpSubmit` makes to the follow-up
 * conversation: append a pending exchange, fill in the last answer, and
 * roll the pending exchange back when the call fails.
 */
module Conversation {
  import opened History

  /** Line 125: the question is appended with an empty answer. */
  function AppendPending(conv: seq<Exchange>, question: string): (r: seq<Exchange>)
    ensures |r| == |conv| + 1
    ensures r[..|conv|] == conv
    ensures r[|conv|] == Exchange(question, "")
  {
    conv + [Exchange(question, "")]
  }

  /** Lines 131-133: the last exchange takes the answer; every other entry is kept. */
  function FillLastAnswer(conv: seq<Exchange>, answer: string): (r: seq<Exchange>)
    ensures |r| == |conv|
    ensures forall k | 0 <= k < |r| - 1 :: r[k] == conv[k]
    ensures |r| > 0 ==> r[|r| - 1] == Exchange(conv[|conv| - 1].question, answer)
  {
    seq(|conv|, k requires 0 <= k < |conv| =>
      if k == |conv| - 1 then conv[k].(answer := answer) else conv[k])
  }

  /** Line 150: `slice(0, -1)`, which leaves an empty conversation empty. */
  function DropLast(conv: seq<Exchange>): (r: seq<Exchange>)
    ensures conv == [] ==> r == []
    ensures conv != [] ==> conv == r + [conv[|conv| - 1]]
  {
    if conv == [] then [] else conv[..|conv| - 1]
  }

  /** Answering the pending question completes it and leaves earlier exchanges untouched. */
  lemma AnswerCompletesPending(conv: seq<Exchange>, question: string, answer: string)
    ensures FillLastAnswer(AppendPending(conv, question), answer) == conv + [Exchange(question, answer)]
  {
    var r := FillLastAnswer(AppendPending(conv, question), answer);
    assert forall k | 0 <= k < |conv| :: r[k] == conv[k];
  }

  /** Rolling back the pending question restores the conversation exactly. */
  lemma RollbackRestores(conv: seq<Exchange>, question: string)
    ensures DropLast(AppendPending(conv, question)) == conv
  {
    assert AppendPending(conv, question)[..|conv|] == conv;
  }
}
