/**
 * The analysis history of `components/history-sidebar.tsx` (the
 * `HistoryItem` shape) and the list operations `components/code-analysis.tsx`
 * performs on it: the de-duplicating, capped insertion after an analysis,
 * the conversation update of the active item, and the lookup by id.
 */
module History {
  import opened Wrappers
  import opened Actions

  /** One follow-up question with its answer (`''` while pending). */
  datatype Exchange = Exchange(question: string, answer: string)

  /** `HistoryItem`; `conversation` is optional, as in the source type. */
  datatype HistoryItem = HistoryItem(
    id: string,
    code: string,
    summary: string,
    results: AnalysisResults,
    timestamp: int,
    conversation: Option<seq<Exchange>>)

  /** The cap `slice(0, 50)` puts on the history. */
  const MaxHistory: nat := 50

  function Min(a: int, b: int): int { if a <= b then a else b }

  /** The set of codes a history holds. */
  function Codes(xs: seq<HistoryItem>): set<string> {
    set x | x in xs :: x.code
  }

  /** No two items share a code. */
  predicate DistinctCodes(xs: seq<HistoryItem>) {
    forall a, b | 0 <= a < b < |xs| :: xs[a].code != xs[b].code
  }

  /** The history invariant the insertion re-establishes: distinct codes, at most 50 items. */
  predicate WellFormed(xs: seq<HistoryItem>) {
    DistinctCodes(xs) && |xs| <= MaxHistory
  }

  /** `a` is an order-preserving subsequence of `b`. */
  predicate IsSubsequence<T(==)>(a: seq<T>, b: seq<T>)
    decreases |b|
  {
    a == [] || (b != [] && ((a[0] == b[0] && IsSubsequence(a[1..], b[1..])) || IsSubsequence(a, b[1..])))
  }

  lemma {:induction false} SubsequenceMembers<T>(a: seq<T>, b: seq<T>)
    requires IsSubsequence(a, b)
    ensures forall x | x in a :: x in b
    decreases |b|
  {
    if a != [] {
      if a[0] == b[0] && IsSubsequence(a[1..], b[1..]) {
        SubsequenceMembers(a[1..], b[1..]);
        assert forall x | x in a :: x == a[0] || x in a[1..];
      } else {
        SubsequenceMembers(a, b[1..]);
      }
    }
  }

  lemma {:induction false} SubsequencePrefix<T>(a: seq<T>, b: seq<T>, n: nat)
    requires IsSubsequence(a, b) && n <= |a|
    ensures IsSubsequence(a[..n], b)
    decreases |b|
  {
    if n > 0 {
      if a[0] == b[0] && IsSubsequence(a[1..], b[1..]) {
        SubsequencePrefix(a[1..], b[1..], n - 1);
        assert a[..n][1..] == a[1..][..n - 1];
      } else {
        SubsequencePrefix(a, b[1..], n);
      }
    }
  }

  /** `xs.findIndex(t => t.code === code)`: the first index holding `code`, or -1. */
  function FindIndex(xs: seq<HistoryItem>, code: string): (r: int)
    ensures -1 <= r < |xs|
    ensures r >= 0 ==> xs[r].code == code
    ensures forall j | 0 <= j < |xs| && (r == -1 || j < r) :: xs[j].code != code
  {
    if xs == [] then -1
    else if xs[0].code == code then 0
    else
      var r := FindIndex(xs[1..], code);
      assert forall j | 1 <= j < |xs| :: xs[j] == xs[1..][j - 1];
      if r == -1 then -1 else r + 1
  }

  /** The filter of line 78 applied from index `i` on: keep an item iff it is the first with its code. */
  function KeepFirstFrom(xs: seq<HistoryItem>, i: nat): seq<HistoryItem>
    requires i <= |xs|
    decreases |xs| - i
  {
    if i == |xs| then []
    else (if FindIndex(xs, xs[i].code) == i then [xs[i]] else []) + KeepFirstFrom(xs, i + 1)
  }

  lemma {:induction false} KeepFirstFromSubsequence(xs: seq<HistoryItem>, i: nat)
    requires i <= |xs|
    ensures IsSubsequence(KeepFirstFrom(xs, i), xs[i..])
    decreases |xs| - i
  {
    if i < |xs| {
      KeepFirstFromSubsequence(xs, i + 1);
      var t := KeepFirstFrom(xs, i + 1);
      assert xs[i..][1..] == xs[i + 1..];
      if FindIndex(xs, xs[i].code) == i {
        var r := [xs[i]] + t;
        assert r[1..] == t;
      } else {
        assert KeepFirstFrom(xs, i) == t;
      }
    }
  }

  lemma {:induction false} KeepFirstFromLater(xs: seq<HistoryItem>, i: nat)
    requires i <= |xs|
    ensures forall a | 0 <= a < |KeepFirstFrom(xs, i)| :: i <= FindIndex(xs, KeepFirstFrom(xs, i)[a].code)
    decreases |xs| - i
  {
    if i < |xs| {
      KeepFirstFromLater(xs, i + 1);
    }
  }

  lemma {:induction false} KeepFirstFromOrdered(xs: seq<HistoryItem>, i: nat)
    requires i <= |xs|
    ensures forall a, b | 0 <= a < b < |KeepFirstFrom(xs, i)| ::
      FindIndex(xs, KeepFirstFrom(xs, i)[a].code) < FindIndex(xs, KeepFirstFrom(xs, i)[b].code)
    decreases |xs| - i
  {
    if i < |xs| {
      KeepFirstFromOrdered(xs, i + 1);
      KeepFirstFromLater(xs, i + 1);
      var t := KeepFirstFrom(xs, i + 1);
      if FindIndex(xs, xs[i].code) == i {
        var r := KeepFirstFrom(xs, i);
        assert r == [xs[i]] + t;
        forall a, b | 0 <= a < b < |r| ensures FindIndex(xs, r[a].code) < FindIndex(xs, r[b].code) {
          assert r[b] == t[b - 1];
          if a > 0 {
            assert r[a] == t[a - 1];
          }
        }
      }
    }
  }

  lemma {:induction false} KeepFirstFromDistinct(xs: seq<HistoryItem>, i: nat)
    requires i <= |xs|
    ensures DistinctCodes(KeepFirstFrom(xs, i))
    decreases |xs| - i
  {
    if i < |xs| {
      KeepFirstFromDistinct(xs, i + 1);
      KeepFirstFromLater(xs, i + 1);
      var t := KeepFirstFrom(xs, i + 1);
      if FindIndex(xs, xs[i].code) == i {
        var r := KeepFirstFrom(xs, i);
        assert r == [xs[i]] + t;
        forall a, b | 0 <= a < b < |r| ensures r[a].code != r[b].code {
          if a == 0 {
            assert r[b] == t[b - 1];
            assert i + 1 <= FindIndex(xs, t[b - 1].code);
          } else {
            assert r[a] == t[a - 1] && r[b] == t[b - 1];
          }
        }
      }
    }
  }

  lemma {:induction false} KeepFirstFromFirst(xs: seq<HistoryItem>, i: nat)
    requires i <= |xs|
    ensures forall a | 0 <= a < |KeepFirstFrom(xs, i)| ::
      var k := FindIndex(xs, KeepFirstFrom(xs, i)[a].code); 0 <= k && xs[k] == KeepFirstFrom(xs, i)[a]
    decreases |xs| - i
  {
    if i < |xs| {
      KeepFirstFromFirst(xs, i + 1);
      var t := KeepFirstFrom(xs, i + 1);
      if FindIndex(xs, xs[i].code) == i {
        var r := KeepFirstFrom(xs, i);
        assert r == [xs[i]] + t;
        forall a | 0 <= a < |r| ensures var k := FindIndex(xs, r[a].code); 0 <= k && xs[k] == r[a] {
          if a > 0 {
            assert r[a] == t[a - 1];
          }
        }
      }
    }
  }

  lemma {:induction false} KeepFirstFromComplete(xs: seq<HistoryItem>, i: nat)
    requires i <= |xs|
    ensures forall k | i <= k < |xs| && FindIndex(xs, xs[k].code) == k :: xs[k] in KeepFirstFrom(xs, i)
    decreases |xs| - i
  {
    if i < |xs| {
      KeepFirstFromComplete(xs, i + 1);
    }
  }

  /** The whole filter of line 78: the first item of each code, in order. */
  function KeepFirstOccurrences(xs: seq<HistoryItem>): (r: seq<HistoryItem>)
    ensures IsSubsequence(r, xs)
    ensures DistinctCodes(r)
    ensures Codes(r) == Codes(xs)
    ensures |r| == |Codes(xs)|
    ensures forall k | 0 <= k < |r| :: 0 <= FindIndex(xs, r[k].code) && r[k] == xs[FindIndex(xs, r[k].code)]
    ensures forall a, b | 0 <= a < b < |r| :: FindIndex(xs, r[a].code) < FindIndex(xs, r[b].code)
  {
    var r := KeepFirstFrom(xs, 0);
    KeepFirstFromOrdered(xs, 0);
    KeepFirstFromFirst(xs, 0);
    KeepFirstFromSubsequence(xs, 0);
    KeepFirstFromDistinct(xs, 0);
    KeepFirstFromComplete(xs, 0);
    SubsequenceMembers(r, xs);
    assert Codes(xs) <= Codes(r) by {
      forall c | c in Codes(xs) ensures c in Codes(r) {
        var x :| x in xs && x.code == c;
        var k := FindIndex(xs, c);
        assert k >= 0;
        assert xs[k] in r;
      }
    }
    DistinctCodesCardinality(r);
    r
  }

  lemma CodesCons(h: HistoryItem, t: seq<HistoryItem>)
    ensures Codes([h] + t) == {h.code} + Codes(t)
  {
    assert forall x | x in [h] + t :: x == h || x in t;
  }

  lemma {:induction false} DistinctCodesCardinality(xs: seq<HistoryItem>)
    requires DistinctCodes(xs)
    ensures |Codes(xs)| == |xs|
  {
    if xs != [] {
      var tail := xs[1..];
      assert xs == [xs[0]] + tail;
      CodesCons(xs[0], tail);
      DistinctCodesCardinality(tail);
      assert xs[0].code !in Codes(tail) by {
        forall b | 0 <= b < |tail| ensures tail[b].code != xs[0].code {
          assert tail[b] == xs[b + 1];
        }
      }
    }
  }

  /**
   * The history after an analysis whose summary is present (line 78):
   * prepend the new item, keep the first item of each code, cap at 50.
   */
  function UpdateHistory(item: HistoryItem, history: seq<HistoryItem>): (r: seq<HistoryItem>)
    ensures |r| > 0 && r[0] == item
    ensures forall k | 0 < k < |r| :: r[k].code != item.code
    ensures WellFormed(r)
    ensures |r| == Min(MaxHistory, |Codes([item] + history)|)
    ensures IsSubsequence(r, [item] + history)
    ensures |Codes([item] + history)| <= MaxHistory ==> Codes(r) == Codes([item] + history)
    ensures r == KeepFirstOccurrences([item] + history)[..|r|]
  {
    var all := [item] + history;
    var kept := KeepFirstOccurrences(all);
    assert FindIndex(all, all[0].code) == 0;
    assert kept[0] == item;
    var r := kept[..Min(MaxHistory, |kept|)];
    SubsequencePrefix(kept, all, |r|);
    assert forall k | 0 < k < |r| :: r[k].code != r[0].code;
    r
  }

  /** `history.find(h => h.id === id)`: the first item with that id. */
  function FindById(history: seq<HistoryItem>, id: string): (r: Option<HistoryItem>)
    ensures r.None? <==> forall k | 0 <= k < |history| :: history[k].id != id
    ensures r.Some? ==> r.value.id == id && r.value in history
    ensures r.Some? ==> exists k | 0 <= k < |history| :: history[k] == r.value && forall j | 0 <= j < k :: history[j].id != id
  {
    if history == [] then None
    else if history[0].id == id then Some(history[0])
    else
      var r := FindById(history[1..], id);
      assert forall k | 1 <= k < |history| :: history[k] == history[1..][k - 1];
      assert r.Some? ==> exists k | 0 <= k < |history| :: history[k] == r.value && forall j | 0 <= j < k :: history[j].id != id by {
        if r.Some? {
          var k :| 0 <= k < |history[1..]| && history[1..][k] == r.value && forall j | 0 <= j < k :: history[1..][j].id != id;
          assert history[k + 1] == r.value;
          assert forall j | 0 <= j < k + 1 :: history[j].id != id by {
            forall j | 0 <= j < k + 1 ensures history[j].id != id {
              if j > 0 { assert history[j] == history[1..][j - 1]; }
            }
          }
        }
      }
      r
  }

  /** One item of the `history.map` at lines 137-139. */
  function WithConversation(h: HistoryItem, id: string, conv: seq<Exchange>): HistoryItem {
    if h.id == id then h.(conversation := Some(conv)) else h
  }

  /** Lines 137-139: the items whose id is `id` get the conversation `conv`. */
  function ReplaceConversation(history: seq<HistoryItem>, id: string, conv: seq<Exchange>): (r: seq<HistoryItem>)
    ensures |r| == |history|
    ensures forall k | 0 <= k < |r| :: r[k].(conversation := history[k].conversation) == history[k]
    ensures forall k | 0 <= k < |r| :: history[k].id == id ==> r[k].conversation == Some(conv)
    ensures forall k | 0 <= k < |r| :: history[k].id != id ==> r[k] == history[k]
  {
    if history == [] then []
    else [WithConversation(history[0], id, conv)] + ReplaceConversation(history[1..], id, conv)
  }

  /** Replacing a conversation keeps the set of codes, and with it the history invariant. */
  lemma {:induction false} ReplaceConversationKeepsCodes(history: seq<HistoryItem>, id: string, conv: seq<Exchange>)
    ensures Codes(ReplaceConversation(history, id, conv)) == Codes(history)
    ensures WellFormed(history) ==> WellFormed(ReplaceConversation(history, id, conv))
  {
    var r := ReplaceConversation(history, id, conv);
    if history != [] {
      ReplaceConversationKeepsCodes(history[1..], id, conv);
      assert history == [history[0]] + history[1..];
      CodesCons(history[0], history[1..]);
      CodesCons(r[0], r[1..]);
      assert r == [r[0]] + r[1..];
    }
  }

  /** Replacing a conversation keeps, for every id, whether `find` succeeds and the code of what it finds. */
  lemma {:induction false} ReplaceConversationKeepsLookup(history: seq<HistoryItem>, id: string, conv: seq<Exchange>, x: string)
    ensures FindById(ReplaceConversation(history, id, conv), x).Some? == FindById(history, x).Some?
    ensures FindById(history, x).Some? ==>
      FindById(ReplaceConversation(history, id, conv), x).value.code == FindById(history, x).value.code
  {
    if history != [] && history[0].id != x {
      ReplaceConversationKeepsLookup(history[1..], id, conv, x);
      assert ReplaceConversation(history, id, conv)[1..] == ReplaceConversation(history[1..], id, conv);
    }
  }
}
