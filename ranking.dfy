/** Ordering candidates by a real score, highest first, with a tie-break.
    The source orders things this way four times: the predictor pops a heap keyed by
    (-similarity, Event ID); the learner, `get_strongest_attachments` and the bias loader
    call Python's stable `sorted`, whose ties keep their original positions. */
module Ranking {

  /** How equal scores are ordered: by original position (a stable sort) or by identifier. */
  datatype TieBreak = ByPosition | ById

  /** A candidate: its score, its position in the ranked collection and its identifier. */
  datatype Ranked = Ranked(key: real, pos: nat, id: string)

  /** Python's `<` on strings: lexicographic by code point. */
  predicate LexLess(a: string, b: string)
  {
    if |a| == 0 then |b| > 0
    else |b| > 0 && (a[0] < b[0] || (a[0] == b[0] && LexLess(a[1..], b[1..])))
  }

  predicate TieLess(a: Ranked, b: Ranked, tie: TieBreak)
  {
    match tie
    case ByPosition => a.pos < b.pos
    case ById => LexLess(a.id, b.id)
  }

  /** `a` is ranked before `b`: a higher score, or an equal score and a smaller tie-break. */
  predicate Precedes(a: Ranked, b: Ranked, tie: TieBreak)
  {
    a.key > b.key || (a.key == b.key && TieLess(a, b, tie))
  }

  /** Two candidates the ordering cannot tell apart. */
  predicate SameRank(a: Ranked, b: Ranked, tie: TieBreak)
  {
    a.key == b.key && (match tie case ByPosition => a.pos == b.pos case ById => a.id == b.id)
  }

  predicate DistinctRanks(cs: seq<Ranked>, tie: TieBreak)
  {
    forall i, j :: 0 <= i < j < |cs| ==> !SameRank(cs[i], cs[j], tie)
  }

  predicate Sorted(r: seq<Ranked>, tie: TieBreak)
  {
    forall i, j :: 0 <= i < j < |r| ==> Precedes(r[i], r[j], tie)
  }

  function Insert(x: Ranked, t: seq<Ranked>, tie: TieBreak): (r: seq<Ranked>)
    ensures multiset(r) == multiset(t) + multiset{x}
  {
    if t == [] then [x]
    else if Precedes(x, t[0], tie) then [x] + t
    else
      assert t == [t[0]] + t[1..];
      [t[0]] + Insert(x, t[1..], tie)
  }

  /** Insertion sort of the candidates into ranking order. */
  function Rank(cs: seq<Ranked>, tie: TieBreak): (r: seq<Ranked>)
    ensures multiset(r) == multiset(cs)
    ensures |r| == |cs|
  {
    if cs == [] then []
    else
      assert cs == [cs[0]] + cs[1..];
      Insert(cs[0], Rank(cs[1..], tie), tie)
  }

  /** The first `k` candidates in ranking order (Python's `[:k]` after sorting). */
  function TopK(cs: seq<Ranked>, tie: TieBreak, k: nat): (r: seq<Ranked>)
    ensures |r| == if k < |cs| then k else |cs|
  {
    var ranked := Rank(cs, tie);
    ranked[..if k < |ranked| then k else |ranked|]
  }

  lemma {:induction false} LexIrreflexive(a: string)
    ensures !LexLess(a, a)
  {
    if |a| > 0 { LexIrreflexive(a[1..]); }
  }

  lemma {:induction false} LexTotal(a: string, b: string)
    requires a != b
    ensures LexLess(a, b) || LexLess(b, a)
  {
    if |a| > 0 && |b| > 0 && a[0] == b[0] {
      assert a == [a[0]] + a[1..] && b == [b[0]] + b[1..];
      LexTotal(a[1..], b[1..]);
    }
  }

  lemma {:induction false} LexTransitive(a: string, b: string, c: string)
    requires LexLess(a, b) && LexLess(b, c)
    ensures LexLess(a, c)
  {
    if |a| > 0 && a[0] == b[0] && b[0] == c[0] {
      LexTransitive(a[1..], b[1..], c[1..]);
    }
  }

  lemma PrecedesTotal(a: Ranked, b: Ranked, tie: TieBreak)
    requires !SameRank(a, b, tie)
    ensures Precedes(a, b, tie) || Precedes(b, a, tie)
  {
    if tie == ById && a.key == b.key { LexTotal(a.id, b.id); }
  }

  lemma PrecedesTransitive(a: Ranked, b: Ranked, c: Ranked, tie: TieBreak)
    requires Precedes(a, b, tie) && Precedes(b, c, tie)
    ensures Precedes(a, c, tie)
  {
    if tie == ById && a.key == b.key == c.key { LexTransitive(a.id, b.id, c.id); }
  }

  lemma {:induction false} InsertSorted(x: Ranked, t: seq<Ranked>, tie: TieBreak)
    requires Sorted(t, tie)
    requires forall y :: y in t ==> !SameRank(x, y, tie)
    ensures Sorted(Insert(x, t, tie), tie)
  {
    if t != [] {
      if Precedes(x, t[0], tie) {
        forall j | 0 < j < |t| ensures Precedes(x, t[j], tie) {
          PrecedesTransitive(x, t[0], t[j], tie);
        }
      } else {
        PrecedesTotal(x, t[0], tie);
        InsertSorted(x, t[1..], tie);
        var rest := Insert(x, t[1..], tie);
        forall y | y in rest ensures Precedes(t[0], y, tie) {
          assert y in multiset(rest);
          if y != x {
            var j :| 0 <= j < |t[1..]| && t[1..][j] == y;
            assert t[j + 1] == y;
          }
        }
      }
    }
  }

  /** Ranking candidates that the ordering can tell apart yields them in strict ranking order. */
  lemma {:induction false} RankSorted(cs: seq<Ranked>, tie: TieBreak)
    requires DistinctRanks(cs, tie)
    ensures Sorted(Rank(cs, tie), tie)
  {
    if cs != [] {
      var rest := Rank(cs[1..], tie);
      RankSorted(cs[1..], tie);
      forall y | y in rest ensures !SameRank(cs[0], y, tie) {
        assert y in multiset(cs[1..]);
        var j :| 0 <= j < |cs[1..]| && cs[1..][j] == y;
        assert cs[j + 1] == y;
      }
      InsertSorted(cs[0], rest, tie);
    }
  }

  /** The top `k` are drawn from the candidates. */
  lemma TopKSubset(cs: seq<Ranked>, tie: TieBreak, k: nat)
    ensures forall t :: t in TopK(cs, tie, k) ==> t in cs
  {
    var r := Rank(cs, tie);
    forall t | t in TopK(cs, tie, k) ensures t in cs {
      assert t in multiset(r);
    }
  }

  /** The top `k` are in ranking order and rank before every candidate left out. */
  lemma TopKBest(cs: seq<Ranked>, tie: TieBreak, k: nat)
    requires DistinctRanks(cs, tie)
    ensures Sorted(TopK(cs, tie, k), tie)
    ensures forall c, t :: c in cs && c !in TopK(cs, tie, k) && t in TopK(cs, tie, k) ==> Precedes(t, c, tie)
    ensures forall t :: t in TopK(cs, tie, k) ==> t in cs
  {
    var r := Rank(cs, tie);
    var top := TopK(cs, tie, k);
    RankSorted(cs, tie);
    forall c, t | c in cs && c !in top && t in top ensures Precedes(t, c, tie) {
      assert c in multiset(r);
      var j :| 0 <= j < |r| && r[j] == c;
      var i :| 0 <= i < |top| && top[i] == t;
      assert r[i] == t;
    }
    forall t | t in top ensures t in cs {
      assert t in multiset(r);
    }
  }
}
