/** Per-label accumulation in a Python `dict` (insertion-ordered) followed by `max(..., key=...)`.
    `compute_dominant_emotion`, `predict_emotion` and `generate_bias_shift_report` all build
    `totals[label] = totals.get(label, 0) + weight` over a list and then take the first label
    whose total is largest. */
module Tally {

  /** (label, weight) pairs; the accumulated table has the same shape, one entry per label. */
  type Votes = seq<(string, real)>

  predicate Occurs(ps: Votes, k: string)
  {
    exists i :: 0 <= i < |ps| && ps[i].0 == k
  }

  predicate DistinctLabels(t: Votes)
  {
    forall p, q :: 0 <= p < q < |t| ==> t[p].0 != t[q].0
  }

  /** Where label `k` first appears. */
  function FirstIndexOf(ps: Votes, k: string): (i: nat)
    requires Occurs(ps, k)
    ensures i < |ps| && ps[i].0 == k
    ensures forall j :: 0 <= j < i ==> ps[j].0 != k
  {
    if ps[0].0 == k then 0
    else
      assert Occurs(ps[1..], k) by {
        var i :| 0 <= i < |ps| && ps[i].0 == k;
        assert ps[1..][i - 1].0 == k;
      }
      1 + FirstIndexOf(ps[1..], k)
  }

  /** The sum of the weights given to label `k`. */
  function Total(ps: Votes, k: string): real
  {
    if ps == [] then 0.0
    else Total(ps[..|ps| - 1], k) + (if ps[|ps| - 1].0 == k then ps[|ps| - 1].1 else 0.0)
  }

  function Sum(xs: seq<real>): real
  {
    if xs == [] then 0.0 else Sum(xs[..|xs| - 1]) + xs[|xs| - 1]
  }

  /** A label occurs in a non-empty list iff it heads it or occurs in the rest. */
  lemma OccursTail(t: Votes, k: string)
    requires t != []
    ensures Occurs(t, k) <==> t[0].0 == k || Occurs(t[1..], k)
  {
    if Occurs(t, k) && t[0].0 != k {
      var i :| 0 <= i < |t| && t[i].0 == k;
      assert t[1..][i - 1].0 == k;
    }
    if Occurs(t[1..], k) {
      var i :| 0 <= i < |t[1..]| && t[1..][i].0 == k;
      assert t[i + 1].0 == k;
    }
  }

  /** `totals[k] = totals.get(k, 0) + w`: an existing entry grows in place, a new one goes last. */
  function Add(t: Votes, k: string, w: real): (r: Votes)
    requires DistinctLabels(t)
    ensures DistinctLabels(r)
    ensures Occurs(t, k) ==> |r| == |t| && forall p :: 0 <= p < |t| ==>
      r[p] == if t[p].0 == k then (k, t[p].1 + w) else t[p]
    ensures !Occurs(t, k) ==> r == t + [(k, w)]
  {
    if t == [] then [(k, w)]
    else if t[0].0 == k then [(k, t[0].1 + w)] + t[1..]
    else
      OccursTail(t, k);
      [t[0]] + Add(t[1..], k, w)
  }

  /** The table built by the accumulation loop. */
  function Accumulate(ps: Votes): (t: Votes)
    ensures DistinctLabels(t)
  {
    if ps == [] then []
    else Add(Accumulate(ps[..|ps| - 1]), ps[|ps| - 1].0, ps[|ps| - 1].1)
  }

  /** `max(table, key=value)`: the first entry whose value is largest. */
  function FirstMax(t: Votes): (i: nat)
    requires |t| > 0
    ensures i < |t|
    ensures forall j :: 0 <= j < |t| ==> t[j].1 <= t[i].1
    ensures forall j :: 0 <= j < i ==> t[j].1 < t[i].1
  {
    if |t| == 1 then 0
    else
      var b := FirstMax(t[..|t| - 1]);
      if t[|t| - 1].1 > t[b].1 then |t| - 1 else b
  }

  /** Extending the list keeps where the labels already present first appear. */
  lemma FirstIndexExtend(ps: Votes, x: (string, real), k: string)
    requires Occurs(ps, k)
    ensures Occurs(ps + [x], k) && FirstIndexOf(ps + [x], k) == FirstIndexOf(ps, k)
  {
    var i := FirstIndexOf(ps, k);
    assert (ps + [x])[i].0 == k;
  }

  lemma {:induction false} TotalAbsent(ps: Votes, k: string)
    requires !Occurs(ps, k)
    ensures Total(ps, k) == 0.0
  {
    if ps != [] {
      TotalAbsent(ps[..|ps| - 1], k);
    }
  }

  /** The table holds exactly the labels of the list. */
  lemma AccumulateLabels(ps: Votes)
    ensures forall p :: 0 <= p < |Accumulate(ps)| ==> Occurs(ps, Accumulate(ps)[p].0)
    ensures forall j :: 0 <= j < |ps| ==> Occurs(Accumulate(ps), ps[j].0)
  {
    TableLabelsListed(ps);
    ListLabelsTabled(ps);
  }

  lemma {:induction false} TableLabelsListed(ps: Votes)
    ensures forall p :: 0 <= p < |Accumulate(ps)| ==> Occurs(ps, Accumulate(ps)[p].0)
  {
    if ps != [] {
      var init := ps[..|ps| - 1];
      TableLabelsListed(init);
      var t0, t := Accumulate(init), Accumulate(ps);
      forall p | 0 <= p < |t| ensures Occurs(ps, t[p].0) {
        if p < |t0| {
          var i :| 0 <= i < |init| && init[i].0 == t0[p].0;
          assert ps[i].0 == t[p].0;
        } else {
          assert ps[|ps| - 1].0 == t[p].0;
        }
      }
    }
  }

  lemma {:induction false} ListLabelsTabled(ps: Votes)
    ensures forall j :: 0 <= j < |ps| ==> Occurs(Accumulate(ps), ps[j].0)
  {
    if ps != [] {
      var init, x := ps[..|ps| - 1], ps[|ps| - 1];
      ListLabelsTabled(init);
      var t0, t := Accumulate(init), Accumulate(ps);
      forall j | 0 <= j < |ps| ensures Occurs(t, ps[j].0) {
        if j < |init| {
          var p :| 0 <= p < |t0| && t0[p].0 == init[j].0;
          assert t[p].0 == ps[j].0;
        } else if Occurs(t0, x.0) {
          var p :| 0 <= p < |t0| && t0[p].0 == x.0;
          assert t[p].0 == x.0;
        } else {
          assert t[|t0|].0 == x.0;
        }
      }
    }
  }

  /** Each label's entry in the table holds the sum of its weights. */
  lemma {:induction false} AccumulateTotals(ps: Votes)
    ensures forall p :: 0 <= p < |Accumulate(ps)| ==> Accumulate(ps)[p].1 == Total(ps, Accumulate(ps)[p].0)
  {
    if ps != [] {
      var init, x := ps[..|ps| - 1], ps[|ps| - 1];
      AccumulateTotals(init);
      AccumulateLabels(init);
      var t0, t := Accumulate(init), Accumulate(ps);
      forall p | 0 <= p < |t| ensures t[p].1 == Total(ps, t[p].0) {
        if p == |t0| {
          assert !Occurs(t0, x.0);
          assert !Occurs(init, x.0);
          TotalAbsent(init, x.0);
        }
      }
    }
  }

  /** The labels of `t` all occur in `ps`, in the order of their first appearance there. */
  predicate FirstSeenOrder(ps: Votes, t: Votes)
  {
    && (forall p :: 0 <= p < |t| ==> Occurs(ps, t[p].0))
    && (forall p, q :: 0 <= p < q < |t| ==> FirstIndexOf(ps, t[p].0) < FirstIndexOf(ps, t[q].0))
  }

  lemma {:induction false} AccumulateOrder(ps: Votes)
    ensures FirstSeenOrder(ps, Accumulate(ps))
  {
    if ps != [] {
      var init, x := ps[..|ps| - 1], ps[|ps| - 1];
      assert ps == init + [x];
      AccumulateOrder(init);
      AccumulateLabels(init);
      AddKeepsOrder(init, Accumulate(init), x);
    }
  }

  lemma AddKeepsOrder(init: Votes, t0: Votes, x: (string, real))
    requires DistinctLabels(t0) && FirstSeenOrder(init, t0)
    requires forall j :: 0 <= j < |init| ==> Occurs(t0, init[j].0)
    ensures FirstSeenOrder(init + [x], Add(t0, x.0, x.1))
  {
    if Occurs(t0, x.0) {
      ExistingKeepsOrder(init, t0, x);
    } else {
      assert !Occurs(init, x.0) by {
        if Occurs(init, x.0) {
          var j :| 0 <= j < |init| && init[j].0 == x.0;
        }
      }
      NewKeepsOrder(init, t0, x);
    }
  }

  /** Extending the list keeps the first appearances of every label of `t0`. */
  lemma ExtendKeepsFirst(init: Votes, t0: Votes, x: (string, real))
    requires forall p :: 0 <= p < |t0| ==> Occurs(init, t0[p].0)
    ensures forall p :: 0 <= p < |t0| ==>
      Occurs(init + [x], t0[p].0) && FirstIndexOf(init + [x], t0[p].0) == FirstIndexOf(init, t0[p].0)
  {
    forall p | 0 <= p < |t0|
      ensures Occurs(init + [x], t0[p].0) && FirstIndexOf(init + [x], t0[p].0) == FirstIndexOf(init, t0[p].0)
    {
      FirstIndexExtend(init, x, t0[p].0);
    }
  }

  lemma ExistingKeepsOrder(init: Votes, t0: Votes, x: (string, real))
    requires DistinctLabels(t0) && FirstSeenOrder(init, t0) && Occurs(t0, x.0)
    ensures FirstSeenOrder(init + [x], Add(t0, x.0, x.1))
  {
    var t := Add(t0, x.0, x.1);
    ExtendKeepsFirst(init, t0, x);
    assert forall p :: 0 <= p < |t| ==> t[p].0 == t0[p].0;
  }

  lemma NewKeepsOrder(init: Votes, t0: Votes, x: (string, real))
    requires DistinctLabels(t0) && FirstSeenOrder(init, t0) && !Occurs(t0, x.0) && !Occurs(init, x.0)
    ensures FirstSeenOrder(init + [x], Add(t0, x.0, x.1))
  {
    var ps, t := init + [x], Add(t0, x.0, x.1);
    assert t == t0 + [x];
    ExtendKeepsFirst(init, t0, x);
    assert ps[|init|].0 == x.0;
    assert FirstIndexOf(ps, x.0) == |init|;
    forall p, q | 0 <= p < q < |t| ensures FirstIndexOf(ps, t[p].0) < FirstIndexOf(ps, t[q].0) {
      if q == |t0| {
        assert FirstIndexOf(init, t0[p].0) < |init|;
      } else {
        assert FirstIndexOf(init, t0[p].0) < FirstIndexOf(init, t0[q].0);
      }
    }
  }

  /** An entry of the table: its label occurs in the list and its value is that label's total. */
  lemma EntryIsTotal(ps: Votes, p: nat)
    requires p < |Accumulate(ps)|
    ensures Occurs(ps, Accumulate(ps)[p].0) && Accumulate(ps)[p].1 == Total(ps, Accumulate(ps)[p].0)
  {
    AccumulateLabels(ps);
    AccumulateTotals(ps);
  }

  /** Every label of the list has an entry in the table. */
  lemma EntryOf(ps: Votes, k: string) returns (p: nat)
    requires Occurs(ps, k)
    ensures p < |Accumulate(ps)| && Accumulate(ps)[p].0 == k
  {
    AccumulateLabels(ps);
    var j :| 0 <= j < |ps| && ps[j].0 == k;
    p :| 0 <= p < |Accumulate(ps)| && Accumulate(ps)[p].0 == k;
  }

  /** Table entries follow the order of first appearance. */
  lemma EntryOrder(ps: Votes, p: nat, q: nat)
    requires p < q < |Accumulate(ps)|
    ensures Occurs(ps, Accumulate(ps)[p].0) && Occurs(ps, Accumulate(ps)[q].0)
    ensures FirstIndexOf(ps, Accumulate(ps)[p].0) < FirstIndexOf(ps, Accumulate(ps)[q].0)
  {
    AccumulateOrder(ps);
  }

  /** The label `max` picks from the accumulated table. */
  function Winner(ps: Votes): string
    requires ps != []
  {
    var t := Accumulate(ps);
    AccumulateLabels(ps);
    assert Occurs(t, ps[0].0);
    t[FirstMax(t)].0
  }

  /** The winner has the largest total of all labels present, and every label that appears
      before the winner's first appearance has a strictly smaller total. */
  lemma WinnerIsFirstMaximum(ps: Votes)
    requires ps != []
    ensures Occurs(ps, Winner(ps))
    ensures forall j :: 0 <= j < |ps| ==> Total(ps, ps[j].0) <= Total(ps, Winner(ps))
    ensures forall j :: 0 <= j < FirstIndexOf(ps, Winner(ps)) ==> Total(ps, ps[j].0) < Total(ps, Winner(ps))
  {
    var t := Accumulate(ps);
    var first := EntryOf(ps, ps[0].0);
    var m := FirstMax(t);
    var w := t[m].0;
    assert w == Winner(ps);
    EntryIsTotal(ps, m);
    forall j | 0 <= j < |ps| ensures Total(ps, ps[j].0) <= Total(ps, w) {
      var p := EntryOf(ps, ps[j].0);
      EntryIsTotal(ps, p);
    }
    forall j | 0 <= j < FirstIndexOf(ps, w) ensures Total(ps, ps[j].0) < Total(ps, w) {
      var p := EntryOf(ps, ps[j].0);
      EntryIsTotal(ps, p);
      assert FirstIndexOf(ps, ps[j].0) <= j;
      if m < p {
        EntryOrder(ps, m, p);
      }
      assert p != m;
    }
  }

  /** With non-negative weights each bounded by `bound[i]`, any label's total lies between 0 and the bounds' sum. */
  lemma {:induction false} TotalBounded(ps: Votes, bound: seq<real>, k: string)
    requires |bound| == |ps|
    requires forall i :: 0 <= i < |ps| ==> 0.0 <= ps[i].1 <= bound[i]
    ensures 0.0 <= Total(ps, k) <= Sum(bound)
  {
    if ps != [] {
      TotalBounded(ps[..|ps| - 1], bound[..|ps| - 1], k);
    }
  }
}
