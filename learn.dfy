/** The predictor, the learner and the drift report of src/learn.py. */
module Learn {
  import opened Wrappers
  import opened Numbers
  import opened Records
  import opened Ranking
  import Tally
  import opened Helper
  import opened MemoryStorage

  // ---------------------------------------------------------------------------------------
  // Candidates: the stored memories with positive similarity to the new event
  // ---------------------------------------------------------------------------------------

  /** The memory at `i` as a ranked candidate: its similarity to `e`, its position and its ID. */
  function Candidate(ms: seq<Memory>, e: Event, i: nat): (c: Ranked)
    requires i < |ms|
    ensures c.pos == i && c.id == ms[i].event.id && 0.0 <= c.key <= 1.0
  {
    Ranked(Similarity(e, ms[i].event), i, ms[i].event.id)
  }

  /** The memories whose similarity to `e` is positive, in list order (the scans at src/learn.py:12-15 and 77-80). */
  function Similar(ms: seq<Memory>, e: Event): (cs: seq<Ranked>)
    ensures forall j :: 0 <= j < |cs| ==> cs[j].pos < |ms| && cs[j] == Candidate(ms, e, cs[j].pos)
    ensures forall j, j' :: 0 <= j < j' < |cs| ==> cs[j].pos < cs[j'].pos
  {
    if ms == [] then []
    else
      var n := |ms| - 1;
      var init := Similar(ms[..n], e);
      SimilarPrefix(ms, n, e, init);
      if Similarity(e, ms[n].event) > 0.0 then init + [Candidate(ms, e, n)] else init
  }

  lemma SimilarPrefix(ms: seq<Memory>, n: nat, e: Event, init: seq<Ranked>)
    requires n <= |ms|
    requires forall j :: 0 <= j < |init| ==> init[j].pos < n && init[j] == Candidate(ms[..n], e, init[j].pos)
    ensures forall j :: 0 <= j < |init| ==> init[j] == Candidate(ms, e, init[j].pos)
  {
    forall j | 0 <= j < |init| ensures init[j] == Candidate(ms, e, init[j].pos) {
      assert ms[..n][init[j].pos] == ms[init[j].pos];
    }
  }

  /** Exactly the memories with positive similarity are candidates. */
  lemma {:induction false} SimilarExactly(ms: seq<Memory>, e: Event)
    ensures forall j :: 0 <= j < |Similar(ms, e)| ==> Similar(ms, e)[j].key > 0.0
    ensures forall i :: 0 <= i < |ms| && Similarity(e, ms[i].event) > 0.0 ==>
      exists j :: 0 <= j < |Similar(ms, e)| && Similar(ms, e)[j].pos == i
  {
    if ms != [] {
      var n := |ms| - 1;
      SimilarExactly(ms[..n], e);
      var init := Similar(ms[..n], e);
      var cs := Similar(ms, e);
      forall i | 0 <= i < |ms| && Similarity(e, ms[i].event) > 0.0
        ensures exists j :: 0 <= j < |cs| && cs[j].pos == i
      {
        if i < n {
          assert ms[..n][i] == ms[i];
          var j :| 0 <= j < |init| && init[j].pos == i;
          assert cs[j] == init[j];
        } else {
          assert cs[|cs| - 1].pos == i;
        }
      }
    }
  }

  /** Candidates are told apart by position, and by ID when the memory IDs are distinct. */
  lemma SimilarDistinct(ms: seq<Memory>, e: Event)
    ensures DistinctRanks(Similar(ms, e), ByPosition)
    ensures DistinctIds(ms) ==> DistinctRanks(Similar(ms, e), ById)
  {
  }

  predicate DistinctIds(ms: seq<Memory>)
  {
    forall i, j :: 0 <= i < j < |ms| ==> ms[i].event.id != ms[j].event.id
  }

  // ---------------------------------------------------------------------------------------
  // predict_emotion
  // ---------------------------------------------------------------------------------------

  /** The result of `predict_emotion`. */
  datatype Prediction = Prediction(emotion: string, intensity: real, supporting: seq<string>)

  /** Whether every candidate refers to a listed memory. */
  predicate InStore(ms: seq<Memory>, top: seq<Ranked>)
  {
    forall i :: 0 <= i < |top| ==> top[i].pos < |ms|
  }

  /** A supporting memory's vote: its label, weighted by similarity × intensity. */
  function Vote(ms: seq<Memory>, t: Ranked): (string, real)
    requires t.pos < |ms|
  {
    (ms[t.pos].emotion, t.key * ms[t.pos].intensity)
  }

  /** The votes of the supporting memories, in heap-pop order. */
  function SupportVotes(ms: seq<Memory>, top: seq<Ranked>): (ps: Tally.Votes)
    requires InStore(ms, top)
    ensures |ps| == |top|
    ensures forall i :: 0 <= i < |top| ==> ps[i] == Vote(ms, top[i])
  {
    seq(|top|, i requires 0 <= i < |top| => Vote(ms, top[i]))
  }

  function Keys(top: seq<Ranked>): (ks: seq<real>)
    ensures |ks| == |top| && forall i :: 0 <= i < |top| ==> ks[i] == top[i].key
  {
    seq(|top|, i requires 0 <= i < |top| => top[i].key)
  }

  function Ids(top: seq<Ranked>): (ids: seq<string>)
    ensures |ids| == |top| && forall i :: 0 <= i < |top| ==> ids[i] == top[i].id
  {
    seq(|top|, i requires 0 <= i < |top| => top[i].id)
  }

  lemma {:induction false} SumPositive(xs: seq<real>)
    requires xs != [] && forall i :: 0 <= i < |xs| ==> xs[i] > 0.0
    ensures Tally.Sum(xs) > 0.0
  {
    if |xs| > 1 {
      SumPositive(xs[..|xs| - 1]);
    }
  }

  /** The `k` best candidates: highest similarity first, ties by ascending Event ID (the heap key). */
  function Best(ms: seq<Memory>, e: Event, k: nat): (top: seq<Ranked>)
    ensures InStore(ms, top)
    ensures forall i :: 0 <= i < |top| ==> top[i].key > 0.0
  {
    var cs := Similar(ms, e);
    var top := TopK(cs, ById, k);
    TopKSubset(cs, ById, k);
    SimilarExactly(ms, e);
    forall i | 0 <= i < |top| ensures top[i].pos < |ms| && top[i].key > 0.0 {
      assert top[i] in cs;
    }
    top
  }

  /** `predict_emotion`: a similarity-weighted vote of the `k` most similar memories. The heap
      compares whole entries only when similarity and ID are both equal; the requires excludes that. */
  function PredictEmotion(ms: seq<Memory>, e: Event, k: nat): Prediction
    requires DistinctRanks(Similar(ms, e), ById)
  {
    var top := Best(ms, e, k);
    if top == [] then Prediction("Neutral", 0.0, [])
    else
      var votes := SupportVotes(ms, top);
      var predicted := Tally.Winner(votes);
      var totalWeight := Tally.Sum(Keys(top));
      SumPositive(Keys(top));
      Prediction(predicted, Round2(Tally.Total(votes, predicted) / totalWeight), Ids(top))
  }

  /** No memory with positive similarity (or `k` = 0): the neutral prediction, and only then. */
  lemma PredictNeutral(ms: seq<Memory>, e: Event, k: nat)
    requires DistinctRanks(Similar(ms, e), ById)
    ensures PredictEmotion(ms, e, k).supporting == [] <==>
      k == 0 || forall i :: 0 <= i < |ms| ==> Similarity(e, ms[i].event) == 0.0
    ensures PredictEmotion(ms, e, k).supporting == [] ==> PredictEmotion(ms, e, k) == Prediction("Neutral", 0.0, [])
  {
    var cs := Similar(ms, e);
    var top := Best(ms, e, k);
    var p := PredictEmotion(ms, e, k);
    assert |top| == if k < |cs| then k else |cs|;
    assert top == [] ==> p == Prediction("Neutral", 0.0, []);
    assert top != [] ==> p.supporting == Ids(top) && |p.supporting| > 0;
    SimilarExactly(ms, e);
    if cs != [] {
      assert Similarity(e, ms[cs[0].pos].event) > 0.0;
    }
    if exists i :: 0 <= i < |ms| && Similarity(e, ms[i].event) != 0.0 {
      var i :| 0 <= i < |ms| && Similarity(e, ms[i].event) != 0.0;
      assert Similarity(e, ms[i].event) > 0.0;
      assert |cs| > 0;
    }
  }

  /** The supporting IDs are those of the min(k, #similar) best candidates, best first: higher
      similarity first, equal similarity by ascending ID, and every similar memory left out ranks
      below all of them. */
  lemma PredictSupporting(ms: seq<Memory>, e: Event, k: nat)
    requires DistinctRanks(Similar(ms, e), ById)
    ensures var p := PredictEmotion(ms, e, k); var top := Best(ms, e, k);
      && p.supporting == Ids(top)
      && |top| == (if k < |Similar(ms, e)| then k else |Similar(ms, e)|)
      && Sorted(top, ById)
      && (forall c, t :: c in Similar(ms, e) && c !in top && t in top ==> Precedes(t, c, ById))
  {
    TopKBest(Similar(ms, e), ById, k);
  }

  /** The predicted emotion has the largest summed similarity × intensity among the supporting
      memories, the first-seen label winning ties; with stored intensities in [0, 1] the
      predicted intensity lies in [0, 1]. */
  lemma PredictWinner(ms: seq<Memory>, e: Event, k: nat)
    requires DistinctRanks(Similar(ms, e), ById)
    requires Best(ms, e, k) != []
    ensures var p := PredictEmotion(ms, e, k); var votes := SupportVotes(ms, Best(ms, e, k));
      && Tally.Occurs(votes, p.emotion)
      && (forall j :: 0 <= j < |votes| ==> Tally.Total(votes, votes[j].0) <= Tally.Total(votes, p.emotion))
      && (forall j :: 0 <= j < Tally.FirstIndexOf(votes, p.emotion) ==> Tally.Total(votes, votes[j].0) < Tally.Total(votes, p.emotion))
  {
    Tally.WinnerIsFirstMaximum(SupportVotes(ms, Best(ms, e, k)));
  }

  lemma VoteBounded(key: real, x: real, v: real)
    requires key > 0.0 && 0.0 <= x <= 1.0 && v == key * x
    ensures 0.0 <= v <= key
  {
  }

  lemma RatioInUnit(t: real, s: real)
    requires s > 0.0 && 0.0 <= t <= s
    ensures 0.0 <= t / s <= 1.0
  {
  }

  /** A label's share of the total weight, when each vote is at most its weight, rounds into [0, 1]. */
  lemma WeightedShareInUnit(votes: Tally.Votes, keys: seq<real>, w: string)
    requires |votes| == |keys| > 0
    requires forall i :: 0 <= i < |keys| ==> keys[i] > 0.0 && 0.0 <= votes[i].1 <= keys[i]
    ensures Tally.Sum(keys) > 0.0
    ensures 0.0 <= Round2(Tally.Total(votes, w) / Tally.Sum(keys)) <= 1.0
  {
    Tally.TotalBounded(votes, keys, w);
    SumPositive(keys);
    var s := Tally.Sum(keys);
    var t := Tally.Total(votes, w);
    RatioInUnit(t, s);
    Round2Within(t / s, 0, 1);
  }

  /** Each vote of positive-weight supporters with intensities in [0, 1] lies between 0 and its weight. */
  lemma VotesBounded(ms: seq<Memory>, top: seq<Ranked>)
    requires InStore(ms, top)
    requires forall i :: 0 <= i < |top| ==> top[i].key > 0.0
    requires forall i :: 0 <= i < |ms| ==> 0.0 <= ms[i].intensity <= 1.0
    ensures var votes := SupportVotes(ms, top); var keys := Keys(top);
      forall i :: 0 <= i < |votes| ==> keys[i] > 0.0 && 0.0 <= votes[i].1 <= keys[i]
  {
    var votes := SupportVotes(ms, top);
    var keys := Keys(top);
    forall i | 0 <= i < |votes| ensures keys[i] > 0.0 && 0.0 <= votes[i].1 <= keys[i] {
      var t := top[i];
      assert votes[i] == Vote(ms, t);
      VoteBounded(t.key, ms[t.pos].intensity, votes[i].1);
    }
  }

  lemma PredictIntensityInUnit(ms: seq<Memory>, e: Event, k: nat)
    requires DistinctRanks(Similar(ms, e), ById)
    requires forall i :: 0 <= i < |ms| ==> 0.0 <= ms[i].intensity <= 1.0
    ensures 0.0 <= PredictEmotion(ms, e, k).intensity <= 1.0
  {
    var top := Best(ms, e, k);
    if top != [] {
      var votes := SupportVotes(ms, top);
      var keys := Keys(top);
      VotesBounded(ms, top);
      WeightedShareInUnit(votes, keys, Tally.Winner(votes));
    }
  }

  /** A stored "dark room" memory felt as Fear at 0.6, alone, by day and urgently: a new event with
      the same features and contexts is predicted as Fear at 0.6, supported by that memory alone. */
  lemma PredictExample()
    ensures var t := Time("Day", "Urgent");
      var ms := [Memory(Event("m1", ["dark room"], t, "Alone", "stored"), "Fear", 0.6)];
      var e := Event("e2", ["dark room"], t, "Alone", "new");
      DistinctRanks(Similar(ms, e), ById) && PredictEmotion(ms, e, 5) == Prediction("Fear", 0.6, ["m1"])
  {
    var t := Time("Day", "Urgent");
    var ms := [Memory(Event("m1", ["dark room"], t, "Alone", "stored"), "Fear", 0.6)];
    var e := Event("e2", ["dark room"], t, "Alone", "new");
    var c := Ranked(1.0, 0, "m1");
    ExampleSimilar(ms, e);
    SingleBest(ms, e, c);
    var top := Best(ms, e, 5);
    ExampleVote(ms, top);
    var votes := SupportVotes(ms, top);
    assert Tally.Winner(votes) == "Fear" && Tally.Total(votes, "Fear") == 0.6 && Tally.Sum(Keys(top)) == 1.0;
    Round2Exact(60);
    assert Round2(0.6 / 1.0) == 0.6;
    assert Ids(top) == ["m1"];
    assert PredictEmotion(ms, e, 5) == Prediction("Fear", Round2(0.6 / 1.0), ["m1"]);
  }

  /** A single similar memory is the whole top five. */
  lemma SingleBest(ms: seq<Memory>, e: Event, c: Ranked)
    requires Similar(ms, e) == [c]
    ensures DistinctRanks(Similar(ms, e), ById) && Best(ms, e, 5) == [c]
  {
    assert [c][1..] == [];
    assert Rank([c], ById) == [c];
  }

  lemma ExampleSimilar(ms: seq<Memory>, e: Event)
    requires |ms| == 1 && ms[0].event.id == "m1" && ms[0].event.features == ["dark room"] == e.features
    requires ms[0].event.social == e.social == "Alone" && ms[0].event.temporal == e.temporal == Time("Day", "Urgent")
    ensures Similar(ms, e) == [Ranked(1.0, 0, "m1")]
  {
    var fs := FeatureSet(["dark room"]);
    assert "dark room" in fs;
    assert fs == {"dark room"};
    assert fs * fs == fs && fs + fs == fs;
    assert |fs| == 1;
    assert Jaccard(e.features, ms[0].event.features) == 1.0;
    assert Similarity(e, ms[0].event) == 1.0;
    assert ms[..0] == [];
  }

  /** One supporting memory of similarity 1.0 votes its own label and intensity. */
  lemma ExampleVote(ms: seq<Memory>, top: seq<Ranked>)
    requires |top| == 1 && top[0].key == 1.0 && InStore(ms, top)
    ensures var votes := SupportVotes(ms, top); var m := ms[top[0].pos];
      Tally.Winner(votes) == m.emotion && Tally.Total(votes, m.emotion) == m.intensity && Tally.Sum(Keys(top)) == 1.0
  {
    assert Keys(top) == [1.0];
    assert Keys(top)[..0] == [];
    var votes := SupportVotes(ms, top);
    var m := ms[top[0].pos];
    assert votes == [(m.emotion, 1.0 * m.intensity)];
    assert votes[..0] == [];
    assert Tally.Accumulate(votes) == [(m.emotion, m.intensity)];
  }

  /** Rounding an exact multiple of 0.01 leaves it unchanged. */
  lemma Round2Exact(n: int)
    ensures Round2(n as real / 100.0) == n as real / 100.0
  {
    var x := n as real / 100.0;
    assert x * 100.0 + 0.5 == n as real + 0.5;
    assert (x * 100.0 + 0.5).Floor == n;
  }

  // ---------------------------------------------------------------------------------------
  // learn_from_emotional_error: bands, revision of the top supporting memories
  // ---------------------------------------------------------------------------------------

  /** The error bands of `error_thresholds=(0.2, 0.5)`. */
  datatype Band = Low | Moderate | High

  const LowCut: real := 0.2
  const HighCut: real := 0.5

  function BandOf(err: real): Band
  {
    if err < LowCut then Low else if err < HighCut then Moderate else High
  }

  /** The intensity a revised memory gets: reinforced by 0.05 up to 1.0 (low), averaged with the
      actual intensity (moderate), or weakened by 0.2 down to 0.0 (high), each rounded to two places. */
  function Adjusted(band: Band, x: real, actual: real): real
  {
    match band
    case Low => Round2(Min(x + 0.05, 1.0))
    case Moderate => Round2((x + actual) / 2.0)
    case High => Round2(Max(x - 0.2, 0.0))
  }

  /** Revision keeps intensities in [0, 1]. */
  lemma AdjustedInUnit(band: Band, x: real, actual: real)
    requires 0.0 <= x <= 1.0
    requires band == Moderate ==> 0.0 <= actual <= 1.0
    ensures 0.0 <= Adjusted(band, x, actual) <= 1.0
  {
    match band
    case Low => Round2Within(Min(x + 0.05, 1.0), 0, 1);
    case Moderate => Round2Within((x + actual) / 2.0, 0, 1);
    case High => Round2Within(Max(x - 0.2, 0.0), 0, 1);
  }

  /** A small error reinforces (never lowers) an intensity and a large one weakens (never raises) it. */
  lemma AdjustedDirection(x: real, actual: real)
    requires 0.0 <= x <= 1.0
    ensures Adjusted(Low, x, actual) >= x
    ensures Adjusted(High, x, actual) <= x
  {
    if x + 0.05 > 1.0 {
      Round2Within(1.0, 1, 1);
    }
    if x - 0.2 < 0.0 {
      Round2Within(0.0, 0, 0);
    }
  }

  /** The positions of the (at most) five most similar memories: `similar_memories` sorted by
      descending similarity with Python's stable sort, so equal similarities keep list order. */
  function TopSupporting(ms: seq<Memory>, e: Event): (ps: seq<nat>)
    ensures |ps| <= 5
    ensures forall i :: 0 <= i < |ps| ==> ps[i] < |ms|
  {
    var cs := Similar(ms, e);
    var top := TopK(cs, ByPosition, 5);
    TopKSubset(cs, ByPosition, 5);
    assert forall i :: 0 <= i < |top| ==> top[i].pos < |ms| by {
      forall i | 0 <= i < |top| ensures top[i].pos < |ms| {
        assert top[i] in cs;
      }
    }
    seq(|top|, i requires 0 <= i < |top| => top[i].pos)
  }

  /** The top supporting memories are distinct, similar to the event, as many as there are
      similar memories up to five, and at least as similar as every similar memory left out. */
  lemma TopSupportingBest(ms: seq<Memory>, e: Event)
    ensures var ps := TopSupporting(ms, e);
      && (forall i, j :: 0 <= i < j < |ps| ==> ps[i] != ps[j])
      && (forall i :: 0 <= i < |ps| ==> Similarity(e, ms[ps[i]].event) > 0.0)
      && |ps| == (if |Similar(ms, e)| < 5 then |Similar(ms, e)| else 5)
      && (forall i, q :: 0 <= i < |ms| && Similarity(e, ms[i].event) > 0.0 && i !in ps && 0 <= q < |ps| ==>
            Similarity(e, ms[ps[q]].event) >= Similarity(e, ms[i].event))
  {
    var cs := Similar(ms, e);
    var top := TopK(cs, ByPosition, 5);
    var ps := TopSupporting(ms, e);
    SimilarDistinct(ms, e);
    SimilarExactly(ms, e);
    TopKBest(cs, ByPosition, 5);
    forall i | 0 <= i < |ps| ensures top[i] in cs && top[i] == Candidate(ms, e, ps[i]) {
      assert top[i] in top;
    }
    forall i, j | 0 <= i < j < |ps| ensures ps[i] != ps[j] {
      assert Precedes(top[i], top[j], ByPosition);
    }
    forall i, q | 0 <= i < |ms| && Similarity(e, ms[i].event) > 0.0 && i !in ps && 0 <= q < |ps|
      ensures Similarity(e, ms[ps[q]].event) >= Similarity(e, ms[i].event)
    {
      var j :| 0 <= j < |cs| && cs[j].pos == i;
      forall r | 0 <= r < |top| ensures top[r] != cs[j] {
        assert ps[r] == top[r].pos;
      }
      assert cs[j] !in top;
      assert top[q] in top;
      assert Precedes(top[q], cs[j], ByPosition);
    }
  }

  /** The memories after the revision loop: each listed position carrying `emo` gets the adjusted
      intensity, read from the list as the loop finds it. */
  function Revise(ms: seq<Memory>, ps: seq<nat>, emo: string, band: Band, actual: real): (r: seq<Memory>)
    requires forall i :: 0 <= i < |ps| ==> ps[i] < |ms|
    ensures |r| == |ms|
  {
    if ps == [] then ms
    else
      var r0 := Revise(ms, ps[..|ps| - 1], emo, band, actual);
      var p := ps[|ps| - 1];
      if r0[p].emotion == emo then r0[p := r0[p].(intensity := Adjusted(band, r0[p].intensity, actual))] else r0
  }

  /** The IDs the revision loop reports in "Updated Memories", in loop order. */
  function UpdatedIds(ms: seq<Memory>, ps: seq<nat>, emo: string): seq<string>
    requires forall i :: 0 <= i < |ps| ==> ps[i] < |ms|
  {
    if ps == [] then []
    else
      var p := ps[|ps| - 1];
      UpdatedIds(ms, ps[..|ps| - 1], emo) + (if ms[p].emotion == emo then [ms[p].event.id] else [])
  }

  /** Revision changes intensities only: IDs, labels, the rest of each record and list positions stay. */
  lemma {:induction false} ReviseKeepsIdsAndLabels(ms: seq<Memory>, ps: seq<nat>, emo: string, band: Band, actual: real)
    requires forall i :: 0 <= i < |ps| ==> ps[i] < |ms|
    ensures forall i :: 0 <= i < |ms| ==>
      Revise(ms, ps, emo, band, actual)[i].event == ms[i].event && Revise(ms, ps, emo, band, actual)[i].emotion == ms[i].emotion
  {
    if ps != [] {
      ReviseKeepsIdsAndLabels(ms, ps[..|ps| - 1], emo, band, actual);
    }
  }

  /** With distinct positions, exactly the listed memories carrying `emo` get the adjusted intensity;
      every other memory keeps its intensity. */
  lemma {:induction false} ReviseIntensities(ms: seq<Memory>, ps: seq<nat>, emo: string, band: Band, actual: real)
    requires forall i :: 0 <= i < |ps| ==> ps[i] < |ms|
    requires forall i, j :: 0 <= i < j < |ps| ==> ps[i] != ps[j]
    ensures forall i :: 0 <= i < |ms| ==>
      Revise(ms, ps, emo, band, actual)[i].intensity ==
        if i in ps && ms[i].emotion == emo then Adjusted(band, ms[i].intensity, actual) else ms[i].intensity
  {
    if ps != [] {
      var init := ps[..|ps| - 1];
      var p := ps[|ps| - 1];
      ReviseIntensities(ms, init, emo, band, actual);
      ReviseKeepsIdsAndLabels(ms, init, emo, band, actual);
      assert p !in init;
      forall i | 0 <= i < |ms| ensures i in ps <==> i in init || i == p {
        assert ps == init + [p];
      }
    }
  }

  /** Revision with in-range inputs keeps every stored intensity in [0, 1]. */
  lemma {:induction false} ReviseInUnit(ms: seq<Memory>, ps: seq<nat>, emo: string, band: Band, actual: real)
    requires forall i :: 0 <= i < |ps| ==> ps[i] < |ms|
    requires forall i :: 0 <= i < |ms| ==> 0.0 <= ms[i].intensity <= 1.0
    requires band == Moderate ==> 0.0 <= actual <= 1.0
    ensures forall i :: 0 <= i < |ms| ==> 0.0 <= Revise(ms, ps, emo, band, actual)[i].intensity <= 1.0
  {
    if ps != [] {
      var init := ps[..|ps| - 1];
      ReviseInUnit(ms, init, emo, band, actual);
      var r0 := Revise(ms, init, emo, band, actual);
      AdjustedInUnit(band, r0[ps[|ps| - 1]].intensity, actual);
    }
  }

  // ---------------------------------------------------------------------------------------
  // update_bias_meter: the bias meter, the emotional timeline and the contradiction log
  // ---------------------------------------------------------------------------------------

  /** One record of a concept's emotional timeline. */
  datatype TimelineEntry = TimelineEntry(emotion: string, intensity: real, timestamp: string)

  /** One record of the contradiction log. */
  datatype ContradictionEntry = ContradictionEntry(
    concept: string, priorEmotion: string, newEmotion: string, error: real, eventId: string, timestamp: string)

  type Meter = map<string, map<string, nat>>
  type Timeline = map<string, seq<TimelineEntry>>

  /** The meter after one more observation of `emo` for `concept`. */
  function Bumped(meter: Meter, concept: string, emo: string): Meter
  {
    var counts := if concept in meter then meter[concept] else map[];
    meter[concept := counts[emo := (if emo in counts then counts[emo] else 0) + 1]]
  }

  /** The timeline after appending `entry` to `concept`'s history. */
  function Extended(timeline: Timeline, concept: string, entry: TimelineEntry): Timeline
  {
    timeline[concept := (if concept in timeline then timeline[concept] else []) + [entry]]
  }

  /** The count for (concept, emotion) rises by exactly one, from zero when absent; every other
      count stays as it was and no count disappears. */
  lemma BumpedCounts(meter: Meter, concept: string, emo: string)
    ensures var m := Bumped(meter, concept, emo);
      && m.Keys == meter.Keys + {concept}
      && m[concept][emo] == 1 + (if concept in meter && emo in meter[concept] then meter[concept][emo] else 0)
      && (forall c, x :: c in meter && x in meter[c] && (c, x) != (concept, emo) ==> x in m[c] && m[c][x] == meter[c][x])
      && (forall x :: x in m[concept] ==> x == emo || (concept in meter && x in meter[concept]))
  {
  }

  /** The number of timeline records carrying `emo`. */
  function CountIn(h: seq<TimelineEntry>, emo: string): nat
  {
    if h == [] then 0 else CountIn(h[..|h| - 1], emo) + (if h[|h| - 1].emotion == emo then 1 else 0)
  }

  /** The meter counts exactly what the timeline records: the same concepts, a non-empty history
      for each, and for each emotion seen its number of records. */
  ghost predicate Tracks(meter: Meter, timeline: Timeline)
  {
    && meter.Keys == timeline.Keys
    && forall c :: c in meter ==> CountsHistory(meter[c], timeline[c])
  }

  /** One concept's counts against its history: the history is not empty and each emotion seen
      has its number of records, and no other emotion is listed. */
  ghost predicate CountsHistory(counts: map<string, nat>, h: seq<TimelineEntry>)
  {
    && h != []
    && (forall x :: x in counts <==> CountIn(h, x) > 0)
    && (forall x :: x in counts ==> counts[x] == CountIn(h, x))
  }

  /** `update_bias_meter` keeps the meter and the timeline in step. */
  lemma UpdateKeepsTracks(meter: Meter, timeline: Timeline, concept: string, entry: TimelineEntry)
    requires Tracks(meter, timeline)
    ensures Tracks(Bumped(meter, concept, entry.emotion), Extended(timeline, concept, entry))
  {
    var m, t := Bumped(meter, concept, entry.emotion), Extended(timeline, concept, entry);
    var counts := if concept in meter then meter[concept] else map[];
    var h := if concept in timeline then timeline[concept] else [];
    assert t[concept][..|t[concept]| - 1] == h;
    if concept in meter {
      assert CountsHistory(counts, h);
    } else {
      forall x ensures CountIn(h, x) == 0 { }
    }
    forall c | c in m ensures CountsHistory(m[c], t[c]) {
      if c != concept {
        assert m[c] == meter[c] && t[c] == timeline[c];
      } else {
        forall x ensures CountIn(t[c], x) == CountIn(h, x) + (if x == entry.emotion then 1 else 0) { }
      }
    }
  }

  /** The bias meter, emotional timeline and contradiction log the orchestrator owns and the
      learner updates in place. */
  class BiasTracker {
    var meter: Meter
    var timeline: Timeline
    var log: seq<ContradictionEntry>

    /** The meter always counts what the timeline records. */
    ghost predicate Valid()
      reads this
    {
      Tracks(meter, timeline)
    }

    /** The orchestrator starts with an empty meter, timeline and log. */
    constructor ()
      ensures meter == map[] && timeline == map[] && log == []
      ensures Valid()
    {
      meter, timeline, log := map[], map[], [];
    }

    /** `update_bias_meter`: count one more `emotion` for the memory's concept and append a timeline record. */
    method UpdateBiasMeter(m: Memory, timestamp: string)
      requires Valid()
      modifies this
      ensures Valid()
      ensures meter == Bumped(old(meter), Concept(m.event), m.emotion)
      ensures timeline == Extended(old(timeline), Concept(m.event), TimelineEntry(m.emotion, m.intensity, timestamp))
      ensures log == old(log)
    {
      var concept := Concept(m.event);
      var emotion := m.emotion;
      UpdateKeepsTracks(meter, timeline, concept, TimelineEntry(emotion, m.intensity, timestamp));
      var counts := if concept in meter then meter[concept] else map[];
      ghost var counts0 := counts;
      ghost var before := if emotion in counts then counts[emotion] else 0;
      if emotion !in counts {
        counts := counts[emotion := 0];
      }
      counts := counts[emotion := counts[emotion] + 1];
      assert counts == counts0[emotion := before + 1];
      meter := meter[concept := counts];
      var h := if concept in timeline then timeline[concept] else [];
      timeline := timeline[concept := h + [TimelineEntry(emotion, m.intensity, timestamp)]];
    }
  }

  // ---------------------------------------------------------------------------------------
  // learn_from_emotional_error
  // ---------------------------------------------------------------------------------------

  /** The dictionary `learn_from_emotional_error` returns. */
  datatype LearningResult = LearningResult(
    error: real, emotionMatch: bool, updated: seq<string>, contradictionLogged: bool, newMemory: Option<string>)

  /** `f"event_{uuid.uuid4().hex[:6]}"`, from the uuid's hex digits. */
  function NewEventId(uuidHex: string): string
  {
    "event_" + (if |uuidHex| <= 6 then uuidHex else uuidHex[..6])
  }

  /** The memory built for a contradicting event: the event's fields under the new ID, the actual
      label and the actual intensity rounded to two places. */
  function NewMemory(e: Event, actual: Tag, id: string): Memory
  {
    Memory(e.(id := id), actual.emotion, Round2(actual.intensity))
  }

  /** One more step of the revision: the memory at the next position keeps its ID and label, and
      has its intensity adjusted when it carries `emo`. */
  lemma ReviseNext(ms: seq<Memory>, ps: seq<nat>, i: nat, emo: string, band: Band, actual: real)
    requires i < |ps| && forall j :: 0 <= j < |ps| ==> ps[j] < |ms|
    ensures var r0 := Revise(ms, ps[..i], emo, band, actual); var p := ps[i];
      && r0[p].emotion == ms[p].emotion && r0[p].event == ms[p].event
      && Revise(ms, ps[..i + 1], emo, band, actual)
         == (if ms[p].emotion == emo then r0[p := r0[p].(intensity := Adjusted(band, r0[p].intensity, actual))] else r0)
      && UpdatedIds(ms, ps[..i + 1], emo) == UpdatedIds(ms, ps[..i], emo) + (if ms[p].emotion == emo then [ms[p].event.id] else [])
  {
    assert ps[..i + 1][..i] == ps[..i];
    ReviseKeepsIdsAndLabels(ms, ps[..i], emo, band, actual);
  }

  /** The revision loop: each top supporting memory that carries `emo` gets its adjusted intensity. */
  method ReviseTopSupporting(store: MemoryStore, ps: seq<nat>, emo: string, band: Band, actual: real)
    returns (updates: seq<string>)
    requires store.Valid()
    requires forall i :: 0 <= i < |ps| ==> ps[i] < |store.memories|
    modifies store
    ensures store.Valid()
    ensures store.memories == Revise(old(store.memories), ps, emo, band, actual)
    ensures store.index == old(store.index)
    ensures updates == UpdatedIds(old(store.memories), ps, emo)
  {
    ghost var ms0 := store.memories;
    updates := [];
    var i := 0;
    while i < |ps|
      invariant 0 <= i <= |ps|
      invariant store.Valid()
      invariant store.memories == Revise(ms0, ps[..i], emo, band, actual)
      invariant store.index == old(store.index)
      invariant updates == UpdatedIds(ms0, ps[..i], emo)
    {
      var p := ps[i];
      ReviseNext(ms0, ps, i, emo, band, actual);
      if store.memories[p].emotion == emo {
        store.SetIntensity(p, Adjusted(band, store.memories[p].intensity, actual));
        updates := updates + [store.memories[p].event.id];
      }
      i := i + 1;
    }
    assert ps[..i] == ps;
  }

  /** `learn_from_emotional_error`. `uuidHex` is the hex form of the uuid drawn for a new memory,
      `logStamp` and `meterStamp` the two `datetime.now()` readings (contradiction, timeline). */
  method LearnFromEmotionalError(
    tracker: BiasTracker, store: MemoryStore, event: Event, predicted: Prediction, actual: Tag,
    uuidHex: string, logStamp: string, meterStamp: string)
    returns (result: LearningResult)
    requires store.Valid() && tracker.Valid()
    requires BandOf(Abs(predicted.intensity - actual.intensity)) == High && predicted.emotion != actual.emotion
      ==> actual.emotion in store.index
    modifies tracker, store
    ensures store.Valid() && tracker.Valid()
    ensures result.error == Round2(Abs(predicted.intensity - actual.intensity))
    ensures result.emotionMatch == (predicted.emotion == actual.emotion)
    ensures var band := BandOf(Abs(predicted.intensity - actual.intensity));
      var ps := TopSupporting(old(store.memories), event);
      band == Low || predicted.emotion == actual.emotion ==>
        && store.memories == Revise(old(store.memories), ps, predicted.emotion, band, actual.intensity)
        && store.index == old(store.index)
        && result.updated == UpdatedIds(old(store.memories), ps, predicted.emotion)
        && !result.contradictionLogged && result.newMemory == None
        && tracker.meter == old(tracker.meter) && tracker.timeline == old(tracker.timeline) && tracker.log == old(tracker.log)
    ensures var err := Abs(predicted.intensity - actual.intensity);
      var id := NewEventId(uuidHex);
      var m := NewMemory(event, actual, id);
      BandOf(err) != Low && predicted.emotion != actual.emotion ==>
        && result.updated == [] && result.contradictionLogged && result.newMemory == Some(id)
        && tracker.log == old(tracker.log) + [ContradictionEntry(Concept(event), predicted.emotion, actual.emotion, Round2(err), id, logStamp)]
        && tracker.meter == Bumped(old(tracker.meter), Concept(event), actual.emotion)
        && tracker.timeline == Extended(old(tracker.timeline), Concept(event), TimelineEntry(actual.emotion, m.intensity, meterStamp))
        && (BandOf(err) == High ==> store.memories == old(store.memories) + [m] && store.index == File(old(store.index), actual.emotion, id))
        && (BandOf(err) == Moderate ==> store.memories == old(store.memories) && store.index == old(store.index))
  {
    var err := Abs(predicted.intensity - actual.intensity);
    var emotionMatch := predicted.emotion == actual.emotion;
    var ps := TopSupporting(store.memories, event);
    var updates: seq<string> := [];
    var added: Option<string> := None;
    var logged := false;
    var band := BandOf(err);
    if band == Low {
      updates := ReviseTopSupporting(store, ps, predicted.emotion, band, actual.intensity);
    } else if emotionMatch {
      updates := ReviseTopSupporting(store, ps, predicted.emotion, band, actual.intensity);
    } else {
      logged := true;
      var id := NewEventId(uuidHex);
      var m := NewMemory(event, actual, id);
      if band == High {
        store.StoreMemory(m.event, Tag(m.emotion, m.intensity));
      }
      added := Some(id);
      tracker.log := tracker.log + [ContradictionEntry(Concept(event), predicted.emotion, actual.emotion, Round2(err), id, logStamp)];
      tracker.UpdateBiasMeter(m, meterStamp);
    }
    result := LearningResult(Round2(err), emotionMatch, updates, logged, added);
  }

  // ---------------------------------------------------------------------------------------
  // generate_bias_shift_report
  // ---------------------------------------------------------------------------------------

  /** The report on a concept's emotional history, or the no-data error. */
  datatype ShiftReport =
    | NoData(message: string)
    | Report(concept: string, distribution: seq<(string, real)>, dominant: string, recentDominant: string,
             shiftDetected: bool, lastUpdated: string)

  /** Each timeline record as one vote for its emotion. */
  function CountVotes(h: seq<TimelineEntry>): (ps: Tally.Votes)
    ensures |ps| == |h| && forall i :: 0 <= i < |h| ==> ps[i] == (h[i].emotion, 1.0)
  {
    seq(|h|, i requires 0 <= i < |h| => (h[i].emotion, 1.0))
  }

  /** `history[-5:]`: the last five records, or all of them. */
  function Recent(h: seq<TimelineEntry>): (r: seq<TimelineEntry>)
    ensures |r| == if |h| < 5 then |h| else 5
    ensures r == h[|h| - |r|..]
  {
    h[|h| - (if |h| < 5 then |h| else 5)..]
  }

  /** "Emotion Distribution": each emotion of the history, first-seen first, with its share of the records in percent. */
  function Distribution(h: seq<TimelineEntry>): seq<(string, real)>
    requires h != []
  {
    var counts := Tally.Accumulate(CountVotes(h));
    seq(|counts|, i requires 0 <= i < |counts| => (counts[i].0, Round2(counts[i].1 / |h| as real * 100.0)))
  }

  /** `generate_bias_shift_report`. `max` over an empty history would raise, so a listed concept
      must have at least one record. */
  function GenerateBiasShiftReport(timeline: Timeline, concept: string): (r: ShiftReport)
    requires concept in timeline ==> timeline[concept] != []
    ensures r.NoData? <==> concept !in timeline
    ensures r.NoData? ==> r.message == "No data for concept '" + concept + "'"
    ensures r.Report? ==> r.concept == concept && r.lastUpdated == timeline[concept][|timeline[concept]| - 1].timestamp
  {
    if concept !in timeline then NoData("No data for concept '" + concept + "'")
    else
      var h := timeline[concept];
      var dominant := Tally.Winner(CountVotes(h));
      var recentDominant := Tally.Winner(CountVotes(Recent(h)));
      Report(concept, Distribution(h), dominant, recentDominant, dominant != recentDominant, h[|h| - 1].timestamp)
  }

  /** Counting votes of weight one counts records. */
  lemma {:induction false} CountVotesTotal(h: seq<TimelineEntry>, x: string)
    ensures Tally.Total(CountVotes(h), x) == CountIn(h, x) as real
    ensures CountIn(h, x) <= |h|
  {
    if h != [] {
      var n := |h| - 1;
      assert CountVotes(h)[..n] == CountVotes(h[..n]);
      CountVotesTotal(h[..n], x);
    }
  }

  lemma PercentInRange(c: nat, n: nat)
    requires 0 < n && c <= n
    ensures 0.0 <= Round2(c as real / n as real * 100.0) <= 100.0
  {
    RatioInUnit(c as real, n as real);
    Round2Within(c as real / n as real * 100.0, 0, 100);
  }

  /** The distribution lists each emotion of the history exactly once, and nothing else. */
  lemma DistributionLabels(h: seq<TimelineEntry>)
    requires h != []
    ensures Tally.DistinctLabels(Distribution(h))
    ensures forall i :: 0 <= i < |h| ==> Tally.Occurs(Distribution(h), h[i].emotion)
    ensures forall p :: 0 <= p < |Distribution(h)| ==> CountIn(h, Distribution(h)[p].0) > 0
  {
    var votes := CountVotes(h);
    var counts := Tally.Accumulate(votes);
    var d := Distribution(h);
    Tally.AccumulateLabels(votes);
    assert forall p :: 0 <= p < |d| ==> d[p].0 == counts[p].0;
    forall p | 0 <= p < |d| ensures CountIn(h, d[p].0) > 0 {
      var j :| 0 <= j < |votes| && votes[j].0 == counts[p].0;
      CountPositive(h, j);
    }
    forall i | 0 <= i < |h| ensures Tally.Occurs(d, h[i].emotion) {
      assert votes[i].0 == h[i].emotion;
      var p :| 0 <= p < |counts| && counts[p].0 == h[i].emotion;
      assert d[p].0 == h[i].emotion;
    }
  }

  /** Each emotion's percentage is its number of records over the history's length, times 100,
      rounded to two places, and so lies in [0, 100]. */
  lemma DistributionShares(h: seq<TimelineEntry>)
    requires h != []
    ensures forall p :: 0 <= p < |Distribution(h)| ==>
      && Distribution(h)[p].1 == Round2(CountIn(h, Distribution(h)[p].0) as real / |h| as real * 100.0)
      && 0.0 <= Distribution(h)[p].1 <= 100.0
  {
    forall p | 0 <= p < |Distribution(h)|
      ensures Distribution(h)[p].1 == Round2(CountIn(h, Distribution(h)[p].0) as real / |h| as real * 100.0)
      ensures 0.0 <= Distribution(h)[p].1 <= 100.0
    {
      DistributionEntry(h, p);
    }
  }

  lemma DistributionEntry(h: seq<TimelineEntry>, p: nat)
    requires h != [] && p < |Distribution(h)|
    ensures Distribution(h)[p].1 == Round2(CountIn(h, Distribution(h)[p].0) as real / |h| as real * 100.0)
    ensures 0.0 <= Distribution(h)[p].1 <= 100.0
  {
    var votes := CountVotes(h);
    var counts := Tally.Accumulate(votes);
    var e := counts[p].0;
    Tally.EntryIsTotal(votes, p);
    CountVotesTotal(h, e);
    var c := CountIn(h, e);
    assert Distribution(h)[p] == (e, Round2(counts[p].1 / |h| as real * 100.0));
    PercentInRange(c, |h|);
  }

  lemma {:induction false} CountPositive(h: seq<TimelineEntry>, j: nat)
    requires j < |h|
    ensures CountIn(h, h[j].emotion) > 0
  {
    var n := |h| - 1;
    if j < n {
      CountPositive(h[..n], j);
    }
  }

  /** `w` is what `max(counts.items(), key=...)` picks over a history's counts: an emotion of the
      history with the most records, and the first seen on ties, so every emotion with as many
      records has its record at or after `w`'s first one. */
  predicate FirstMostFrequent(h: seq<TimelineEntry>, w: string)
  {
    && (exists i :: 0 <= i < |h| && h[i].emotion == w)
    && (forall i :: 0 <= i < |h| ==> CountIn(h, h[i].emotion) <= CountIn(h, w))
    && (forall j :: 0 <= j < |h| && CountIn(h, h[j].emotion) == CountIn(h, w) ==>
          exists i :: 0 <= i <= j && h[i].emotion == w)
  }

  /** "Dominant Emotion" is the most frequent emotion of the full history and "Recent Dominant" that
      of the last five records, each the first seen on ties; "Shift Detected" holds iff they differ. */
  lemma ReportDominants(timeline: Timeline, concept: string)
    requires concept in timeline && timeline[concept] != []
    ensures var h := timeline[concept];
      var r := GenerateBiasShiftReport(timeline, concept);
      && r.Report?
      && FirstMostFrequent(h, r.dominant)
      && FirstMostFrequent(Recent(h), r.recentDominant)
      && (r.shiftDetected <==> r.dominant != r.recentDominant)
  {
    var h := timeline[concept];
    DominantIsMostFrequent(h);
    DominantIsMostFrequent(Recent(h));
  }

  /** The first most frequent emotion is unique: ties leave no choice, so the report's dominants,
      and whether a shift is detected, are fixed by the history. */
  lemma FirstMostFrequentUnique(h: seq<TimelineEntry>, w: string, w': string)
    requires FirstMostFrequent(h, w) && FirstMostFrequent(h, w')
    ensures w == w'
  {
    var f := FirstRecordOf(h, w);
    var f' := FirstRecordOf(h, w');
    assert CountIn(h, w) == CountIn(h, w') by {
      assert CountIn(h, h[f].emotion) <= CountIn(h, w');
      assert CountIn(h, h[f'].emotion) <= CountIn(h, w);
    }
    var k :| 0 <= k <= f' && h[k].emotion == w;
    var k' :| 0 <= k' <= f && h[k'].emotion == w';
    assert f <= k && f' <= k';
  }

  /** The first record of an emotion the history holds. */
  lemma FirstRecordOf(h: seq<TimelineEntry>, w: string) returns (f: nat)
    requires exists i :: 0 <= i < |h| && h[i].emotion == w
    ensures f < |h| && h[f].emotion == w && forall j :: 0 <= j < f ==> h[j].emotion != w
  {
    var votes := CountVotes(h);
    var i :| 0 <= i < |h| && h[i].emotion == w;
    assert votes[i].0 == w;
    f := Tally.FirstIndexOf(votes, w);
    assert forall j :: 0 <= j < f ==> votes[j].0 == h[j].emotion;
  }

  /** The winner of the record counts, read back on the history: its first record, no emotion with
      more records, and strictly fewer records for every emotion seen before it. */
  lemma WinnerCounts(h: seq<TimelineEntry>) returns (f: nat)
    requires h != []
    ensures var w := Tally.Winner(CountVotes(h));
      && f < |h| && h[f].emotion == w
      && (forall j :: 0 <= j < |h| ==> CountIn(h, h[j].emotion) <= CountIn(h, w))
      && (forall j :: 0 <= j < f ==> CountIn(h, h[j].emotion) < CountIn(h, w))
  {
    var votes := CountVotes(h);
    var w := Tally.Winner(votes);
    Tally.WinnerIsFirstMaximum(votes);
    f := Tally.FirstIndexOf(votes, w);
    CountVotesTotal(h, w);
    forall j | 0 <= j < |h|
      ensures CountIn(h, h[j].emotion) <= CountIn(h, w)
      ensures j < f ==> CountIn(h, h[j].emotion) < CountIn(h, w)
    {
      assert votes[j].0 == h[j].emotion;
      CountVotesTotal(h, h[j].emotion);
    }
  }

  lemma DominantIsMostFrequent(h: seq<TimelineEntry>)
    requires h != []
    ensures FirstMostFrequent(h, Tally.Winner(CountVotes(h)))
  {
    var w := Tally.Winner(CountVotes(h));
    var f := WinnerCounts(h);
    forall j | 0 <= j < |h| && CountIn(h, h[j].emotion) == CountIn(h, w)
      ensures exists i :: 0 <= i <= j && h[i].emotion == w
    {
      assert f <= j;
    }
  }

  /** With at most five records the recent window is the whole history: no shift is reported. */
  lemma ShortHistoryNoShift(timeline: Timeline, concept: string)
    requires concept in timeline && 0 < |timeline[concept]| <= 5
    ensures !GenerateBiasShiftReport(timeline, concept).shiftDetected
  {
    assert Recent(timeline[concept]) == timeline[concept];
  }
}
