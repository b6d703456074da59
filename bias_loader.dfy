/** The bias summary handed to the language model (src/bias_loader.py). Reading the two JSON
    files is not modelled: each comes in as its decoded contents, or `None` when the file does
    not exist. `random.sample` is a nondeterministic choice of the right size. */
module BiasLoader {
  import opened Wrappers
  import opened Text
  import opened Ranking

  /** One concept of the bias file: its name and its emotion counts in stored order (the items of
      a JSON object, so the emotion names are distinct). */
  datatype ConceptCounts = ConceptCounts(concept: string, counts: seq<(string, int)>)

  /** One record of the contradiction log; `None` stands for a missing key or a null value. */
  datatype LogRecord = LogRecord(concept: Option<string>, priorEmotion: Option<string>, newEmotion: Option<string>)

  /** The separator between emotions in an item. */
  const Arrow: string := " \U{2192} "

  function Min(a: nat, b: nat): nat { if a < b then a else b }

  /** Python's truth value of an optional string: present and non-empty. */
  predicate Truthy(o: Option<string>)
  {
    o.Some? && o.value != ""
  }

  /** An item with concept `c` is focused: a concept was asked for (and is non-empty) and it occurs,
      ignoring case, inside `c`. */
  predicate Focused(concept: Option<string>, c: string)
  {
    Truthy(concept) && IsSubstring(Lower(concept.value), Lower(c))
  }

  /** The emotion counts as candidates for ranking: the count, the stored position and the name. */
  function Candidates(counts: seq<(string, int)>): (cs: seq<Ranked>)
    ensures |cs| == |counts|
    ensures forall i :: 0 <= i < |cs| ==> cs[i] == Ranked(counts[i].1 as real, i, counts[i].0)
  {
    seq(|counts|, i requires 0 <= i < |counts| => Ranked(counts[i].1 as real, i, counts[i].0))
  }

  /** `sorted(emotion_map.items(), key=lambda x: -x[1])`: by descending count, ties in stored order. */
  function OrderedCounts(counts: seq<(string, int)>): seq<Ranked>
  {
    Rank(Candidates(counts), ByPosition)
  }

  /** The emotion names of an ordering. */
  function Names(r: seq<Ranked>): (names: seq<string>)
    ensures |names| == |r|
    ensures forall i :: 0 <= i < |r| ==> names[i] == r[i].id
  {
    seq(|r|, i requires 0 <= i < |r| => r[i].id)
  }

  /** The bias item of one concept: "- concept: e1 → e2 → ...", most frequent emotion first. */
  function BiasItem(d: ConceptCounts): string
  {
    "- " + d.concept + ": " + Join(Names(OrderedCounts(d.counts)), Arrow)
  }

  /** A concept appears in the summary only when more than one emotion was recorded for it. */
  predicate Shifted(d: ConceptCounts)
  {
    |d.counts| > 1
  }

  /** The bias items that land in the focused list (`focused`) or in the ambient one, in file order. */
  function BiasItems(data: seq<ConceptCounts>, concept: Option<string>, focused: bool): seq<string>
  {
    if data == [] then []
    else
      var d := data[|data| - 1];
      var prev := BiasItems(data[..|data| - 1], concept, focused);
      if Shifted(d) && Focused(concept, d.concept) == focused then prev + [BiasItem(d)] else prev
  }

  /** Every bias item, focused or not, in file order. */
  function AllBiasItems(data: seq<ConceptCounts>): seq<string>
  {
    if data == [] then []
    else
      var d := data[|data| - 1];
      var prev := AllBiasItems(data[..|data| - 1]);
      if Shifted(d) then prev + [BiasItem(d)] else prev
  }

  /** A contradiction record is kept only when its concept and both emotions are truthy. */
  predicate Complete(e: LogRecord)
  {
    Truthy(e.concept) && Truthy(e.priorEmotion) && Truthy(e.newEmotion)
  }

  /** The item of a complete record: "- concept: prior → new". */
  function ContradictionItem(e: LogRecord): string
    requires Complete(e)
  {
    "- " + e.concept.value + ": " + e.priorEmotion.value + Arrow + e.newEmotion.value
  }

  /** The contradiction items that land in the focused list (`focused`) or the ambient one, in log order. */
  function ContradictionItems(log: seq<LogRecord>, concept: Option<string>, focused: bool): seq<string>
  {
    if log == [] then []
    else
      var e := log[|log| - 1];
      var prev := ContradictionItems(log[..|log| - 1], concept, focused);
      if Complete(e) && Focused(concept, e.concept.value) == focused then prev + [ContradictionItem(e)] else prev
  }

  /** `random.sample(xs, min(k, len(xs)))`: as many as possible up to `k`, drawn without replacement. */
  predicate IsSample(s: seq<string>, xs: seq<string>, k: nat)
  {
    |s| == Min(k, |xs|) && multiset(s) <= multiset(xs)
  }

  /** Draws a sample of up to `k` items of `xs`; which ones and in what order is left open. */
  method Sample(xs: seq<string>, k: nat) returns (s: seq<string>)
    ensures IsSample(s, xs, k)
  {
    var m := Min(k, |xs|);
    assert xs == xs[..m] + xs[m..];
    assert multiset(xs) == multiset(xs[..m]) + multiset(xs[m..]);
    assert IsSample(xs[..m], xs, k);
    s :| IsSample(s, xs, k);
  }

  /** `load_bias_summary`: the focused bias items followed by up to two ambient ones, and the focused
      contradiction items followed by up to one ambient one. A missing file contributes nothing. */
  method LoadBiasSummary(biasData: Option<seq<ConceptCounts>>, log: Option<seq<LogRecord>>, concept: Option<string>)
    returns (biases: seq<string>, contradictions: seq<string>)
    ensures var data := if biasData.Some? then biasData.value else [];
      var focused := BiasItems(data, concept, true);
      && |focused| <= |biases| && biases[..|focused|] == focused
      && IsSample(biases[|focused|..], BiasItems(data, concept, false), 2)
    ensures var records := if log.Some? then log.value else [];
      var focused := ContradictionItems(records, concept, true);
      && |focused| <= |contradictions| && contradictions[..|focused|] == focused
      && IsSample(contradictions[|focused|..], ContradictionItems(records, concept, false), 1)
    ensures biasData.None? ==> biases == []
    ensures log.None? ==> contradictions == []
  {
    var biasSummary: seq<string> := [];
    var ambientBias: seq<string> := [];
    if biasData.Some? {
      biasSummary, ambientBias := CollectBias(biasData.value, concept);
    }
    var contradictionSummary: seq<string> := [];
    var ambientContradictions: seq<string> := [];
    if log.Some? {
      contradictionSummary, ambientContradictions := CollectContradictions(log.value, concept);
    }
    var sampledBias := Sample(ambientBias, 2);
    var sampledContradictions := Sample(ambientContradictions, 1);
    biases := biasSummary + sampledBias;
    contradictions := contradictionSummary + sampledContradictions;
    assert biases[..|biasSummary|] == biasSummary && biases[|biasSummary|..] == sampledBias;
    assert contradictions[..|contradictionSummary|] == contradictionSummary;
    assert contradictions[|contradictionSummary|..] == sampledContradictions;
  }

  /** The loop over the bias file: items of concepts with more than one emotion, split by focus. */
  method CollectBias(data: seq<ConceptCounts>, concept: Option<string>)
    returns (biasSummary: seq<string>, ambientBias: seq<string>)
    ensures biasSummary == BiasItems(data, concept, true)
    ensures ambientBias == BiasItems(data, concept, false)
  {
    biasSummary, ambientBias := [], [];
    var k := 0;
    while k < |data|
      invariant 0 <= k <= |data|
      invariant biasSummary == BiasItems(data[..k], concept, true)
      invariant ambientBias == BiasItems(data[..k], concept, false)
    {
      assert data[..k + 1][..k] == data[..k];
      var d := data[k];
      if |d.counts| > 1 {
        var item := "- " + d.concept + ": " + Join(Names(OrderedCounts(d.counts)), Arrow);
        if Focused(concept, d.concept) {
          biasSummary := biasSummary + [item];
        } else {
          ambientBias := ambientBias + [item];
        }
      }
      k := k + 1;
    }
    assert data[..k] == data;
  }

  /** The loop over the contradiction log: items of complete records, split by focus. */
  method CollectContradictions(records: seq<LogRecord>, concept: Option<string>)
    returns (contradictionSummary: seq<string>, ambientContradictions: seq<string>)
    ensures contradictionSummary == ContradictionItems(records, concept, true)
    ensures ambientContradictions == ContradictionItems(records, concept, false)
  {
    contradictionSummary, ambientContradictions := [], [];
    var k := 0;
    while k < |records|
      invariant 0 <= k <= |records|
      invariant contradictionSummary == ContradictionItems(records[..k], concept, true)
      invariant ambientContradictions == ContradictionItems(records[..k], concept, false)
    {
      assert records[..k + 1][..k] == records[..k];
      var e := records[k];
      if Truthy(e.concept) && Truthy(e.priorEmotion) && Truthy(e.newEmotion) {
        var item := "- " + e.concept.value + ": " + e.priorEmotion.value + Arrow + e.newEmotion.value;
        if Focused(concept, e.concept.value) {
          contradictionSummary := contradictionSummary + [item];
        } else {
          ambientContradictions := ambientContradictions + [item];
        }
      }
      k := k + 1;
    }
    assert records[..k] == records;
  }

  /** An item is in the focused (or ambient) bias list exactly when it is the item of a concept
      with more than one emotion whose focus matches. */
  lemma {:induction false} BiasItemsMembers(data: seq<ConceptCounts>, concept: Option<string>, focused: bool)
    ensures forall item :: item in BiasItems(data, concept, focused) ==>
      exists d :: d in data && Shifted(d) && Focused(concept, d.concept) == focused && item == BiasItem(d)
    ensures forall d :: d in data && Shifted(d) && Focused(concept, d.concept) == focused ==>
      BiasItem(d) in BiasItems(data, concept, focused)
  {
    if data != [] {
      var init := data[..|data| - 1];
      BiasItemsMembers(init, concept, focused);
      assert data == init + [data[|data| - 1]];
    }
  }

  /** Each bias item goes to exactly one of the two lists, in file order: together they hold every
      item once. */
  lemma {:induction false} BiasItemsPartition(data: seq<ConceptCounts>, concept: Option<string>)
    ensures multiset(BiasItems(data, concept, true)) + multiset(BiasItems(data, concept, false))
            == multiset(AllBiasItems(data))
  {
    if data != [] {
      BiasItemsPartition(data[..|data| - 1], concept);
    }
  }

  /** Without a concept (or with an empty one) nothing is focused and every item is ambient. */
  lemma {:induction false} NoConceptAllAmbient(data: seq<ConceptCounts>, concept: Option<string>)
    requires !Truthy(concept)
    ensures BiasItems(data, concept, true) == []
    ensures BiasItems(data, concept, false) == AllBiasItems(data)
  {
    if data != [] {
      NoConceptAllAmbient(data[..|data| - 1], concept);
    }
  }

  /** A contradiction item is in the focused (or ambient) list exactly when it is the item of a
      complete record whose focus matches: records missing a concept or an emotion are dropped. */
  lemma {:induction false} ContradictionItemsMembers(log: seq<LogRecord>, concept: Option<string>, focused: bool)
    ensures forall item :: item in ContradictionItems(log, concept, focused) ==>
      exists e :: e in log && Complete(e) && Focused(concept, e.concept.value) == focused && item == ContradictionItem(e)
    ensures forall e :: e in log && Complete(e) && Focused(concept, e.concept.value) == focused ==>
      ContradictionItem(e) in ContradictionItems(log, concept, focused)
  {
    if log != [] {
      var init := log[..|log| - 1];
      ContradictionItemsMembers(init, concept, focused);
      assert log == init + [log[|log| - 1]];
    }
  }

  /** The emotions of an item are a reordering of the stored ones, by descending count, equal
      counts keeping their stored order. */
  lemma EmotionsByCount(counts: seq<(string, int)>)
    ensures var r := OrderedCounts(counts);
      && |r| == |counts|
      && multiset(r) == multiset(Candidates(counts))
      && (forall i :: 0 <= i < |r| ==> r[i].pos < |counts| && r[i] == Ranked(counts[r[i].pos].1 as real, r[i].pos, counts[r[i].pos].0))
      && (forall i, j :: 0 <= i < j < |r| ==>
            r[i].key > r[j].key || (r[i].key == r[j].key && r[i].pos < r[j].pos))
  {
    var cs := Candidates(counts);
    var r := OrderedCounts(counts);
    assert DistinctRanks(cs, ByPosition);
    RankSorted(cs, ByPosition);
    forall i | 0 <= i < |r|
      ensures r[i].pos < |counts| && r[i] == Ranked(counts[r[i].pos].1 as real, r[i].pos, counts[r[i].pos].0)
    {
      assert r[i] in multiset(cs);
      var k :| 0 <= k < |cs| && cs[k] == r[i];
    }
  }

  /** For example, a concept seen once with Joy and three times with Fear reads "- Anne: Fear → Joy". */
  lemma ItemExample()
    ensures BiasItem(ConceptCounts("Anne", [("Joy", 1), ("Fear", 3)])) == "- Anne: Fear" + Arrow + "Joy"
  {
    var cs := Candidates([("Joy", 1), ("Fear", 3)]);
    assert cs == [Ranked(1.0, 0, "Joy"), Ranked(3.0, 1, "Fear")];
    assert cs[1..] == [Ranked(3.0, 1, "Fear")];
    assert Rank(cs[1..], ByPosition) == [Ranked(3.0, 1, "Fear")];
    assert OrderedCounts([("Joy", 1), ("Fear", 3)]) == [Ranked(3.0, 1, "Fear"), Ranked(1.0, 0, "Joy")];
    assert Names([Ranked(3.0, 1, "Fear"), Ranked(1.0, 0, "Joy")]) == ["Fear", "Joy"];
  }
}
