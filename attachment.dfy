/** The ego-centric attachment graph of src/attachmentmodeling.py: entity names are normalised
    through an alias table, and each shared experience moves the ego's edge to every named entity
    by intensity × valence / 10. */
module Attachment {
  import opened Wrappers
  import opened Numbers
  import opened Text
  import opened Ranking
  import Tally

  /** The diarist, the centre of the graph. */
  const Ego: string := "Anne Frank"

  /** `ENTITY_MAP`: lower-case alias to canonical name. */
  const EntityMap: map<string, string> := map[
    "father" := "Otto Frank", "daddy" := "Otto Frank", "pim" := "Otto Frank",
    "mother" := "Edith Frank", "mommy" := "Edith Frank", "mama" := "Edith Frank",
    "margot" := "Margot Frank", "sister" := "Margot Frank",
    "peter" := "Peter van Pels", "peter van daan" := "Peter van Pels",
    "mr. dussel" := "Fritz Pfeffer", "albert dussel" := "Fritz Pfeffer",
    "mrs. van daan" := "Auguste van Pels", "auguste" := "Auguste van Pels",
    "mr. van daan" := "Hermann van Pels", "hermann" := "Hermann van Pels",
    "moortje" := "Moortje", "cat" := "Moortje",
    "grammy" := "Grandmother Frank", "grandmother" := "Grandmother Frank",
    "kitty" := "Diary", "you" := "Diary", "anne" := "Anne Frank", "i" := "Anne Frank",
    "me" := "Anne Frank", "my" := "Anne Frank", "bep" := "Bep Voskuijl",
    "miep" := "Miep Gies", "mr. kraler" := "Victor Kugler", "mr. koophuis" := "Johannes Kleiman",
    "the annex" := "Secret Annex", "our hiding place" := "Secret Annex"
  ]

  /** The keys of `ENTITY_MAP` in the order the dictionary iterates them (its literal order). */
  const Aliases: seq<string> := [
    "father", "daddy", "pim", "mother", "mommy", "mama", "margot", "sister",
    "peter", "peter van daan", "mr. dussel", "albert dussel", "mrs. van daan", "auguste",
    "mr. van daan", "hermann", "moortje", "cat", "grammy", "grandmother",
    "kitty", "you", "anne", "i", "me", "my", "bep", "miep", "mr. kraler", "mr. koophuis",
    "the annex", "our hiding place"
  ]

  lemma AliasesListed()
    ensures |Aliases| > 0
    ensures forall i :: 0 <= i < |Aliases| ==> Aliases[i] in EntityMap
  {
  }

  /** `EMOTION_VALENCE`. */
  const ValenceTable: map<string, real> :=
    map["Joy" := 1.0, "Love/Attachment" := 1.0, "Sadness" := -0.6, "Fear" := -0.8, "Anger" := -0.9, "Curiosity" := 0.0]

  /** `similarity_threshold`. */
  const Threshold: real := 0.8

  function Valence(emotion: string): real
  {
    if emotion in ValenceTable then ValenceTable[emotion] else 0.0
  }

  /** Each alias's `SequenceMatcher` ratio against `lower`, in table order. */
  function Scores(lower: string, ratio: (string, string) -> real): (t: Tally.Votes)
    ensures |t| == |Aliases|
    ensures forall i :: 0 <= i < |t| ==> t[i] == (Aliases[i], ratio(lower, Aliases[i]))
  {
    seq(|Aliases|, i requires 0 <= i < |Aliases| => (Aliases[i], ratio(lower, Aliases[i])))
  }

  /** `normalize_entity`: the canonical name of an exact alias; otherwise that of the first alias with
      the highest ratio, when that ratio reaches the threshold; otherwise the title-cased input.
      `ratio` stands for `difflib.SequenceMatcher(None, a, b).ratio()`. */
  function NormalizeEntity(entity: string, ratio: (string, string) -> real): string
  {
    var lower := Lower(entity);
    if lower in EntityMap then EntityMap[lower]
    else
      AliasesListed();
      var best := Aliases[Tally.FirstMax(Scores(lower, ratio))];
      if ratio(lower, best) >= Threshold then EntityMap[best] else Title(entity)
  }

  /** The result is a canonical name of the table, or the title-cased input; the latter only when
      the input is no alias and no alias reaches the threshold. An exact alias gives its own name. */
  lemma NormalizeRange(entity: string, ratio: (string, string) -> real)
    ensures Lower(entity) in EntityMap ==> NormalizeEntity(entity, ratio) == EntityMap[Lower(entity)]
    ensures var r := NormalizeEntity(entity, ratio);
      r in EntityMap.Values
      || (r == Title(entity)
          && Lower(entity) !in EntityMap
          && (forall i :: 0 <= i < |Aliases| ==> ratio(Lower(entity), Aliases[i]) < Threshold))
  {
    var lower := Lower(entity);
    AliasesListed();
    if lower !in EntityMap {
      var t := Scores(lower, ratio);
      var best := Tally.FirstMax(t);
      if ratio(lower, Aliases[best]) < Threshold {
        forall i | 0 <= i < |Aliases| ensures ratio(lower, Aliases[i]) < Threshold {
          assert t[i].1 <= t[best].1;
        }
      } else {
        assert EntityMap[Aliases[best]] in EntityMap.Values;
      }
    } else {
      assert EntityMap[lower] in EntityMap.Values;
    }
  }

  /** The diarist's own aliases all normalise to the ego. */
  lemma EgoAliases(ratio: (string, string) -> real)
    ensures NormalizeEntity("i", ratio) == Ego && NormalizeEntity("I", ratio) == Ego
    ensures NormalizeEntity("me", ratio) == Ego && NormalizeEntity("my", ratio) == Ego
    ensures NormalizeEntity("anne", ratio) == Ego && NormalizeEntity("Anne", ratio) == Ego
  {
    assert Lower("I") == "i" && Lower("i") == "i";
    assert Lower("me") == "me" && Lower("my") == "my";
    assert Lower("Anne") == "anne" && Lower("anne") == "anne";
    assert EntityMap["i"] == Ego && EntityMap["me"] == Ego && EntityMap["my"] == Ego;
    assert "anne" in EntityMap && EntityMap["anne"] == Ego;
    assert NormalizeEntity("Anne", ratio) == EntityMap["anne"];
  }

  /** One record of an edge's history. */
  datatype Adjustment = Adjustment(emotion: string, adjustment: real)

  /** An edge of the ego: its running weight and the adjustments that built it. */
  datatype Edge = Edge(weight: real, history: seq<Adjustment>)

  function SumAdjustments(h: seq<Adjustment>): real
  {
    if h == [] then 0.0 else SumAdjustments(h[..|h| - 1]) + h[|h| - 1].adjustment
  }

  /** The weight of an edge is the sum of its history. */
  predicate Balanced(e: Edge)
  {
    e.weight == SumAdjustments(e.history)
  }

  /** `weight_adjustment`. */
  function AdjustmentFor(emotion: string, intensity: real): real
  {
    intensity * Valence(emotion) / 10.0
  }

  /** An edge after one shared experience: weight moved by `adj`, the adjustment recorded. */
  function Applied(e: Edge, emotion: string, adj: real): (r: Edge)
    ensures |r.history| == |e.history| + 1 && r.history[..|e.history|] == e.history
    ensures r.history[|e.history|] == Adjustment(emotion, adj)
  {
    Edge(e.weight + adj, e.history + [Adjustment(emotion, adj)])
  }

  /** Applying an experience keeps an edge's weight equal to the sum of its history. */
  lemma AppliedKeepsBalance(e: Edge, emotion: string, adj: real)
    requires Balanced(e)
    ensures Balanced(Applied(e, emotion, adj))
  {
    assert Applied(e, emotion, adj).history[..|e.history|] == e.history;
  }

  /** `{normalize_entity(e) for e in entities} - {"Anne Frank"}`. */
  function Normalized(entities: seq<string>, ratio: (string, string) -> real): (s: set<string>)
    ensures Ego !in s
  {
    (set e | e in entities :: NormalizeEntity(e, ratio)) - {Ego}
  }

  /** The normalised set holds exactly the non-ego names the inputs normalise to. */
  lemma NormalizedMembers(entities: seq<string>, ratio: (string, string) -> real)
    ensures forall e :: e in entities && NormalizeEntity(e, ratio) != Ego ==> NormalizeEntity(e, ratio) in Normalized(entities, ratio)
    ensures forall n :: n in Normalized(entities, ratio) ==> exists e :: e in entities && NormalizeEntity(e, ratio) == n
  {
  }

  /** An edge as the update finds it: the existing one, or a fresh one at weight 0.0. */
  function Current(edges: map<string, Edge>, n: string): Edge
  {
    if n in edges then edges[n] else Edge(0.0, [])
  }

  /** The edges after an experience shared with the names in `targets`. */
  function After(edges: map<string, Edge>, targets: set<string>, emotion: string, adj: real): (r: map<string, Edge>)
    ensures r.Keys == edges.Keys + targets
    ensures forall n :: n in r ==> r[n] == if n in targets then Applied(Current(edges, n), emotion, adj) else edges[n]
  {
    map n | n in edges.Keys + targets :: if n in targets then Applied(Current(edges, n), emotion, adj) else edges[n]
  }

  /** Visiting one more name extends the set of names visited. */
  lemma AfterStep(edges: map<string, Edge>, done: set<string>, x: string, emotion: string, adj: real)
    requires x !in done
    ensures After(edges, done + {x}, emotion, adj)
         == After(edges, done, emotion, adj)[x := Applied(Current(After(edges, done, emotion, adj), x), emotion, adj)]
  {
  }

  /** Every edge keeps its weight equal to the sum of its history across an update. */
  lemma AfterBalanced(edges: map<string, Edge>, targets: set<string>, emotion: string, adj: real)
    requires forall n :: n in edges ==> Balanced(edges[n])
    ensures forall n :: n in After(edges, targets, emotion, adj) ==> Balanced(After(edges, targets, emotion, adj)[n])
  {
    forall n | n in After(edges, targets, emotion, adj) && n in targets
      ensures Balanced(Applied(Current(edges, n), emotion, adj))
    {
      AppliedKeepsBalance(Current(edges, n), emotion, adj);
    }
  }

  predicate Distinct(names: seq<string>)
  {
    forall i, j :: 0 <= i < j < |names| ==> names[i] != names[j]
  }

  /** The edges as ranking candidates: |weight| as the key, insertion position as the tie-break. */
  function Candidates(names: seq<string>, edges: map<string, Edge>): (cs: seq<Ranked>)
    requires forall n :: n in names ==> n in edges
    ensures |cs| == |names|
    ensures forall i :: 0 <= i < |cs| ==> cs[i] == Ranked(Abs(edges[names[i]].weight), i, names[i])
  {
    seq(|names|, i requires 0 <= i < |names| => Ranked(Abs(edges[names[i]].weight), i, names[i]))
  }

  /** `get_strongest_attachments`: the edges by decreasing |weight|, equal weights in insertion
      order (Python's stable `sorted(..., reverse=True)`), sliced to `[:limit]`. */
  function Strongest(names: seq<string>, edges: map<string, Edge>, limit: int): (r: seq<(string, Edge)>)
    requires forall n :: n in names ==> n in edges
  {
    var cs := Candidates(names, edges);
    var top := TopK(cs, ByPosition, SliceEnd(|cs|, limit));
    TopKSubset(cs, ByPosition, SliceEnd(|cs|, limit));
    assert forall i :: 0 <= i < |top| ==> top[i].id in edges by {
      forall i | 0 <= i < |top| ensures top[i].id in edges {
        assert top[i] in cs;
      }
    }
    seq(|top|, i requires 0 <= i < |top| => (top[i].id, edges[top[i].id]))
  }

  /** The end index of Python's `xs[:limit]` on a list of length `n` (a negative limit counts from the end). */
  function SliceEnd(n: nat, limit: int): (k: nat)
    ensures k <= n
    ensures limit >= 0 ==> k == (if limit < n then limit else n)
    ensures limit < 0 ==> k == (if n + limit > 0 then n + limit else 0)
  {
    if limit >= 0 then (if limit < n then limit else n)
    else if n + limit > 0 then n + limit else 0
  }

  /** Each attachment listed is the ranked candidate in the same place of the top slice. */
  lemma StrongestIsTop(names: seq<string>, edges: map<string, Edge>, limit: int)
    requires forall n :: n in names ==> n in edges
    requires Distinct(names)
    ensures var cs := Candidates(names, edges);
      var top := TopK(cs, ByPosition, SliceEnd(|names|, limit));
      var r := Strongest(names, edges, limit);
      && |r| == |top| == SliceEnd(|names|, limit)
      && DistinctRanks(cs, ByPosition)
      && (forall i :: 0 <= i < |r| ==> top[i].pos < |names| && top[i] == cs[top[i].pos]
                                       && r[i] == (names[top[i].pos], edges[names[top[i].pos]]))
  {
    var cs := Candidates(names, edges);
    var top := TopK(cs, ByPosition, SliceEnd(|names|, limit));
    TopKSubset(cs, ByPosition, SliceEnd(|names|, limit));
    forall i | 0 <= i < |top| ensures top[i].pos < |names| && top[i] == cs[top[i].pos] {
      assert top[i] in cs;
    }
  }

  /** The strongest attachments are graph edges, listed by non-increasing |weight|. */
  lemma StrongestOrdered(names: seq<string>, edges: map<string, Edge>, limit: int)
    requires forall n :: n in names ==> n in edges
    requires Distinct(names)
    ensures var r := Strongest(names, edges, limit);
      && |r| == SliceEnd(|names|, limit)
      && (forall i :: 0 <= i < |r| ==> r[i].0 in names && r[i].1 == edges[r[i].0])
      && (forall i, j :: 0 <= i < j < |r| ==> Abs(r[i].1.weight) >= Abs(r[j].1.weight))
  {
    var cs := Candidates(names, edges);
    var top := TopK(cs, ByPosition, SliceEnd(|names|, limit));
    StrongestIsTop(names, edges, limit);
    TopKBest(cs, ByPosition, SliceEnd(|names|, limit));
    var r := Strongest(names, edges, limit);
    forall i, j | 0 <= i < j < |r| ensures Abs(r[i].1.weight) >= Abs(r[j].1.weight) {
      assert Precedes(top[i], top[j], ByPosition);
    }
  }

  /** Attachments of equal |weight| are listed in the order their edges were created. */
  lemma StrongestStable(names: seq<string>, edges: map<string, Edge>, limit: int)
    requires forall n :: n in names ==> n in edges
    requires Distinct(names)
    ensures var r := Strongest(names, edges, limit);
      forall i, j :: 0 <= i < j < |r| && Abs(r[i].1.weight) == Abs(r[j].1.weight) ==>
        exists p, q :: 0 <= p < q < |names| && names[p] == r[i].0 && names[q] == r[j].0
  {
    var cs := Candidates(names, edges);
    var top := TopK(cs, ByPosition, SliceEnd(|names|, limit));
    StrongestIsTop(names, edges, limit);
    TopKBest(cs, ByPosition, SliceEnd(|names|, limit));
    var r := Strongest(names, edges, limit);
    forall i, j | 0 <= i < j < |r| && Abs(r[i].1.weight) == Abs(r[j].1.weight)
      ensures exists p, q :: 0 <= p < q < |names| && names[p] == r[i].0 && names[q] == r[j].0
    {
      assert Precedes(top[i], top[j], ByPosition);
      assert names[top[i].pos] == r[i].0 && names[top[j].pos] == r[j].0;
    }
  }

  /** No edge left out of the slice is stronger than one listed. */
  lemma StrongestBeatsRest(names: seq<string>, edges: map<string, Edge>, limit: int)
    requires forall n :: n in names ==> n in edges
    requires Distinct(names)
    ensures var r := Strongest(names, edges, limit);
      forall i, n :: 0 <= i < |r| && n in names && (forall j :: 0 <= j < |r| ==> r[j].0 != n) ==>
        Abs(edges[n].weight) <= Abs(r[i].1.weight)
  {
    var cs := Candidates(names, edges);
    var top := TopK(cs, ByPosition, SliceEnd(|names|, limit));
    StrongestIsTop(names, edges, limit);
    TopKBest(cs, ByPosition, SliceEnd(|names|, limit));
    var r := Strongest(names, edges, limit);
    forall i, n | 0 <= i < |r| && n in names && (forall j :: 0 <= j < |r| ==> r[j].0 != n)
      ensures Abs(edges[n].weight) <= Abs(r[i].1.weight)
    {
      var p :| 0 <= p < |names| && names[p] == n;
      forall j | 0 <= j < |top| ensures top[j] != cs[p] {
        assert r[j].0 == names[top[j].pos];
      }
      assert Precedes(top[i], cs[p], ByPosition);
    }
  }

  /** The ego's attachment graph. `names` records the order edges were created in (the order of
      the graph dictionary); `ratio` is the fuzzy matcher the model was built with. */
  class AttachmentModel {
    var names: seq<string>
    var edges: map<string, Edge>
    const ratio: (string, string) -> real

    ghost predicate Valid()
      reads this
    {
      && Distinct(names)
      && (forall n :: n in names <==> n in edges)
      && Ego !in edges && "" !in edges
      && (forall n :: n in edges ==> Balanced(edges[n]))
    }

    /** `__init__`: the ego with no edges. */
    constructor (ratio: (string, string) -> real)
      ensures Valid()
      ensures names == [] && edges == map[] && this.ratio == ratio
    {
      names := [];
      edges := map[];
      this.ratio := ratio;
    }

    /** `update_attachment`: every distinct normalised name other than the ego and the empty name
        gets its edge (created at weight 0.0 with an empty history) moved by the adjustment; the
        set is visited in an unspecified order, which only decides where new names are listed. */
    method UpdateAttachment(entities: seq<string>, emotion: string, intensity: real)
      requires Valid()
      modifies this
      ensures Valid()
      ensures edges == After(old(edges), Normalized(entities, ratio) - {""}, emotion, AdjustmentFor(emotion, intensity))
      ensures |old(names)| <= |names| && names[..|old(names)|] == old(names)
    {
      var adj := AdjustmentFor(emotion, intensity);
      var normalized := Normalized(entities, ratio);
      ApplyToAll(normalized, emotion, adj);
    }

    /** The loop of `update_attachment` over the normalised names. */
    method ApplyToAll(targets: set<string>, emotion: string, adj: real)
      requires Valid() && Ego !in targets
      modifies this
      ensures Valid()
      ensures edges == After(old(edges), targets - {""}, emotion, adj)
      ensures |old(names)| <= |names| && names[..|old(names)|] == old(names)
    {
      var remaining := targets;
      ghost var edges0 := edges;
      while remaining != {}
        invariant Valid()
        invariant remaining <= targets
        invariant edges == After(edges0, targets - remaining - {""}, emotion, adj)
        invariant |old(names)| <= |names| && names[..|old(names)|] == old(names)
        decreases remaining
      {
        var entity :| entity in remaining;
        ghost var done := targets - remaining - {""};
        remaining := remaining - {entity};
        if entity == "" {
          assert targets - remaining - {""} == done;
          continue;
        }
        Visit(entity, emotion, adj);
        AfterStep(edges0, done, entity, emotion, adj);
        assert targets - remaining - {""} == done + {entity};
      }
      assert targets - remaining - {""} == targets - {""};
    }

    /** One name of the loop: create its edge if needed, then apply the adjustment. */
    method Visit(entity: string, emotion: string, adj: real)
      requires Valid() && entity != Ego && entity != ""
      modifies this
      ensures Valid()
      ensures edges == old(edges)[entity := Applied(Current(old(edges), entity), emotion, adj)]
      ensures names == if entity in old(edges) then old(names) else old(names) + [entity]
    {
      var current := Current(edges, entity);
      if entity !in edges {
        assert entity !in names;
        names := names + [entity];
      }
      AppliedKeepsBalance(current, emotion, adj);
      edges := edges[entity := Applied(current, emotion, adj)];
    }

    /** `process_event`: the event text is not used. */
    method ProcessEvent(eventText: string, entities: seq<string>, emotion: string, intensity: real)
      requires Valid()
      modifies this
      ensures Valid()
      ensures edges == After(old(edges), Normalized(entities, ratio) - {""}, emotion, AdjustmentFor(emotion, intensity))
      ensures |old(names)| <= |names| && names[..|old(names)|] == old(names)
    {
      UpdateAttachment(entities, emotion, intensity);
    }

    function GetStrongestAttachments(limit: int): (r: seq<(string, Edge)>)
      requires Valid()
      reads this
      ensures |r| == SliceEnd(|names|, limit)
      ensures forall i :: 0 <= i < |r| ==> r[i].0 in edges && r[i].1 == edges[r[i].0]
      ensures forall i, j :: 0 <= i < j < |r| ==> Abs(r[i].1.weight) >= Abs(r[j].1.weight)
    {
      StrongestOrdered(names, edges, limit);
      Strongest(names, edges, limit)
    }

    /** `get_attachment`: the edge of the normalised name, if there is one. */
    function GetAttachment(entity: string): (r: Option<Edge>)
      reads this
      ensures r.Some? <==> NormalizeEntity(entity, ratio) in edges
      ensures r.Some? ==> r.value == edges[NormalizeEntity(entity, ratio)]
    {
      var name := NormalizeEntity(entity, ratio);
      if name in edges then Some(edges[name]) else None
    }
  }

  /** An update never creates or changes the ego's edge, whatever alias names it; only edges of
      the call's normalised names change, and those change exactly once. */
  lemma UpdateSparesOthers(edges: map<string, Edge>, entities: seq<string>, ratio: (string, string) -> real,
                           emotion: string, intensity: real)
    requires Ego !in edges
    ensures var targets := Normalized(entities, ratio) - {""};
      var r := After(edges, targets, emotion, AdjustmentFor(emotion, intensity));
      && Ego !in r
      && (forall n :: n in edges && (forall e :: e in entities ==> NormalizeEntity(e, ratio) != n) ==> r[n] == edges[n])
      && (forall e :: e in entities && NormalizeEntity(e, ratio) != Ego && NormalizeEntity(e, ratio) != "" ==>
            var n := NormalizeEntity(e, ratio);
            r[n].history == Current(edges, n).history + [Adjustment(emotion, AdjustmentFor(emotion, intensity))])
  {
    NormalizedMembers(entities, ratio);
  }
}
