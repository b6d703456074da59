/** Pure helpers of src/helper.py: event similarity, the dominant emotion of the memory stack,
    and extraction of a canonical emotion keyword from free text. */
module Helper {
  import opened Wrappers
  import opened Numbers
  import opened Text
  import opened Records
  import Tally

  /** The distinct sensory features of an event (Python's `set(...)`). */
  function FeatureSet(fs: seq<string>): set<string>
  {
    set f | f in fs
  }

  /** Intersection over union of the two feature sets. */
  function Jaccard(a: seq<string>, b: seq<string>): real
  {
    var sa, sb := FeatureSet(a), FeatureSet(b);
    var union := |sa + sb|;
    (|sa * sb| as real) / ((if union > 1 then union else 1) as real)
  }

  /** `compute_similarity(a, b)`: the Jaccard index of the features when both have some, plus 0.5
      when `a` has a social context equal to `b`'s, plus 0.5 when `a` has a temporal context
      equal to `b`'s, capped at 1.0. */
  function Similarity(a: Event, b: Event): (r: real)
    ensures 0.0 <= r <= 1.0
  {
    var features := if |a.features| > 0 && |b.features| > 0 then Jaccard(a.features, b.features) else 0.0;
    var social := if a.social != "" && a.social == b.social then 0.5 else 0.0;
    var temporal := if a.temporal != NoTime && a.temporal == b.temporal then 0.5 else 0.0;
    JaccardBounds(a.features, b.features);
    Min(features + social + temporal, 1.0)
  }

  lemma JaccardBounds(a: seq<string>, b: seq<string>)
    ensures 0.0 <= Jaccard(a, b) <= 1.0
    ensures Jaccard(a, b) > 0.0 <==> FeatureSet(a) * FeatureSet(b) != {}
  {
    var sa, sb := FeatureSet(a), FeatureSet(b);
    SubsetCard(sa * sb, sa + sb);
  }

  lemma {:induction false} SubsetCard<T>(s: set<T>, t: set<T>)
    requires s <= t
    ensures |s| <= |t|
    decreases t
  {
    if s != {} {
      var x :| x in s;
      SubsetCard(s - {x}, t - {x});
    }
  }

  /** Similarity does not depend on the order of its arguments. */
  lemma SimilaritySymmetric(a: Event, b: Event)
    ensures Similarity(a, b) == Similarity(b, a)
  {
    assert FeatureSet(a.features) * FeatureSet(b.features) == FeatureSet(b.features) * FeatureSet(a.features);
    assert FeatureSet(a.features) + FeatureSet(b.features) == FeatureSet(b.features) + FeatureSet(a.features);
  }

  /** An event with some sensory feature, or with both contexts set, is fully similar to itself. */
  lemma SelfSimilarity(a: Event)
    requires |a.features| > 0 || (a.social != "" && a.temporal != NoTime)
    ensures Similarity(a, a) == 1.0
  {
    var s := FeatureSet(a.features);
    assert s * s == s && s + s == s;
    if |a.features| > 0 {
      assert a.features[0] in s;
      assert |s| > 0;
    }
    JaccardBounds(a.features, a.features);
  }

  /** Two events are similar at all exactly when they share a sensory feature, a non-empty
      social context or a temporal context. */
  lemma SimilarityPositive(a: Event, b: Event)
    ensures Similarity(a, b) > 0.0 <==>
      (exists f :: f in a.features && f in b.features)
      || (a.social != "" && a.social == b.social)
      || (a.temporal != NoTime && a.temporal == b.temporal)
  {
    JaccardBounds(a.features, b.features);
    if exists f :: f in a.features && f in b.features {
      var f :| f in a.features && f in b.features;
      assert f in FeatureSet(a.features) * FeatureSet(b.features);
    }
    if FeatureSet(a.features) * FeatureSet(b.features) != {} {
      var f :| f in FeatureSet(a.features) * FeatureSet(b.features);
      assert f in a.features && f in b.features;
    }
  }

  /** (label, intensity) of each memory, in list order. */
  function IntensityVotes(ms: seq<Memory>): (ps: Tally.Votes)
    ensures |ps| == |ms|
    ensures forall i :: 0 <= i < |ms| ==> ps[i] == (ms[i].emotion, ms[i].intensity)
  {
    seq(|ms|, i requires 0 <= i < |ms| => (ms[i].emotion, ms[i].intensity))
  }

  /** The summed intensity of the memories labelled `e`. */
  function Weight(ms: seq<Memory>, e: string): real
  {
    Tally.Total(IntensityVotes(ms), e)
  }

  /** `compute_dominant_emotion`: the label with the largest summed intensity, "Neutral" for an
      empty stack; otherwise always the label of some stored memory. */
  function DominantEmotion(ms: seq<Memory>): (r: string)
    ensures ms == [] ==> r == "Neutral"
    ensures ms != [] ==> exists i :: 0 <= i < |ms| && ms[i].emotion == r
  {
    if ms == [] then "Neutral"
    else
      var ps := IntensityVotes(ms);
      Tally.WinnerIsFirstMaximum(ps);
      var f := Tally.FirstIndexOf(ps, Tally.Winner(ps));
      assert ms[f].emotion == Tally.Winner(ps);
      Tally.Winner(ps)
  }

  /** The dominant emotion is a label of the stack, and no label has a larger summed intensity. */
  lemma DominantEmotionIsHeaviest(ms: seq<Memory>)
    requires ms != []
    ensures exists i :: 0 <= i < |ms| && ms[i].emotion == DominantEmotion(ms)
    ensures forall j :: 0 <= j < |ms| ==> Weight(ms, ms[j].emotion) <= Weight(ms, DominantEmotion(ms))
  {
    var ps := IntensityVotes(ms);
    Tally.WinnerIsFirstMaximum(ps);
    var w := Tally.Winner(ps);
    var f := Tally.FirstIndexOf(ps, w);
    assert ms[f].emotion == w;
    forall j | 0 <= j < |ms| ensures Weight(ms, ms[j].emotion) <= Weight(ms, w) {
      assert ps[j].0 == ms[j].emotion;
    }
  }

  /** On a tie in summed intensity the dominant emotion is the label whose first memory comes
      first: any memory tied with it is preceded (or matched) by a memory of the dominant label. */
  lemma DominantEmotionTiesGoFirst(ms: seq<Memory>)
    requires ms != []
    ensures forall j :: 0 <= j < |ms| && Weight(ms, ms[j].emotion) == Weight(ms, DominantEmotion(ms)) ==>
      exists i :: 0 <= i <= j && ms[i].emotion == DominantEmotion(ms)
  {
    var ps := IntensityVotes(ms);
    Tally.WinnerIsFirstMaximum(ps);
    var w := Tally.Winner(ps);
    var f := Tally.FirstIndexOf(ps, w);
    assert ms[f].emotion == w;
    forall j | 0 <= j < f ensures Weight(ms, ms[j].emotion) < Weight(ms, w) {
      assert ps[j].0 == ms[j].emotion;
    }
    forall j | 0 <= j < |ms| && Weight(ms, ms[j].emotion) == Weight(ms, w)
      ensures exists i :: 0 <= i <= j && ms[i].emotion == w
    {
      assert f <= j;
    }
  }

  /** The alternatives of the keyword pattern, in order (the six emotion categories). */
  const Keywords: seq<string> := Emotions

  /** `\b(keyword)\b` matches case-insensitively at position `i`. Every keyword begins and ends
      with a letter, so the boundaries require a non-word character (or the text's end) on each side. */
  predicate MatchesAt(text: string, i: nat, kw: string)
  {
    && i + |kw| <= |text|
    && Lower(text[i..i + |kw|]) == Lower(kw)
    && (i == 0 || !IsWordChar(text[i - 1]))
    && (i + |kw| == |text| || !IsWordChar(text[i + |kw|]))
  }

  /** No alternative of the pattern matches at `p`. */
  predicate NoMatchAt(text: string, p: nat)
  {
    forall j :: 0 <= j < |Keywords| ==> !MatchesAt(text, p, Keywords[j])
  }

  /** No alternative matches anywhere in `[lo, hi)`. */
  predicate NoMatchIn(text: string, lo: nat, hi: nat)
  {
    forall p :: lo <= p < hi ==> NoMatchAt(text, p)
  }

  /** The first alternative that matches at `i`, tried in pattern order from alternative `k`. */
  function AlternativeAt(text: string, i: nat, k: nat): (r: Option<nat>)
    requires k <= |Keywords|
    ensures r.Some? ==> k <= r.value < |Keywords| && MatchesAt(text, i, Keywords[r.value])
    ensures r.None? ==> forall j :: k <= j < |Keywords| ==> !MatchesAt(text, i, Keywords[j])
    decreases |Keywords| - k
  {
    if k == |Keywords| then None
    else if MatchesAt(text, i, Keywords[k]) then Some(k)
    else AlternativeAt(text, i, k + 1)
  }

  /** `re.search`: the leftmost position where some alternative matches, and that alternative. */
  function SearchFrom(text: string, i: nat): (r: Option<(nat, nat)>)
    requires i <= |text|
    ensures r.Some? ==> i <= r.value.0 <= |text| && r.value.1 < |Keywords|
    ensures r.Some? ==> MatchesAt(text, r.value.0, Keywords[r.value.1]) && NoMatchIn(text, i, r.value.0)
    ensures r.None? ==> NoMatchIn(text, i, |text| + 1)
    decreases |text| - i
  {
    match AlternativeAt(text, i, 0)
    case Some(k) => Some((i, k))
    case None =>
      if i == |text| then None
      else
        var r := SearchFrom(text, i + 1);
        NoMatchInExtend(text, i, if r.Some? then r.value.0 else |text| + 1);
        r
  }

  lemma NoMatchInExtend(text: string, i: nat, hi: nat)
    requires NoMatchAt(text, i) && NoMatchIn(text, i + 1, hi)
    ensures NoMatchIn(text, i, hi)
  {
  }

  /** `extract_clean_emotion`: the title-cased text of the leftmost keyword match, or "Unknown". */
  function ExtractCleanEmotion(text: string): string
  {
    var r := SearchFrom(text, 0);
    if r.Some? then Title(text[r.value.0..r.value.0 + |Keywords[r.value.1]|]) else "Unknown"
  }

  lemma TitleFixed(kw: string)
    requires |kw| > 0 && IsUpper(kw[0])
    requires forall i :: 0 < i < |kw| ==> if IsCased(kw[i - 1]) then !IsUpper(kw[i]) else !IsLower(kw[i])
    ensures Title(kw) == kw
  {
    var t := Title(kw);
    forall i | 0 <= i < |kw| ensures t[i] == kw[i] {
      if i > 0 && IsCased(kw[i - 1]) {
        assert !IsUpper(kw[i]);
        assert t[i] == LowerChar(kw[i]);
      } else {
        assert !IsLower(kw[i]);
        assert t[i] == UpperChar(kw[i]);
      }
    }
  }

  lemma KeywordTitled(k: nat)
    requires k < |Keywords|
    ensures Title(Keywords[k]) == Keywords[k]
  {
    var kw := Keywords[k];
    if k == 0 { assert kw == "Joy"; }
    else if k == 1 { assert kw == "Sadness"; }
    else if k == 2 { assert kw == "Fear"; }
    else if k == 3 { assert kw == "Anger"; }
    else if k == 4 { assert kw == "Curiosity"; }
    else { assert kw == "Love/Attachment"; }
    TitleFixed(kw);
  }

  lemma KeywordsAreTitled()
    ensures forall k :: 0 <= k < |Keywords| ==> Title(Keywords[k]) == Keywords[k]
  {
    forall k | 0 <= k < |Keywords| ensures Title(Keywords[k]) == Keywords[k] {
      KeywordTitled(k);
    }
  }

  /** When the search finds alternative `k` at `i`, the cleaned label is that alternative's canonical spelling. */
  lemma ExtractFound(text: string, i: nat, k: nat)
    requires SearchFrom(text, 0) == Some((i, k))
    ensures ExtractCleanEmotion(text) == Keywords[k]
  {
    var kw := Keywords[k];
    assert MatchesAt(text, i, kw);
    TitleOfMatch(text[i..i + |kw|], k);
  }

  /** Text that spells keyword `k` in any case title-cases to the keyword's canonical spelling. */
  lemma TitleOfMatch(w: string, k: nat)
    requires k < |Keywords| && Lower(w) == Lower(Keywords[k])
    ensures Title(w) == Keywords[k]
  {
    KeywordTitled(k);
    TitleIgnoresCase(w, Keywords[k], false);
  }

  /** The result is one of the six categories, spelt canonically, or "Unknown"; it is a category
      exactly when some keyword occurs as a whole word, and then it is the leftmost such keyword. */
  lemma ExtractCleanEmotionSpec(text: string)
    ensures ExtractCleanEmotion(text) in Emotions || ExtractCleanEmotion(text) == "Unknown"
    ensures ExtractCleanEmotion(text) == "Unknown" <==> NoMatchIn(text, 0, |text| + 1)
    ensures ExtractCleanEmotion(text) != "Unknown" ==>
      exists p :: 0 <= p <= |text| && MatchesAt(text, p, ExtractCleanEmotion(text)) && NoMatchIn(text, 0, p)
  {
    var r := SearchFrom(text, 0);
    if r.Some? {
      var (i, k) := r.value;
      ExtractFound(text, i, k);
      assert Keywords[k] in Emotions;
      assert Keywords[k] != "Unknown";
      assert !NoMatchAt(text, i);
    }
  }

  /** A canonical label written in any mix of cases cleans to the canonical label; in particular
      cleaning is idempotent on its own non-"Unknown" output. */
  lemma ExtractCleanEmotionCanonical(text: string, e: string)
    requires e in Emotions && Lower(text) == Lower(e)
    ensures ExtractCleanEmotion(text) == e
  {
    var k :| 0 <= k < |Keywords| && Keywords[k] == e;
    SameMatchesAtStart(text, e);
    assert MatchesAt(text, 0, e);
    var r := SearchFrom(text, 0);
    assert r.Some? && r.value.0 == 0;
    var j := r.value.1;
    ExtractFound(text, 0, j);
    OnlySelfMatchesAtStart(k);
  }

  /** Texts equal up to case match the same alternatives at their start. */
  lemma SameMatchesAtStart(text: string, e: string)
    requires Lower(text) == Lower(e)
    ensures forall kw :: MatchesAt(text, 0, kw) <==> MatchesAt(e, 0, kw)
  {
    forall kw ensures MatchesAt(text, 0, kw) <==> MatchesAt(e, 0, kw) {
      if |kw| <= |text| {
        assert Lower(text[0..|kw|]) == Lower(text)[0..|kw|];
        assert Lower(e[0..|kw|]) == Lower(e)[0..|kw|];
        if |kw| < |text| {
          assert LowerChar(text[|kw|]) == LowerChar(e[|kw|]) by { assert Lower(text)[|kw|] == Lower(e)[|kw|]; }
        }
      }
    }
  }

  lemma ExtractCleanEmotionIdempotent(e: string)
    requires e in Emotions
    ensures ExtractCleanEmotion(e) == e
  {
    ExtractCleanEmotionCanonical(e, e);
  }

  /** Matching ignores case, and the word boundary keeps "anger" inside "dangerous" from matching. */
  lemma ExtractCleanEmotionExamples()
    ensures ExtractCleanEmotion("FEAR") == "Fear"
    ensures ExtractCleanEmotion("dangerous") == "Unknown"
  {
    assert Lower("FEAR") == Lower("Fear");
    ExtractCleanEmotionCanonical("FEAR", "Fear");
    var text := "dangerous";
    forall p, j | 0 <= p <= |text| && 0 <= j < |Keywords| ensures !MatchesAt(text, p, Keywords[j]) {
      var kw := Keywords[j];
      if p > 0 {
        assert IsWordChar(text[p - 1]);
      } else if |kw| <= |text| {
        assert Lower(text[0..|kw|])[0] == 'd';
        assert Lower(kw)[0] != 'd';
      }
    }
    ExtractCleanEmotionSpec(text);
  }

  /** A keyword, read as text, matches no other alternative at its start. */
  lemma OnlySelfMatchesAtStart(k: nat)
    requires k < |Keywords|
    ensures forall j :: 0 <= j < |Keywords| && j != k ==> !MatchesAt(Keywords[k], 0, Keywords[j])
  {
    var e := Keywords[k];
    forall j | 0 <= j < |Keywords| && j != k ensures !MatchesAt(e, 0, Keywords[j]) {
      var kw := Keywords[j];
      if |kw| < |e| {
        if IsWordChar(e[|kw|]) {
        } else {
          assert e == "Love/Attachment" && |kw| == 4;
          assert Lower(e[..4])[0] != Lower(kw)[0];
        }
      } else {
        assert |kw| != |e|;
      }
    }
  }
}
