/** Validation of the language model's emotion tag (src/emotionaltagger.py). The model's reply is
    searched for a `{...}` block naming "Event ID" and decoded by `json.loads`; that step is an
    input here, as the decoded object or `None` when no block was found or decoding failed. */
module EmotionalTagger {
  import opened Wrappers
  import opened Records

  /** A decoded JSON value. `json.loads` also accepts `NaN`, `Infinity` and `-Infinity`. */
  datatype Json =
    | Null
    | Bool(b: bool)
    | Num(x: real)
    | NaN
    | Infinity(negative: bool)
    | Str(s: string)
    | Arr(items: seq<Json>)
    | Obj(fields: map<string, Json>)

  type Fields = map<string, Json>

  const EventIdKey: string := "Event ID"
  const EmotionKey: string := "Assigned Emotion"
  const IntensityKey: string := "Emotion Intensity"

  const FallbackEmotion: string := "Curiosity"
  const FallbackIntensity: real := 0.5

  /** What `process_emotion_response` gives back: `None`, the uncaught "Missing Event ID" error,
      or the patched dictionary. */
  datatype Outcome = NoTag | MissingEventId | Tagged(data: Fields)

  /** `isinstance(v, (int, float))`: a JSON number of any kind, or a boolean (a subclass of `int`). */
  predicate Numeric(v: Json)
  {
    v.Bool? || v.Num? || v.NaN? || v.Infinity?
  }

  /** Python's `v < c` for a numeric `v`; every comparison with NaN is false. */
  predicate PyLess(v: Json, c: real)
    requires Numeric(v)
  {
    match v
    case Bool(b) => (if b then 1.0 else 0.0) < c
    case Num(x) => x < c
    case NaN => false
    case Infinity(negative) => negative
  }

  /** Python's `v > c` for a numeric `v`. */
  predicate PyGreater(v: Json, c: real)
    requires Numeric(v)
  {
    match v
    case Bool(b) => (if b then 1.0 else 0.0) > c
    case Num(x) => x > c
    case NaN => false
    case Infinity(negative) => !negative
  }

  /** A numeric value that really lies in [0, 1]. */
  predicate InUnit(v: Json)
  {
    v.Bool? || (v.Num? && 0.0 <= v.x <= 1.0)
  }

  /** The intensity the source keeps: numeric and neither `< 0` nor `> 1`. NaN passes this test. */
  predicate KeptAsWritten(v: Json)
  {
    Numeric(v) && !PyLess(v, 0.0) && !PyGreater(v, 1.0)
  }

  /** The intended test: a number in [0, 1]. */
  predicate KeptCorrected(v: Json)
  {
    Numeric(v) && !v.NaN? && !PyLess(v, 0.0) && !PyGreater(v, 1.0)
  }

  /** The intended test keeps exactly the values in [0, 1]. */
  lemma KeptCorrectedIsInUnit(v: Json)
    ensures KeptCorrected(v) <==> InUnit(v)
  {
    if v.Infinity? {
      assert !KeptCorrected(v);
    }
  }

  /** `data.get(key)` as a JSON value, `None` being `null`. */
  function Get(data: Fields, key: string): (v: Json)
    ensures key !in data ==> v == Null
    ensures key in data ==> v == data[key]
  {
    if key in data then data[key] else Null
  }

  /** `process_emotion_response` after decoding: `None` stays `None`; a missing "Event ID" raises;
      a label outside the six is replaced by "Curiosity"; an intensity that fails the range test
      is replaced by 0.5. `corrected` selects the intended range test over the written one. */
  function ProcessEmotionResponse(parsed: Option<Fields>, corrected: bool): (r: Outcome)
    ensures r.NoTag? <==> parsed.None?
    ensures r.MissingEventId? <==> parsed.Some? && EventIdKey !in parsed.value
    ensures r.Tagged? ==>
      (&& parsed.Some?
       && r.data.Keys == parsed.value.Keys + {EmotionKey, IntensityKey}
       && (forall k :: k in parsed.value && k != EmotionKey && k != IntensityKey ==> r.data[k] == parsed.value[k]))
  {
    match parsed
    case None => NoTag
    case Some(data) =>
      if EventIdKey !in data then MissingEventId
      else
        var given := Get(data, EmotionKey);
        var data1 := if given.Str? && given.s in Emotions then data else data[EmotionKey := Str(FallbackEmotion)];
        var intensity := Get(data1, IntensityKey);
        var keep := if corrected then KeptCorrected(intensity) else KeptAsWritten(intensity);
        var data2 := if keep then data1 else data1[IntensityKey := Num(FallbackIntensity)];
        Tagged(data2)
  }

  /** An allowed label is kept and any other value (or none) becomes "Curiosity"; an intensity that
      passes the range test is kept and any other (or none) becomes 0.5. */
  lemma ProcessFields(data: Fields, corrected: bool)
    requires EventIdKey in data
    ensures var r := ProcessEmotionResponse(Some(data), corrected);
      var given := Get(data, EmotionKey);
      var intensity := Get(data, IntensityKey);
      && r.Tagged?
      && r.data[EventIdKey] == data[EventIdKey]
      && r.data[EmotionKey] == (if given.Str? && given.s in Emotions then given else Str(FallbackEmotion))
      && r.data[IntensityKey] == (if (if corrected then KeptCorrected(intensity) else KeptAsWritten(intensity))
                                  then intensity else Num(FallbackIntensity))
  {
  }

  /** With the intended range test every tag carries an allowed label and an intensity in [0, 1]. */
  lemma TaggedIsValid(parsed: Option<Fields>)
    ensures var r := ProcessEmotionResponse(parsed, true);
      r.Tagged? ==> r.data[EmotionKey].Str? && r.data[EmotionKey].s in Emotions && InUnit(r.data[IntensityKey])
  {
    if parsed.Some? && EventIdKey in parsed.value {
      ProcessFields(parsed.value, true);
      KeptCorrectedIsInUnit(Get(parsed.value, IntensityKey));
    }
  }

  /** As written, every tag carries an allowed label and an intensity in [0, 1] or NaN. */
  lemma TaggedAsWrittenIsValidOrNaN(parsed: Option<Fields>)
    ensures var r := ProcessEmotionResponse(parsed, false);
      r.Tagged? ==> r.data[EmotionKey].Str? && r.data[EmotionKey].s in Emotions
                    && (InUnit(r.data[IntensityKey]) || r.data[IntensityKey].NaN?)
  {
    if parsed.Some? && EventIdKey in parsed.value {
      ProcessFields(parsed.value, false);
      var v := Get(parsed.value, IntensityKey);
      if KeptAsWritten(v) && !v.NaN? {
        assert KeptCorrected(v);
        KeptCorrectedIsInUnit(v);
      }
    }
  }

  /** The written range test lets a NaN intensity through; the intended one replaces it by 0.5. */
  lemma NaNIntensityKept()
    ensures var data := map[EventIdKey := Str("e1"), EmotionKey := Str("Joy"), IntensityKey := NaN];
      && ProcessEmotionResponse(Some(data), false).data[IntensityKey] == NaN
      && ProcessEmotionResponse(Some(data), true).data[IntensityKey] == Num(FallbackIntensity)
  {
    var data := map[EventIdKey := Str("e1"), EmotionKey := Str("Joy"), IntensityKey := NaN];
    assert "Joy" in Emotions;
    ProcessFields(data, false);
    ProcessFields(data, true);
  }

  /** `emotional_tagging`: the validated tag, or, when there is none, the fallback
      {the event's ID, "Curiosity", 0.5}; the "Missing Event ID" error propagates. */
  function EmotionalTagging(eventId: string, parsed: Option<Fields>, corrected: bool): (r: Result<Fields, string>)
    ensures r.Failure? <==> ProcessEmotionResponse(parsed, corrected).MissingEventId?
    ensures parsed.None? ==> r == Success(map[EventIdKey := Str(eventId), EmotionKey := Str(FallbackEmotion),
                                                IntensityKey := Num(FallbackIntensity)])
    ensures parsed.Some? && r.Success? ==> r.value == ProcessEmotionResponse(parsed, corrected).data
  {
    match ProcessEmotionResponse(parsed, corrected)
    case NoTag =>
      Success(map[EventIdKey := Str(eventId), EmotionKey := Str(FallbackEmotion), IntensityKey := Num(FallbackIntensity)])
    case MissingEventId => Failure("Missing Event ID")
    case Tagged(data) => Success(data)
  }

  /** A tagging that succeeds always carries an event ID, an allowed label and, with the intended
      range test, an intensity in [0, 1]. */
  lemma TaggingIsValid(eventId: string, parsed: Option<Fields>)
    ensures var r := EmotionalTagging(eventId, parsed, true);
      r.Success? ==> EventIdKey in r.value && r.value[EmotionKey].Str? && r.value[EmotionKey].s in Emotions
                     && InUnit(r.value[IntensityKey])
  {
    TaggedIsValid(parsed);
    assert FallbackEmotion in Emotions;
  }

  /** The ID the model returns is only checked for presence: once a tag was decoded, the result
      does not depend on the event being tagged. */
  lemma EventIdNotCompared(id1: string, id2: string, parsed: Option<Fields>, corrected: bool)
    requires parsed.Some?
    ensures EmotionalTagging(id1, parsed, corrected) == EmotionalTagging(id2, parsed, corrected)
  {
  }
}
