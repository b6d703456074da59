/** The records exchanged by the core: events from the event source, emotion tags from the
    tagger, and the memories the store commits. In the source they are plain dictionaries. */
module Records {

  /** "Temporal Context": absent (or an empty dictionary), or a time of day with an urgency. */
  datatype Temporal = NoTime | Time(timeOfDay: string, urgency: string)

  /** An event. The empty string stands for a missing or empty "Social Context". */
  datatype Event = Event(
    id: string,
    features: seq<string>,
    temporal: Temporal,
    social: string,
    rawText: string)

  /** "Assigned Emotion" and "Emotion Intensity" of a validated tag. */
  datatype Tag = Tag(emotion: string, intensity: real)

  /** A memory unit: the event's five descriptive fields plus the tag's label and intensity. */
  datatype Memory = Memory(event: Event, emotion: string, intensity: real)

  /** The six emotion categories of the tagger, in the order the source lists them. */
  const Emotions: seq<string> := ["Joy", "Sadness", "Fear", "Anger", "Curiosity", "Love/Attachment"]

  /** The bias-tracking concept of an event: its first sensory feature, or "unknown". */
  function Concept(e: Event): string
  {
    if |e.features| > 0 then e.features[0] else "unknown"
  }

  /** The IDs of the memories carrying the label `emo`, in list order. */
  function IdsLabelled(ms: seq<Memory>, emo: string): seq<string>
  {
    if ms == [] then []
    else
      var last := ms[|ms| - 1];
      IdsLabelled(ms[..|ms| - 1], emo) + (if last.emotion == emo then [last.event.id] else [])
  }

  /** Two memory lists that differ at most in intensities. */
  predicate SameIdsAndLabels(ms: seq<Memory>, ns: seq<Memory>)
  {
    |ms| == |ns| && forall i :: 0 <= i < |ms| ==> ms[i].event.id == ns[i].event.id && ms[i].emotion == ns[i].emotion
  }

  /** Changing intensities never moves a memory between emotion buckets. */
  lemma {:induction false} IdsLabelledIgnoresIntensity(ms: seq<Memory>, ns: seq<Memory>, emo: string)
    requires SameIdsAndLabels(ms, ns)
    ensures IdsLabelled(ms, emo) == IdsLabelled(ns, emo)
  {
    if ms != [] {
      IdsLabelledIgnoresIntensity(ms[..|ms| - 1], ns[..|ns| - 1], emo);
    }
  }

  /** Every ID listed under a emo belongs to a memory in the list carrying that emo. */
  lemma {:induction false} IdsLabelledSound(ms: seq<Memory>, emo: string, id: string)
    requires id in IdsLabelled(ms, emo)
    ensures exists i :: 0 <= i < |ms| && ms[i].event.id == id && ms[i].emotion == emo
  {
    var init := ms[..|ms| - 1];
    if id in IdsLabelled(init, emo) {
      IdsLabelledSound(init, emo, id);
      var i :| 0 <= i < |init| && init[i].event.id == id && init[i].emotion == emo;
      assert ms[i] == init[i];
    } else {
      assert ms[|ms| - 1].event.id == id && ms[|ms| - 1].emotion == emo;
    }
  }
}
