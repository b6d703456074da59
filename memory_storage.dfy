/** The emotional memory stack: the chronological "Memory List" and the "Emotion Index" from
    emotion emo to the IDs of the memories carrying it (src/memory_storage.py). */
module MemoryStorage {
  import opened Records

  /** The memory built from an event and its tag. */
  function MemoryOf(event: Event, tag: Tag): (m: Memory)
    ensures m.event == event && m.emotion == tag.emotion && m.intensity == tag.intensity
  {
    Memory(event, tag.emotion, tag.intensity)
  }

  /** The index after filing `id` under `emo`: appended to an existing bucket, or a new bucket `[id]`. */
  function File(index: map<string, seq<string>>, emo: string, id: string): (r: map<string, seq<string>>)
    ensures r.Keys == index.Keys + {emo}
    ensures emo in index ==> r[emo] == index[emo] + [id]
    ensures emo !in index ==> r[emo] == [id]
    ensures forall l :: l in index && l != emo ==> r[l] == index[l]
  {
    if emo in index then index[emo := index[emo] + [id]] else index[emo := [id]]
  }

  /** Every ID in a bucket belongs to a listed memory whose emo names that bucket. */
  ghost predicate IndexConsistent(ms: seq<Memory>, index: map<string, seq<string>>)
  {
    forall emo, id :: emo in index && id in index[emo] ==>
      exists i :: 0 <= i < |ms| && ms[i].event.id == id && ms[i].emotion == emo
  }

  /** The index mirrors the list exactly: each bucket holds the IDs of the memories with its
      emo, in list order, and every memory's emo has a bucket. */
  ghost predicate Mirrors(ms: seq<Memory>, index: map<string, seq<string>>)
  {
    && (forall emo :: emo in index ==> index[emo] == IdsLabelled(ms, emo))
    && (forall i :: 0 <= i < |ms| ==> ms[i].emotion in index)
  }

  lemma MirrorsIsConsistent(ms: seq<Memory>, index: map<string, seq<string>>)
    requires Mirrors(ms, index)
    ensures IndexConsistent(ms, index)
  {
    forall emo, id | emo in index && id in index[emo]
      ensures exists i :: 0 <= i < |ms| && ms[i].event.id == id && ms[i].emotion == emo
    {
      IdsLabelledSound(ms, emo, id);
    }
  }

  /** Committing a memory keeps every bucket's IDs pointing at listed memories with its emo. */
  lemma CommitKeepsConsistent(ms: seq<Memory>, index: map<string, seq<string>>, m: Memory)
    requires IndexConsistent(ms, index)
    ensures IndexConsistent(ms + [m], File(index, m.emotion, m.event.id))
  {
    var ms', index' := ms + [m], File(index, m.emotion, m.event.id);
    forall emo, id | emo in index' && id in index'[emo]
      ensures exists i :: 0 <= i < |ms'| && ms'[i].event.id == id && ms'[i].emotion == emo
    {
      if emo == m.emotion && id == m.event.id {
        assert ms'[|ms|] == m;
      } else {
        assert emo in index && id in index[emo];
        var i :| 0 <= i < |ms| && ms[i].event.id == id && ms[i].emotion == emo;
        assert ms'[i] == ms[i];
      }
    }
  }

  /** Committing a memory keeps the index an exact mirror of the list. */
  lemma CommitKeepsMirror(ms: seq<Memory>, index: map<string, seq<string>>, m: Memory)
    requires Mirrors(ms, index)
    ensures Mirrors(ms + [m], File(index, m.emotion, m.event.id))
  {
    var ms' := ms + [m];
    assert ms'[..|ms'| - 1] == ms;
    if m.emotion !in index {
      assert IdsLabelled(ms, m.emotion) == [] by {
        IdsLabelledAbsent(ms, m.emotion);
      }
    }
  }

  lemma {:induction false} IdsLabelledAbsent(ms: seq<Memory>, emo: string)
    requires forall i :: 0 <= i < |ms| ==> ms[i].emotion != emo
    ensures IdsLabelled(ms, emo) == []
  {
    if ms != [] {
      IdsLabelledAbsent(ms[..|ms| - 1], emo);
    }
  }

  /** The caller-owned memory stack. */
  class MemoryStore {
    var memories: seq<Memory>
    var index: map<string, seq<string>>

    ghost predicate Valid()
      reads this
    {
      Mirrors(memories, index)
    }

    /** The stack the orchestrator starts from: no memories, one empty bucket per emotion (main.py). */
    constructor ()
      ensures Valid()
      ensures memories == []
      ensures index == map emo | emo in Emotions :: []
    {
      memories := [];
      index := map emo | emo in Emotions :: [];
    }

    /** `store_memory`: append the combined memory unit and file its ID under the tag's emotion. */
    method StoreMemory(event: Event, tag: Tag)
      requires Valid()
      modifies this
      ensures Valid()
      ensures memories == old(memories) + [MemoryOf(event, tag)]
      ensures index == File(old(index), tag.emotion, event.id)
    {
      CommitKeepsMirror(memories, index, MemoryOf(event, tag));
      memories := memories + [MemoryOf(event, tag)];
      var assignedEmotion := tag.emotion;
      if assignedEmotion in index {
        index := index[assignedEmotion := index[assignedEmotion] + [event.id]];
      } else {
        index := index[assignedEmotion := [event.id]];
      }
    }

    /** Overwrite one memory's "Emotion Intensity" in place, as the learner does through the
        aliased memory dictionaries (src/learn.py:92, 99, 134). */
    method SetIntensity(p: nat, x: real)
      requires Valid() && p < |memories|
      modifies this
      ensures Valid()
      ensures memories == old(memories)[p := old(memories)[p].(intensity := x)]
      ensures index == old(index)
    {
      var ms := memories[p := memories[p].(intensity := x)];
      forall emo | emo in index ensures index[emo] == IdsLabelled(ms, emo) {
        IdsLabelledIgnoresIntensity(memories, ms, emo);
      }
      memories := ms;
    }
  }
}
