# Emotional memory and adaptive learning, in Dafny

This project models the emotional-memory engine of a diary-reading agent. It also models the small validators and segmenters around that engine, and proves properties of the model.

- **Memory stack.** This is the chronological "Memory List" of memory units. Each unit holds an event's ID, sensory features, temporal context, social context and raw text, plus the tag's "Assigned Emotion" and "Emotion Intensity". An "Emotion Index" maps each emotion label to the IDs filed under it.
- **Similarity.** Jaccard overlap of sensory features, plus 0.5 for each matching context, capped at 1.0.
- **Predictor.** A similarity-weighted vote of the five most similar memories.
- **Learner.** It reinforces, averages or weakens the top five similar memories, or logs a contradiction, bumps the bias meter, extends the emotional timeline and (on a large error) commits a new memory.
- **Drift report.** It is computed over a concept's timeline.
- **Attachment graph.** An ego-centric ("Anne Frank") graph whose entity names are resolved through an alias table and a fuzzy matcher.
- **Tag validation.** The language model's emotion tag is validated after parsing.
- **Diary segmentation.** The diary is split into dated entries.
- **Bias summary.** The summary that is fed back to the language model.

Modules follow the source files. Shared helpers come first:

- `Wrappers`: `Option` and `Result`.
- `Numbers`: `Abs`, `Min`, `Max` and the rounding `Round2`.
- `Text`: Python's `strip`, `lower`, `title`, `split`, `join` and `in` on strings.
- `Ranking`: ordering by a score, with ties broken by position (a stable sort) or by ID (a heap key).
- `Tally`: a Python-dict accumulation followed by `max(..., key=...)`.
- `Records`: events, tags and memories.

Then one module per core file: `MemoryStorage`, `Helper`, `Learn`, `Attachment`, `EmotionalTagger`, `Entries`, `BiasLoader`.

State that the source changes in place is held in classes:

- `MemoryStore`: the memory stack.
- `BiasTracker`: the bias meter, the emotional timeline and the contradiction log.
- `AttachmentModel`: the attachment graph.

Their methods state the whole new state in terms of the old one. The invariants they keep are stated separately:

- the index mirrors the list;
- the meter counts what the timeline records;
- each edge's weight is the sum of its history.

Pure queries are functions, with lemmas stating what the source promises of them.

Intensities, similarities and weights are `real`. `round(x, 2)` is `Numbers.Round2`: the nearest multiple of 0.01, with halves rounded up, plus a bounds lemma. The random and clock inputs of the learner are parameters:

- `uuidHex`: the uuid's hex digits.
- `logStamp` and `meterStamp`: the two `datetime.now()` readings.

The fuzzy matcher `difflib.SequenceMatcher(...).ratio()` is a function parameter `ratio`.

Details of the source the model keeps:

- The social and temporal bonuses need the *first* event's context to be non-empty (src/helper.py:74,78).
- The learner's top five break similarity ties by list position. This is Python's stable sort (src/learn.py:82).
- `store_memory` reads every event and tag field by direct indexing, so a call with a missing field is outside what the source accepts and is not given a default (src/memory_storage.py:3-11).
- The moderate-error contradiction branch reproduces the source's asymmetry. It logs, bumps the meter and extends the timeline, but commits nothing (src/learn.py:112-113).

## Model

| member | source | states |
|---|---|---|
| Numbers.Round2 | src/learn.py:40 | rounding to two places moves a value by at most half a hundredth |
| Numbers.Round2Within | src/learn.py:40 | rounding keeps a value inside an integer interval such as [0, 1] or [0, 100] |
| MemoryStorage.MemoryOf | src/memory_storage.py:3-11 | the memory unit carries the event's five fields and the tag's emotion and intensity |
| MemoryStorage.File | src/memory_storage.py:17-21 | the ID is appended to exactly the tag emotion's bucket, a new bucket `[id]` is created when absent, every other bucket is unchanged |
| MemoryStorage.CommitKeepsConsistent | src/memory_storage.py:14-21 | if every ID in every bucket names a listed memory with that bucket's label, the same holds after a commit |
| MemoryStorage.CommitKeepsMirror | src/memory_storage.py:14-21 | a commit keeps each bucket equal to the IDs of the memories carrying its label, in list order |
| MemoryStorage.MirrorsIsConsistent | src/memory_storage.py:14-21 | an exactly mirroring index is index-consistent |
| MemoryStorage.MemoryStore.constructor | main.py:29-39 | the stack starts with no memories and one empty bucket for each of the six emotions |
| MemoryStorage.MemoryStore.StoreMemory | src/memory_storage.py:1-21 | the list is the old list plus the new memory unit (older memories unchanged, in order); the index is filed as `File` says; the mirror invariant is kept |
| MemoryStorage.MemoryStore.SetIntensity | src/learn.py:92 | overwriting one memory's intensity changes nothing else and leaves the index untouched |
| Helper.Similarity | src/helper.py:47-82 | similarity always lies in [0, 1] |
| Helper.SimilaritySymmetric | src/helper.py:66-79 | similarity(a, b) == similarity(b, a) |
| Helper.SimilarityPositive | src/helper.py:66-79 | similarity is positive iff the events share a sensory feature, or `a` has a non-empty social context equal to `b`'s, or a temporal context equal to `b`'s |
| Helper.SelfSimilarity | src/helper.py:66-82 | an event with some sensory feature, or with both contexts set, has similarity exactly 1.0 with itself |
| Helper.DominantEmotion | src/helper.py:84-108 | "Neutral" for an empty stack, otherwise the label of some stored memory |
| Helper.DominantEmotionIsHeaviest | src/helper.py:98-108 | no label has a larger summed intensity than the dominant one |
| Helper.DominantEmotionTiesGoFirst | src/helper.py:98-108 | among labels tied on summed intensity the dominant one is seen first in the list |
| Helper.ExtractCleanEmotionSpec | src/helper.py:131-148 | the result is one of the six labels or "Unknown"; "Unknown" exactly when no keyword occurs as a whole word; otherwise the leftmost whole-word keyword |
| Helper.ExtractCleanEmotionCanonical | src/helper.py:146-148 | a label written in any case cleans to its canonical spelling |
| Helper.ExtractCleanEmotionIdempotent | src/helper.py:146-148 | cleaning a canonical label gives it back |
| Helper.ExtractCleanEmotionExamples | src/helper.py:145-148 | "FEAR" cleans to "Fear", and "dangerous" does not match Anger |
| Learn.Similar | src/learn.py:12-15 | the candidates are the memories in list order, each with its similarity, position and ID |
| Learn.SimilarExactly | src/learn.py:12-15 | exactly the memories with positive similarity are candidates |
| Learn.SimilarDistinct | src/learn.py:15 | with distinct memory IDs no two candidates tie on (similarity, ID), so the heap never compares memory records |
| Learn.Best | src/learn.py:15-17 | the chosen memories are stored memories with positive similarity |
| Learn.PredictNeutral | src/learn.py:19-24 | the prediction is ("Neutral", 0.0, []) exactly when no memory has positive similarity (or k = 0) |
| Learn.PredictSupporting | src/learn.py:12-17 | the supporting IDs are min(k, #similar) memories, by descending similarity then ascending ID, each ranking above every similar memory left out |
| Learn.PredictWinner | src/learn.py:30-39 | the predicted label has the largest summed similarity × intensity over the supporting memories; the first-seen label wins ties |
| Learn.PredictIntensityInUnit | src/learn.py:40 | with stored intensities in [0, 1] the predicted intensity lies in [0, 1] |
| Learn.PredictExample | src/learn.py:8-46 | a single "dark room" Fear memory at 0.6 predicts ("Fear", 0.6, [its ID]) for an event with the same features and contexts |
| Learn.AdjustedInUnit | src/learn.py:92-134 | reinforcement, averaging and weakening keep intensities in [0, 1] |
| Learn.AdjustedDirection | src/learn.py:92 | a low error never lowers an intensity and a high error never raises it |
| Learn.TopSupportingBest | src/learn.py:76-83 | the top supporting memories are at most five distinct positive-similarity memories, as many as exist up to five, none less similar than a memory left out |
| Learn.ReviseKeepsIdsAndLabels | src/learn.py:89-135 | revision leaves every memory's event fields, ID, label and position untouched |
| Learn.ReviseIntensities | src/learn.py:89-135 | exactly the top supporting memories carrying the predicted label get the band's adjusted intensity; all others keep theirs |
| Learn.ReviseInUnit | src/learn.py:89-135 | revision keeps all intensities in [0, 1] |
| Learn.BumpedCounts | src/learn.py:56-60 | the (concept, emotion) count rises by exactly one (from zero when absent), and every other count is unchanged |
| Learn.UpdateKeepsTracks | src/learn.py:49-68 | the meter keeps counting exactly the emotions recorded in the timeline |
| Learn.BiasTracker.constructor | main.py:23-25 | the orchestrator starts with an empty meter, timeline and log, and the meter counts the (empty) timeline |
| Learn.BiasTracker.UpdateBiasMeter | src/learn.py:49-68 | the meter is bumped and one timeline record is appended for the memory's concept; the log is unchanged; the meter still counts exactly what the timeline records |
| Learn.ReviseTopSupporting | src/learn.py:89-100 | the loop leaves the store as `Revise` says, keeps the index and reports the revised IDs in loop order |
| Learn.LearnFromEmotionalError | src/learn.py:71-171 | error is round(abs(p - a), 2); in the low band or on a label match only same-label top-five intensities change (no log, meter, timeline or store growth); on a mismatch at error ≥ 0.2 one contradiction entry (concept, prior, new, rounded error, new ID, stamp) is appended, the meter and timeline are updated, and only in the high band is the new memory committed under the actual label |
| Learn.GenerateBiasShiftReport | src/learn.py:174-206 | the no-data error exactly for an absent concept; otherwise a report for that concept whose Last Updated is the last entry's timestamp |
| Learn.DistributionLabels | src/learn.py:181-186 | the distribution lists each emotion of the history exactly once |
| Learn.DistributionShares | src/learn.py:186 | each percentage is round(count / total × 100, 2), within [0, 100] |
| Learn.ReportDominants | src/learn.py:181-197 | the dominant emotion is the most frequent over the whole history, ties going to the emotion seen first; the recent dominant is the same over the last five records; a shift is detected iff they differ |
| Learn.DominantIsMostFrequent | src/learn.py:181-187 | the tally's winner is an emotion of the history with the largest count, and no emotion first seen earlier has that count |
| Learn.FirstMostFrequentUnique | src/learn.py:187-195 | at most one emotion is the first-seen most frequent one, so the dominant, the recent dominant and the shift are determined by the history |
| Learn.ShortHistoryNoShift | src/learn.py:190-197 | a history of at most five records never reports a shift |
| Attachment.NormalizeRange | src/attachmentmodeling.py:36-43 | an exact alias gives its canonical name; otherwise the result is a canonical name or the title-cased input, the latter only when no alias reaches ratio 0.8 |
| Attachment.EgoAliases | src/attachmentmodeling.py:37-39 | "i", "I", "me", "my", "anne" and "Anne" all normalise to the ego |
| Attachment.AppliedKeepsBalance | src/attachmentmodeling.py:59-61 | one update keeps an edge's weight equal to the sum of its history's adjustments |
| Attachment.AfterBalanced | src/attachmentmodeling.py:53-61 | an update keeps every edge balanced |
| Attachment.NormalizedMembers | src/attachmentmodeling.py:51 | the update set is exactly the non-ego normalised names of the inputs |
| Attachment.UpdateSparesOthers | src/attachmentmodeling.py:51-61 | the ego never gets an edge; edges of names not in the call are unchanged; each named edge gains exactly one history item, however many inputs normalise to it |
| Attachment.AttachmentModel.constructor | src/attachmentmodeling.py:30-34 | the graph starts with no edges |
| Attachment.AttachmentModel.UpdateAttachment | src/attachmentmodeling.py:47-61 | edges become `After`: each non-empty, non-ego normalised name's edge (created at 0.0 with an empty history) moves by intensity × valence / 10 and records it; valence is 0.0 for an unlisted emotion |
| Attachment.AttachmentModel.ApplyToAll | src/attachmentmodeling.py:53-61 | the loop over the normalised names applies the adjustment once to each non-empty name and keeps the invariants |
| Attachment.AttachmentModel.Visit | src/attachmentmodeling.py:54-61 | one name's edge is created if absent and then moved; new names go last in creation order |
| Attachment.AttachmentModel.ProcessEvent | src/attachmentmodeling.py:63-64 | the same effect as `UpdateAttachment`; the event text is ignored |
| Attachment.AttachmentModel.GetStrongestAttachments | src/attachmentmodeling.py:66-68 | the `[:limit]` slice of the graph's edges, by non-increasing absolute weight |
| Attachment.StrongestOrdered | src/attachmentmodeling.py:66-68 | the listed attachments are graph edges, as many as the slice allows, by non-increasing absolute weight |
| Attachment.StrongestStable | src/attachmentmodeling.py:68 | equal absolute weights are listed in edge-creation order |
| Attachment.StrongestBeatsRest | src/attachmentmodeling.py:68 | no edge left out of the slice is stronger than one listed |
| Attachment.AttachmentModel.GetAttachment | src/attachmentmodeling.py:70-71 | the edge of the normalised name when it exists, and none otherwise |
| EmotionalTagger.ProcessEmotionResponse | src/emotionaltagger.py:32-61 | None exactly when nothing was parsed; the missing-Event-ID error exactly when the key is absent; otherwise the parsed fields with only the label and intensity possibly replaced |
| EmotionalTagger.ProcessFields | src/emotionaltagger.py:44-59 | an allowed label is kept and anything else becomes "Curiosity"; an intensity passing the range test is kept and anything else becomes 0.5; the Event ID is untouched |
| EmotionalTagger.KeptCorrectedIsInUnit | src/emotionaltagger.py:56 | the intended range test keeps exactly the numbers in [0, 1] |
| EmotionalTagger.TaggedIsValid | src/emotionaltagger.py:44-59 | with the intended range test every tag has an allowed label and an intensity in [0, 1] |
| EmotionalTagger.TaggedAsWrittenIsValidOrNaN | src/emotionaltagger.py:44-59 | as written, every tag has an allowed label and an intensity in [0, 1] or NaN |
| EmotionalTagger.NaNIntensityKept | src/emotionaltagger.py:56 | a NaN intensity survives the written test but is replaced by 0.5 under the intended one |
| EmotionalTagger.EmotionalTagging | src/emotionaltagger.py:63-78 | when nothing was parsed the result is {event's ID, "Curiosity", 0.5}; it fails only on a missing Event ID; otherwise it is the validated tag |
| EmotionalTagger.TaggingIsValid | src/emotionaltagger.py:63-78 | a successful tagging always has an Event ID, an allowed label and an intensity in [0, 1] |
| EmotionalTagger.EventIdNotCompared | src/emotionaltagger.py:44-46 | once a tag was parsed, the result does not depend on the ID of the event being tagged |
| Entries.HeaderExampleBare | src/entries.py:7-11 | "June 14, 1942" is a date header |
| Entries.HeaderExampleWeekday | src/entries.py:7-11 | a weekday with a comma may come first and text may follow the year |
| Entries.HeaderExampleUpper | src/entries.py:7-11 | case is ignored and the weekday's comma is optional |
| Entries.HeaderPrefix | src/entries.py:7-20 | the pattern is anchored at the start only, so any text after a date header leaves it a date header |
| Entries.DateHeadersNonEmpty | src/entries.py:20-25 | a header line is never empty, so an open entry's date is always truthy |
| Entries.RunState | src/entries.py:19-26 | after any prefix of lines the loop's state is: nothing before the first header; otherwise the last header with its body lines, and the entries of the lines before it |
| Entries.FinishIsReference | src/entries.py:16-29 | the loop plus the final flush yields the section-by-section segmentation |
| Entries.EntriesAtMostHeaders | src/entries.py:22-29 | there are never more entries than header lines |
| Entries.EntriesAreSections | src/entries.py:21-29 | each entry is one header's section with a non-blank text, each body line stripped and followed by one space |
| Entries.PreambleDropped | src/entries.py:21-25 | lines before the first header never reach the output |
| Entries.Feed | src/entries.py:20-26 | one stripped line: a header flushes the open entry if it has non-blank text and opens a new one; another line extends an open entry by itself plus one space |
| Entries.Flush | src/entries.py:28-29 | the last entry is kept only when it has a date and non-blank text |
| Entries.FeedPage | src/entries.py:18-26 | the inner loop runs the state machine over one page's lines |
| Entries.FeedPages | src/entries.py:16-26 | the outer loop runs the state machine over all pages' lines in document order |
| Entries.FormatAll | src/entries.py:30-33 | each entry becomes date + " , " + text, in order |
| Entries.Segment | src/entries.py:13-33 | the output is the formatted section-by-section segmentation of the normalised lines |
| Entries.ReadAndMakeEntries | src/entries.py:4-33 | the same, with the date pattern and `strip` |
| BiasLoader.CollectBias | src/bias_loader.py:19-27 | the focused and ambient bias items, as `BiasItems` defines them |
| BiasLoader.CollectContradictions | src/bias_loader.py:33-42 | the focused and ambient contradiction items, as `ContradictionItems` defines them |
| BiasLoader.Sample | src/bias_loader.py:44-45 | a draw of min(k, n) items without replacement |
| BiasLoader.LoadBiasSummary | src/bias_loader.py:6-47 | the focused items come first, followed by at most 2 ambient bias items or at most 1 ambient contradiction item drawn from the ambient lists; a missing file contributes nothing |
| BiasLoader.BiasItemsMembers | src/bias_loader.py:19-27 | an item is listed iff it belongs to a concept with more than one emotion whose focus matches |
| BiasLoader.BiasItemsPartition | src/bias_loader.py:24-27 | every bias item lands in exactly one of the focused and ambient lists |
| BiasLoader.NoConceptAllAmbient | src/bias_loader.py:24-27 | without a concept nothing is focused and every item is ambient |
| BiasLoader.ContradictionItemsMembers | src/bias_loader.py:33-42 | a contradiction item is listed iff its record has a truthy concept, prior and new emotion and its focus matches |
| BiasLoader.EmotionsByCount | src/bias_loader.py:21-22 | an item's emotions are the stored ones by descending count, with equal counts in stored order |
| BiasLoader.ItemExample | src/bias_loader.py:21-23 | {"Joy": 1, "Fear": 3} under "Anne" reads "- Anne: Fear → Joy" |

## Left out

- The orchestration in main.py is not part of this model. It covers PDF loading, client creation, the two phases, progress bars, printing and writing results.
  - After a "New Memory Added" result it commits the event again under its own ID (main.py:146-148), so the high-band mismatch leaves two memories.
  - It skips events whose cleaned label is "Unknown" (main.py:126-128).
  - The model covers each step it calls, not the sequence.
- Language-model calls are not modelled: `llm`, `get_response`, `create_emotional_tagging_prompt`, src/contextualencoder.py and src/entity_extractor.py. The tagger's regex search and `json.loads` come in as an optional decoded object.
- `extract_entry_date` is not modelled. It is a thin wrapper over `datetime.strptime`.
- `uuid.uuid4()` and `datetime.now()` are parameters of the learner. The new ID is "event_" followed by the first six hex digits given.
- Floats are `real`, so overflow, NaN in the learner and binary rounding are not modelled. `Round2` rounds halves up, while Python rounds the nearest double half-to-even.
- `difflib.SequenceMatcher.ratio` is an arbitrary function parameter. Only the ≥ 0.8 threshold and the first-maximum choice over the alias table are modelled.
- `fitz` page extraction is not modelled: the pages come in as their texts. Reading the two JSON files is not modelled either: each comes in as its decoded contents, or none when the file is missing.
- `random.sample` is a nondeterministic choice of the right size.
- Case mapping, `\w` and `\d` cover ASCII only. Python's Unicode-aware `lower`, `title`, word boundaries and digits are not modelled.
- Contradiction-log values in the bias loader that are truthy but not strings are not modelled. In the source they would raise on `.lower()`.
- The `limit` parameter of `load_bias_summary` is not modelled; the source never uses it.
- `entity_graph` and `emotional_graph` are not modelled. They are initialised and never updated.
- Learn.PredictEmotion requires that no two positive-similarity memories share both similarity and ID. Otherwise the heap would compare memory dictionaries and raise. `Learn.SimilarDistinct` shows that distinct IDs suffice.
- Learn.LearnFromEmotionalError requires the actual label's bucket to exist in the high-band mismatch case. The source indexes it directly (src/learn.py:148).
- Learn.GenerateBiasShiftReport requires a listed concept's history to be non-empty. On an empty list `max` would raise.
- Learn.Meter: a map, so the order in which each concept's emotions were first counted is not kept. main.py writes that order to the saved bias file (main.py:191), and the bias summary uses it to order tied counts (src/bias_loader.py:21-22). BiasLoader takes the saved file as ordered lists, so its own tie order is modelled, but it is not tied to the order the learner produced.
- Attachment.AttachmentModel.UpdateAttachment leaves open the order in which newly created edges are listed. Python iterates the normalised-name set in an unspecified order. Only where new edges land in the graph's insertion order depends on it.

## Findings

| source | as written | input that shows it | evidently intended | confidence | as-written member | corrected member |
|---|---|---|---|---|---|---|
| src/emotionaltagger.py:56 | `not isinstance(intensity, (int, float)) or intensity < 0 or intensity > 1` keeps any value for which both comparisons are false | `{"Event ID": "e1", "Assigned Emotion": "Joy", "Emotion Intensity": NaN}`, which `json.loads` accepts, keeps intensity NaN | a numeric intensity is kept only when it lies in [0, 1]; anything else becomes 0.5 | medium, not executed | EmotionalTagger.NaNIntensityKept | EmotionalTagger.TaggedIsValid |
