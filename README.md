# Dense depthmap orchestration of OpenSfM, in Dafny

This project models the orchestration layer of OpenSfM's dense
reconstruction (`opensfm/dense.py`). It covers how every shot picks its
neighbour views, how a shot's depth search range is derived from the sparse
reconstruction, and how the three cached per-shot stages run: estimate
(raw depthmap), clean and prune. It also covers how the pruned depthmaps are
merged into one point cloud. The numerical kernels (patch-match search,
consistency cleaning, redundancy pruning) stay abstract. The model sees them
only through the views they are given and the result they return.

Modules, in dependency order:

- `Wrappers` (`wrappers.dfy`): `Option` and `Result`.
- `Slices` (`slices.dfy`): Python slicing `s[:n]` (negative `n` included),
  `s[n:]`, and concatenation of a list of arrays.
- `Scene` (`scene.dfy`): shots, tracks, the reconstruction, the track graph,
  the configuration keys, the three artifacts and the native capabilities
  (`Kernels`). A kernel answers `None` where the native call raises.
- `CommonTracks` (`common_tracks.dfy`): the common-track table. Python dict
  insertion order is kept: a row is its key order plus its contents.
- `ScoreSort` (`score_sort.dfy`): the stable descending sort of candidates,
  as a reference insertion sort. Lemmas prove that it is ordered, a
  permutation and stable, and that these three facts admit exactly one
  result. So any stable descending sort, Python's included, equals it.
- `Neighbors` (`neighbors.dfy`): scoring and choosing neighbours.
- `DepthRange` (`depth_range.dfy`): the depth range and its overrides.
- `Stages` (`stages.dfy`): the artifact store (class `DenseDataSet`, with a
  log of every kernel call) and the three stage runners with their view
  assembly.
- `Merge` (`merge.dfy`): `aggregate_depthmaps`, `merge_depthmaps_from_provider`
  and `merge_depthmaps`.
- `Passes` (`passes.dfy`): one pass of a stage over its jobs, run in order.
  It is generic over the stage, and its lemmas are proved once for all three.
- `Pipeline` (`pipeline.dfy`): `compute_depthmaps`. It computes the
  neighbours, builds the job lists, runs the three passes and merges. The
  function `DenseRun` is the whole run as a function of the store.

Where the code and its design description disagree, the model follows the
code:

- A shot that observes no reconstructed point makes `np.percentile` raise.
  `compute_depth_range` is called outside the per-job exception wrappers, so
  the whole run stops before any pass, and the merged cloud is not written.
  The design text says a run always completes. The model returns a
  `NoReconstructedPoints` failure and leaves the store untouched
  (`Pipeline.ComputeDepthmaps`, `Pipeline.DenseRunAborts`).
- The estimate mask keeps a surviving pixel's depth exactly. A raw depth
  of zero therefore stays zero, and a surviving pixel is not always
  non-zero. `Stages.MaskDepthmap` states the exact rule.
- The clean stage runs the cleaner before it loads the shot's own raw
  depthmap. A shot without one still costs a cleaner call, whose first view
  is then a neighbour, and fails afterwards without an artifact
  (`Stages.CleanAttempt`, `Stages.CleanDepthmap`).
- The prune stage never checks or loads the shot's own clean depthmap. A
  shot whose clean job failed is still pruned, against the neighbours that
  have a clean depthmap, and its points are saved and merged
  (`Stages.PruneDepthmap`, `Passes.RunPrunePass`; see Findings).
- Equal scores keep the table's row order, which is the order in which the
  track-graph pairs were first recorded. No secondary key is used.

## Model

| member | source | states |
|---|---|---|
| `Slices.Take` | opensfm/dense.py:299 | `neighbors[:n]` is a prefix of the list, of length `min(n, len)` for `n >= 0` and `max(0, len + n)` for negative `n` |
| `Slices.Drop` | opensfm/dense.py:137 | `neighbors[1:]` has length `max(0, len - 1)`, and element `i` is input element `i + 1` |
| `Slices.ConcatLength` | opensfm/dense.py:260-265 | the concatenation of a list of arrays is as long as the arrays together |
| `Slices.ConcatBlock` | opensfm/dense.py:260-265 | array `i` appears whole and contiguous in the concatenation, right after the arrays before it |
| `CommonTracks.Row.Put` | opensfm/dense.py:406-407 | dict assignment stores the value; an existing key keeps its position and a new key is appended |
| `CommonTracks.Record` | opensfm/dense.py:405-407 | recording a pair keeps the table's shot set and well-formed rows |
| `CommonTracks.RecordEntry` | opensfm/dense.py:406-407 | recording a pair sets the entries of its two shots, in both directions, and leaves every other entry unchanged |
| `CommonTracks.DoubleDict` | opensfm/dense.py:404-407 | the table has exactly one row per shot id of the graph |
| `CommonTracks.DoubleDictEntries` | opensfm/dense.py:404-408 | row `a` holds `b` exactly when some pair is between `a` and `b`, and then holds the tracks of the last such pair |
| `CommonTracks.LatestForWithin` | opensfm/dense.py:404-407 | any shot named in a pair is a shot of the graph |
| `CommonTracks.LatestForSymmetric` | opensfm/dense.py:406-407 | the last pair between two shots does not depend on which shot is named first |
| `CommonTracks.LatestForLast` | opensfm/dense.py:405-407 | a pair that no later pair repeats, in either order, is the one the table keeps |
| `CommonTracks.PairedHasEntry` | opensfm/dense.py:405-407 | every pair leaves an entry |
| `CommonTracks.DoubleDictSymmetric` | opensfm/dense.py:406-407 | `t[a][b]` present implies `t[b][a]` present with the same list |
| `CommonTracks.CommonTracksDoubleDict` | opensfm/dense.py:395-408 | the loop builds the table; it has one row per shot, each pair gives entries in both rows, and the table is symmetric |
| `ScoreSort.WithScoreMembers` | opensfm/dense.py:437 | the candidates of score `k` are exactly the elements with score `k` |
| `ScoreSort.InsertMultiset` | opensfm/dense.py:437 | inserting one candidate adds exactly that candidate |
| `ScoreSort.InsertNonIncreasing` | opensfm/dense.py:437 | inserting into an ordered list keeps it ordered by non-increasing score |
| `ScoreSort.InsertWithScore` | opensfm/dense.py:437 | inserting a candidate after all of at least its score appends it to its score class |
| `ScoreSort.SortByScoreOrdered` | opensfm/dense.py:437 | the sorted candidates have non-increasing scores |
| `ScoreSort.SortByScorePermutes` | opensfm/dense.py:437 | sorting is a permutation (same multiset) |
| `ScoreSort.SortByScoreStable` | opensfm/dense.py:437 | candidates of equal score keep their input order (Python's sort is stable, also with `reverse=True`) |
| `ScoreSort.LastIsLowest` | opensfm/dense.py:437 | in an ordered list the last element has the lowest score |
| `ScoreSort.LastScoresAgree` | opensfm/dense.py:437 | two ordered lists with the same score classes end with the same score |
| `ScoreSort.PrefixesAgree` | opensfm/dense.py:437 | dropping equal-score last elements keeps the score classes equal, and those elements are the same |
| `ScoreSort.LastAndPrefix` | opensfm/dense.py:437 | equal lists with one element appended have equal prefixes and equal last elements |
| `ScoreSort.StableSortUnique` | opensfm/dense.py:437 | two ordered lists with the same score classes are equal |
| `ScoreSort.StableSortIsSortByScore` | opensfm/dense.py:437 | every stable descending sort of the candidates equals the reference sort |
| `Neighbors.RowOf` | opensfm/dense.py:422 | `common_tracks.get(shot, {})` is a well-formed row, empty when the shot has none |
| `Neighbors.Ids` | opensfm/dense.py:438 | the ids of the candidates, in order |
| `Neighbors.CandidatesMembers` | opensfm/dense.py:422-435 | a candidate is exactly a row entry that is a shot of the reconstruction with more than 20 good tracks (angle strictly between pi/60 and pi/6 at a reconstructed point), carrying that count |
| `Neighbors.RankedCandidates` | opensfm/dense.py:434-437 | every ranked candidate is a candidate, a shot of the reconstruction from the row, with score above 20 |
| `Neighbors.NeighborEntry` | opensfm/dense.py:438 | entry `i` of the neighbour list is ranked candidate `i - 1`, with that score |
| `Neighbors.NeighborListProperties` | opensfm/dense.py:420-438 | the list starts with the shot and has `1 + min(n, #candidates)` entries; each other entry is a row entry, a shot of the reconstruction, and has score above 20; scores are non-increasing |
| `Neighbors.NeighborListSelectsBest` | opensfm/dense.py:437-438 | no candidate left out scores higher than one chosen, and within a score the chosen ones are the first in row order |
| `Neighbors.WithScorePrefix` | opensfm/dense.py:438 | a prefix of a list keeps a prefix of every score class |
| `Neighbors.FindNeighboringImages` | opensfm/dense.py:411-438 | the loop computes the neighbour list: starts with the shot, at most `n` more entries, all above 20 good tracks, non-increasing score |
| `DepthRange.ObservedDepthsCount` | opensfm/dense.py:380-385 | one depth per observed track that has a 3D point; the list is empty exactly when none does |
| `DepthRange.ComputeDepthRange` | opensfm/dense.py:373-392 | fails (percentile of an empty list) exactly when no observed track is reconstructed; otherwise the range is P10 times 0.9 and P90 times 1.1, each replaced by a set, non-zero configured bound |
| `DepthRange.OverridePerBound` | opensfm/dense.py:389-392 | each bound's override depends only on its own key; None and 0 do not override |
| `DepthRange.ComputedRangeContainsBand` | opensfm/dense.py:386-387 | without overrides, with positive percentiles, the range is positive and strictly contains the P10 to P90 band |
| `Stages.ParseMethod` | opensfm/dense.py:121-131 | exactly the three method names select a search; any other name selects none |
| `Stages.MaskDepthmap` | opensfm/dense.py:133-134 | a pixel is zero when depth is at or above the max depth or score at or below the minimum score; otherwise it keeps its depth exactly |
| `Stages.MaskIdempotent` | opensfm/dense.py:133-134 | masking twice equals masking once |
| `Stages.FirstNotPerspectiveMeaning` | opensfm/dense.py:299-300 | no non-perspective view is found exactly when all views are perspective, and a found one is the first such view |
| `Stages.FirstNotPerspectiveAt` | opensfm/dense.py:299-300 | the first non-perspective view is the one the loop stops at |
| `Stages.AddViewsToDepthEstimator` | opensfm/dense.py:294-312 | the estimator gets `neighbors[:K+1]` in order, or the assertion fails at the first non-perspective camera |
| `Stages.EstimateAttempt` | opensfm/dense.py:113-138 | a saved raw depthmap means the estimator was called; its neighbour ids are `neighbors[1:]` and every non-zero depth is below the max depth with score above the minimum |
| `Stages.ComputeDepthmap` | opensfm/dense.py:95-138 | with a raw depthmap it skips and changes nothing; otherwise it saves exactly the attempt's result under the shot alone, logs an estimator call with `neighbors[:K+1]` exactly when the estimator is reached, and leaves the clean and pruned artifacts alone |
| `Stages.ViewIds` | opensfm/dense.py:318-326 | the ids of the views, in order |
| `Stages.PresentMembers` | opensfm/dense.py:318-320 | a view is passed exactly when it is a neighbour with an upstream artifact, and it carries that artifact |
| `Stages.PresentHead` | opensfm/dense.py:357-359 | when the first neighbour has an artifact it is the first view |
| `Stages.AddViewsWithArtifact` | opensfm/dense.py:315-326 | the cleaner (and pruner) gets the neighbours with an upstream artifact, in neighbour order, skipping the others |
| `Stages.CleanAttempt` | opensfm/dense.py:188-193 | a saved clean depthmap needs the shot's raw depthmap and carries its plane and score maps |
| `Stages.CleanDepthmap` | opensfm/dense.py:170-193 | with a clean depthmap it skips and changes nothing; otherwise it logs a cleaner call on the neighbours with a raw depthmap and saves exactly the attempt's result under the shot alone |
| `Stages.PruneAttemptAsWritten` | opensfm/dense.py:231-237 | as written, the pruned depthmap is saved whenever the pruner succeeds, whether or not the shot has a clean depthmap |
| `Stages.PruneAsWrittenUsesForeignReference` | opensfm/dense.py:226-237 | a shot without a clean depthmap gets a pruned one whose first (reference) view is a neighbour |
| `Stages.PruneAttempt` | opensfm/dense.py:226-237 | corrected: a saved pruned depthmap needs the shot's clean depthmap; otherwise the attempt is as written |
| `Stages.PruneReferenceIsShot` | opensfm/dense.py:233-237 | corrected: the pruner's first view is the shot itself with its clean depthmap |
| `Stages.PruneDepthmap` | opensfm/dense.py:216-237 | with a pruned depthmap it skips and changes nothing; otherwise it always logs a pruner call on the neighbours with a clean depthmap, whether or not the shot has one, and saves exactly the as-written attempt's result under the shot alone |
| `Merge.Clouds` | opensfm/dense.py:253-254 | one cloud per shot id, from the provider, in order |
| `Merge.JoinedEmpty` | opensfm/dense.py:287-289 | joining no clouds gives four empty arrays |
| `Merge.JoinedBlocks` | opensfm/dense.py:260-265 | the merged arrays are as long as all shots' arrays together, and each shot's points, normals, colours and labels sit contiguously at the same offset, in shot order |
| `Merge.SameLengthConcat` | opensfm/dense.py:260-265 | when each cloud's four arrays have equal lengths, so do the merged arrays |
| `Merge.AggregateDepthmaps` | opensfm/dense.py:243-265 | fails (concatenating nothing) exactly on no shot ids; otherwise the concatenation of the provider's clouds in shot order |
| `Merge.MergeDepthmapsFromProvider` | opensfm/dense.py:280-291 | no shot gives four empty arrays; otherwise the joined clouds, with as many points as the shots together |
| `Merge.ShotsWithPruned` | opensfm/dense.py:272 | a shot is merged exactly when it is in the reconstruction and has a pruned depthmap |
| `Merge.MergeDepthmaps` | opensfm/dense.py:268-277 | the merged cloud joins, in the reconstruction's shot order, the pruned depthmaps of the shots that have one |
| `Passes.PassGrows` | opensfm/dense.py:45 | a pass never removes or replaces an artifact, and it only adds artifacts for its jobs' shots |
| `Passes.PassPerJob` | opensfm/dense.py:45 | with distinct shots, a job whose shot had no artifact leaves one exactly when its own attempt succeeds, holding that result, whatever the other jobs do |
| `Passes.PassSettles` | opensfm/dense.py:45 | after a pass, every job's shot has an artifact or its attempt fails |
| `Passes.PassFixpoint` | opensfm/dense.py:109-111 | a pass over a store where each job is guarded or fails changes nothing |
| `Passes.PassAllGuarded` | opensfm/dense.py:180-182 | when every job's shot already has an artifact, a pass changes nothing and calls no kernel |
| `Passes.RunEstimatePass` | opensfm/dense.py:45 | the estimate pass leaves the raw depthmaps and the call log given by the pass function; the clean and pruned artifacts are unchanged |
| `Passes.RunCleanPass` | opensfm/dense.py:52 | the clean pass, against the raw depthmaps as left by the estimate pass |
| `Passes.RunPrunePass` | opensfm/dense.py:59 | the prune pass as written, against the clean depthmaps as left by the clean pass; the raw and clean artifacts are unchanged |
| `Pipeline.AllNeighbors` | opensfm/dense.py:32-37 | one neighbour list per shot of the reconstruction, each starting with the shot |
| `Pipeline.ComputeNeighbors` | opensfm/dense.py:32-37 | the loop computes every shot's neighbour list |
| `Pipeline.NeighborsExtend` | opensfm/dense.py:34-37 | one more shot adds its neighbour list to the map |
| `Pipeline.Scheduled` | opensfm/dense.py:40-42 | a shot is scheduled exactly when its neighbour list has more than one entry; distinct shots stay distinct |
| `Pipeline.EstimateJobsExtend` | opensfm/dense.py:40-44 | one more shot extends the estimate argument list as the loop body does |
| `Pipeline.EstimateJobsFailureStays` | opensfm/dense.py:43 | once a shot has aborted the list, later shots do not change the outcome |
| `Pipeline.EstimateJobsMeaning` | opensfm/dense.py:39-44 | the list is built exactly when every scheduled shot has a reconstructed point, and then holds each scheduled shot's job with its depth range, in shot order |
| `Pipeline.RefineJobs` | opensfm/dense.py:47-51 | one clean/prune job per scheduled shot, in order, with its neighbour list |
| `Pipeline.BuildEstimateJobs` | opensfm/dense.py:39-44 | the loop builds the estimate argument list, or stops at the first failing depth range |
| `Pipeline.BuildRefineJobs` | opensfm/dense.py:47-58 | the loop builds the clean and prune argument list |
| `Pipeline.EstimateShotsScheduled` | opensfm/dense.py:39-44 | the estimate jobs are for the scheduled shots, in order, each with its own depth range |
| `Pipeline.EstimatePassGrows` | opensfm/dense.py:45 | the estimate pass keeps old raw depthmaps and adds only scheduled shots |
| `Pipeline.RefinePassesGrow` | opensfm/dense.py:52-59 | the clean and prune passes keep old artifacts and add only scheduled shots |
| `Pipeline.PassPerScheduledShot` | opensfm/dense.py:45-59 | within a pass, a scheduled shot without an artifact gains one exactly when its own attempt succeeds |
| `Pipeline.PassScheduledGuarded` | opensfm/dense.py:45-59 | a pass whose scheduled shots all have their artifact changes nothing |
| `Pipeline.DenseRunAborts` | opensfm/dense.py:39-45 | a run aborts exactly when a scheduled shot observes no reconstructed point, and the error names such a shot |
| `Pipeline.DenseRunGrows` | opensfm/dense.py:15-59 | a run never removes or replaces an artifact of any stage, and it adds artifacts only for shots with at least one neighbour |
| `Pipeline.DenseRunPerShot` | opensfm/dense.py:39-59 | each scheduled shot gains a raw, clean or pruned artifact exactly when its own attempt succeeds, against the upstream artifacts of the previous pass (the prune attempt as written, so a shot without a clean depthmap can still gain points); one shot's failure does not stop another shot |
| `Pipeline.DenseRunResumes` | opensfm/dense.py:15-59 | running again on what a run left, with kernels that may now answer differently, keeps every artifact of the first run and adds artifacts only for scheduled shots that lacked one; with the same kernels it changes no artifact |
| `Pipeline.DenseRunRepeats` | opensfm/dense.py:15-59 | a second run with the same kernels changes no artifact: every shot is skipped by its guard or fails as before |
| `Pipeline.DenseRunAllDone` | opensfm/dense.py:15-59 | when every scheduled shot already has all three artifacts, a run calls no kernel and changes nothing |
| `Pipeline.ComputeDepthmaps` | opensfm/dense.py:15-62 | on abort the store is untouched; otherwise the store ends as `DenseRun` says and the result is the merged cloud of the pruned depthmaps |

## Left out

- The numerical kernels (`pydense` estimator, cleaner and pruner) are
  parameters of type `Kernels`. Only the views they receive and whether they
  raise are modelled.
- Images, masks, segmentation labels, their loading and scaling, camera
  intrinsics and poses (`load_combined_mask`, `load_segmentation_labels`,
  `scale_image`, `scale_down_image`) are not part of this model. A view is
  its shot id, plus the upstream artifact where one is passed.
- `angle_between_points` and the pose transform are floating-point geometry
  (`arccos`, square roots). They are given as `angleOverPi` and `depthIn`
  on the reconstruction. `distance_between_shots` is not used by the core.
- `np.percentile` is a parameter. Only its failure on an empty list is
  modelled.
- The patch-match iteration count, patch size, minimum patch deviation,
  resolution cap, same-depth threshold and minimum consistent views only
  configure the kernels and are not modelled.
- `parallel_map` runs jobs in parallel. The model runs each pass's jobs one
  after the other, in list order. Jobs of a pass touch only their own
  shot's artifact and read only the previous stage's artifacts, and
  `Passes.PassPerJob` shows the outcome does not depend on the other jobs.
- Logging, `log.setup`, the debug PLY exports (`depthmap_to_ply`,
  `color_plane_normals`), interactive display and the empty-merge warning
  are output only and not modelled.
- `data.save_point_cloud(..., "merged.ply")` is not modelled:
  `Pipeline.ComputeDepthmaps` returns the merged cloud instead.
- Per-pixel maps are flattened sequences. A numpy broadcasting error
  between depth and score shapes is modelled as the `ShapeMismatch` failure.
  Floating-point NaN and rounding are not modelled; depths and scores are
  reals.
- The track-graph routine `all_common_tracks_without_features` is not part
  of this model. Its result is the `commonPairs` list, whose shots lie in
  the graph (`PairsWithin`).
- `Stages.EstimateAttempt`: the depth-sample count 100 is passed to the
  estimator, but what the estimator does with it is not modelled.
- `Passes.RunEstimatePass`, `Passes.RunCleanPass`, `Passes.RunPrunePass`:
  no exception is modelled beyond a kernel returning `None`, a failed
  perspective assertion, an unknown method, a shape mismatch and a missing
  own upstream artifact.

## Findings

| source | as written | input that shows it | evidently intended | confidence | as-written member | corrected member |
|---|---|---|---|---|---|---|
| opensfm/dense.py:226-237 | `prune_depthmap` checks only that the shot has no pruned depthmap; it never checks or loads the shot's own clean depthmap, and it passes the pruner every neighbour that has one | neighbour list `["a", "b"]`, shot `a` without a clean depthmap (its clean job failed), `b` with one: the pruner's first (reference) view is `b`, and its points are saved as `a`'s pruned depthmap and merged a second time | like `clean_depthmap`, which needs the shot's own raw depthmap, pruning needs the shot's own clean depthmap, so the reference view is the shot itself | medium (assumes the native pruner takes the first view as reference), not executed | `Stages.PruneAsWrittenUsesForeignReference` | `Stages.PruneReferenceIsShot` |

The pipeline runs the prune stage as written (`Stages.PruneDepthmap`,
`Passes.PrunePass`). The corrected attempt `Stages.PruneAttempt` is a
separate definition, and `Stages.PruneReferenceIsShot` proves what it
promises.
