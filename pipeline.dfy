/**
 * The scheduler (`compute_depthmaps`): compute every shot's neighbour list
 * once, build the estimate jobs (which needs each scheduled shot's depth
 * range), run the estimate, clean and prune passes over the shots with at
 * least one neighbour, and merge the pruned points.
 */
module Pipeline {
  import opened Wrappers
  import opened Scene
  import opened CommonTracks
  import opened Neighbors
  import opened DepthRange
  import opened Stages
  import opened Merge
  import opened Passes

  /** The neighbour list of every shot of the reconstruction. */
  function AllNeighbors(rec: Reconstruction, table: Table, n: int): (m: map<ShotId, seq<ShotId>>)
    requires WellFormed(table)
    ensures forall s :: s in m <==> s in rec.shots
    ensures forall s :: s in m ==> |m[s]| >= 1 && m[s][0] == s
  {
    map s | s in rec.shots :: NeighborList(s, table, rec, n)
  }

  /** `compute_depthmaps`' first loop: the neighbour list of every shot. */
  method ComputeNeighbors(rec: Reconstruction, table: Table, n: int) returns (neighbors: map<ShotId, seq<ShotId>>)
    requires WellFormed(table)
    ensures neighbors == AllNeighbors(rec, table, n)
  {
    neighbors := map[];
    for i := 0 to |rec.shots|
      invariant neighbors == map s | s in rec.shots[..i] :: NeighborList(s, table, rec, n)
    {
      var shot := rec.shots[i];
      var list := FindNeighboringImages(shot, table, rec, n);
      NeighborsExtend(rec.shots, i, table, rec, n);
      neighbors := neighbors[shot := list];
    }
    assert rec.shots[..|rec.shots|] == rec.shots;
  }

  lemma NeighborsExtend(shots: seq<ShotId>, i: nat, table: Table, rec: Reconstruction, n: int)
    requires WellFormed(table) && i < |shots|
    ensures (map s | s in shots[..i + 1] :: NeighborList(s, table, rec, n))
            == (map s | s in shots[..i] :: NeighborList(s, table, rec, n))[shots[i] := NeighborList(shots[i], table, rec, n)]
  {
    assert shots[..i + 1] == shots[..i] + [shots[i]];
  }

  /** The shots, in order, whose neighbour list holds more than the shot
      itself; no shot is scheduled twice when the shot ids are distinct. */
  function Scheduled(shots: seq<ShotId>, neighbors: map<ShotId, seq<ShotId>>): (r: seq<ShotId>)
    requires forall s :: s in shots ==> s in neighbors
    ensures forall s :: s in r <==> s in shots && |neighbors[s]| > 1
    ensures Distinct(shots) ==> Distinct(r)
  {
    if shots == [] then []
    else
      var pre := shots[..|shots| - 1];
      var s := shots[|shots| - 1];
      assert shots == pre + [s];
      Scheduled(pre, neighbors) + (if |neighbors[s]| > 1 then [s] else [])
  }

  /** The shot observes no track with a 3D point: its depth range is undefined. */
  predicate NoPoints(graph: TrackGraph, rec: Reconstruction, s: ShotId)
  {
    forall t :: t in graph.observations(s) ==> t !in rec.points
  }

  /** The estimate job of a scheduled shot: its neighbours and depth range. */
  function EstimateJobFor(graph: TrackGraph, rec: Reconstruction, neighbors: map<ShotId, seq<ShotId>>,
                          config: Config, percentile: (seq<real>, real) -> real, s: ShotId): EstimateJob
    requires s in neighbors
  {
    var range := RangeOf(ObservedDepths(graph.observations(s), rec, s), percentile, config);
    EstimateJob(neighbors[s], range.minDepth, range.maxDepth, s)
  }

  /** The first pass's argument list, built in shot order: one job per
      scheduled shot, and the first scheduled shot without a reconstructed
      point aborts the run. */
  function EstimateJobs(graph: TrackGraph, rec: Reconstruction, neighbors: map<ShotId, seq<ShotId>>,
                        config: Config, percentile: (seq<real>, real) -> real, shots: seq<ShotId>)
    : Result<seq<EstimateJob>, DepthRangeError>
    requires forall s :: s in shots ==> s in neighbors
  {
    if shots == [] then Success([])
    else
      var pre := shots[..|shots| - 1];
      var s := shots[|shots| - 1];
      var prev := EstimateJobs(graph, rec, neighbors, config, percentile, pre);
      if prev.Failure? then prev
      else if |neighbors[s]| <= 1 then prev
      else if NoPoints(graph, rec, s) then Failure(NoReconstructedPoints(s))
      else Success(prev.value + [EstimateJobFor(graph, rec, neighbors, config, percentile, s)])
  }

  /** The list is built exactly when every scheduled shot has a
      reconstructed point; it then holds, in shot order, the job of each
      scheduled shot; otherwise the error names a scheduled shot without one. */
  lemma {:induction false} EstimateJobsMeaning(graph: TrackGraph, rec: Reconstruction, neighbors: map<ShotId, seq<ShotId>>,
                                               config: Config, percentile: (seq<real>, real) -> real, shots: seq<ShotId>)
    requires forall s :: s in shots ==> s in neighbors
    ensures var r := EstimateJobs(graph, rec, neighbors, config, percentile, shots);
            && (r.Success? <==> forall s :: s in Scheduled(shots, neighbors) ==> !NoPoints(graph, rec, s))
            && (r.Failure? ==> r.error.shot in Scheduled(shots, neighbors) && NoPoints(graph, rec, r.error.shot))
            && (r.Success? ==> |r.value| == |Scheduled(shots, neighbors)|)
            && (r.Success? ==> forall i :: 0 <= i < |r.value| ==>
                  r.value[i] == EstimateJobFor(graph, rec, neighbors, config, percentile, Scheduled(shots, neighbors)[i]))
  {
    if shots != [] {
      var pre := shots[..|shots| - 1];
      var s := shots[|shots| - 1];
      assert shots == pre + [s];
      EstimateJobsMeaning(graph, rec, neighbors, config, percentile, pre);
    }
  }

  /** The second and third passes' argument list: one job per scheduled shot. */
  function RefineJobs(shots: seq<ShotId>, neighbors: map<ShotId, seq<ShotId>>): (r: seq<RefineJob>)
    requires forall s :: s in shots ==> s in neighbors
    ensures |r| == |Scheduled(shots, neighbors)|
    ensures forall i :: 0 <= i < |r| ==>
              r[i].shot == Scheduled(shots, neighbors)[i] && r[i].neighbors == neighbors[r[i].shot]
  {
    if shots == [] then []
    else
      var pre := shots[..|shots| - 1];
      var s := shots[|shots| - 1];
      assert shots == pre + [s];
      RefineJobs(pre, neighbors) + (if |neighbors[s]| > 1 then [RefineJob(neighbors[s], s)] else [])
  }

  /** One more shot extends the argument list as the loop body does. */
  lemma EstimateJobsExtend(graph: TrackGraph, rec: Reconstruction, neighbors: map<ShotId, seq<ShotId>>,
                           config: Config, percentile: (seq<real>, real) -> real, shots: seq<ShotId>, i: nat)
    requires i < |shots| && forall s :: s in shots ==> s in neighbors
    ensures var prev := EstimateJobs(graph, rec, neighbors, config, percentile, shots[..i]);
            var s := shots[i];
            EstimateJobs(graph, rec, neighbors, config, percentile, shots[..i + 1])
            == if prev.Failure? || |neighbors[s]| <= 1 then prev
               else if NoPoints(graph, rec, s) then Failure(NoReconstructedPoints(s))
               else Success(prev.value + [EstimateJobFor(graph, rec, neighbors, config, percentile, s)])
  {
    assert shots[..i + 1][..i] == shots[..i];
  }

  /** Once a shot has aborted the list, later shots do not change the outcome. */
  lemma {:induction false} EstimateJobsFailureStays(graph: TrackGraph, rec: Reconstruction, neighbors: map<ShotId, seq<ShotId>>,
                                                    config: Config, percentile: (seq<real>, real) -> real,
                                                    shots: seq<ShotId>, i: nat)
    requires i <= |shots| && forall s :: s in shots ==> s in neighbors
    requires EstimateJobs(graph, rec, neighbors, config, percentile, shots[..i]).Failure?
    ensures EstimateJobs(graph, rec, neighbors, config, percentile, shots)
            == EstimateJobs(graph, rec, neighbors, config, percentile, shots[..i])
    decreases |shots| - i
  {
    if i < |shots| {
      EstimateJobsExtend(graph, rec, neighbors, config, percentile, shots, i);
      EstimateJobsFailureStays(graph, rec, neighbors, config, percentile, shots, i + 1);
    } else {
      assert shots[..i] == shots;
    }
  }

  /** `compute_depthmaps`' second loop. */
  method BuildEstimateJobs(graph: TrackGraph, rec: Reconstruction, neighbors: map<ShotId, seq<ShotId>>,
                           config: Config, percentile: (seq<real>, real) -> real)
    returns (r: Result<seq<EstimateJob>, DepthRangeError>)
    requires forall s :: s in rec.shots ==> s in neighbors
    ensures r == EstimateJobs(graph, rec, neighbors, config, percentile, rec.shots)
  {
    var jobs: seq<EstimateJob> := [];
    for i := 0 to |rec.shots|
      invariant EstimateJobs(graph, rec, neighbors, config, percentile, rec.shots[..i]) == Success(jobs)
    {
      EstimateJobsExtend(graph, rec, neighbors, config, percentile, rec.shots, i);
      var shot := rec.shots[i];
      if |neighbors[shot]| <= 1 {
        continue;
      }
      var range := ComputeDepthRange(graph.observations(shot), rec, shot, config, percentile);
      if range.Failure? {
        EstimateJobsFailureStays(graph, rec, neighbors, config, percentile, rec.shots, i + 1);
        return Failure(range.error);
      }
      jobs := jobs + [EstimateJob(neighbors[shot], range.value.minDepth, range.value.maxDepth, shot)];
    }
    assert rec.shots[..|rec.shots|] == rec.shots;
    r := Success(jobs);
  }

  /** `compute_depthmaps`' third and fourth loops. */
  method BuildRefineJobs(shots: seq<ShotId>, neighbors: map<ShotId, seq<ShotId>>) returns (jobs: seq<RefineJob>)
    requires forall s :: s in shots ==> s in neighbors
    ensures jobs == RefineJobs(shots, neighbors)
  {
    jobs := [];
    for i := 0 to |shots|
      invariant jobs == RefineJobs(shots[..i], neighbors)
    {
      assert shots[..i + 1][..i] == shots[..i];
      var shot := shots[i];
      if |neighbors[shot]| <= 1 {
        continue;
      }
      jobs := jobs + [RefineJob(neighbors[shot], shot)];
    }
    assert shots[..|shots|] == shots;
  }

  /** The artifacts of a data set and the kernel calls made so far. */
  datatype Store = Store(raw: map<ShotId, RawArtifact>, clean: map<ShotId, CleanArtifact>,
                         pruned: map<ShotId, PointCloud>, calls: seq<Invocation>)

  function NeighborsOf(graph: TrackGraph, rec: Reconstruction, config: Config): map<ShotId, seq<ShotId>>
    requires PairsWithin(graph.shotIds, graph.commonPairs)
  {
    AllNeighbors(rec, DoubleDict(graph.shotIds, graph.commonPairs), config.numNeighbors)
  }

  /** What a run of `compute_depthmaps` does to the store: abort before any
      pass when a scheduled shot has no depth range, otherwise the three
      passes in turn, each reading what the previous one left. */
  function DenseRun(before: Store, graph: TrackGraph, rec: Reconstruction, config: Config,
                    kernels: Kernels, percentile: (seq<real>, real) -> real): Result<Store, DepthRangeError>
    requires PairsWithin(graph.shotIds, graph.commonPairs)
  {
    var neighbors := NeighborsOf(graph, rec, config);
    var jobs := EstimateJobs(graph, rec, neighbors, config, percentile, rec.shots);
    if jobs.Failure? then Failure(jobs.error)
    else
      var refine := RefineJobs(rec.shots, neighbors);
      var e := EstimatePass(before.raw, jobs.value, rec, config, kernels);
      var c := CleanPass(before.clean, refine, e.artifacts, kernels);
      var p := PrunePass(before.pruned, refine, c.artifacts, kernels);
      Success(Store(e.artifacts, c.artifacts, p.artifacts, before.calls + e.calls + c.calls + p.calls))
  }

  /** `compute_depthmaps`: returns the merged cloud that the source writes
      to `merged.ply`. */
  method ComputeDepthmaps(data: DenseDataSet, graph: TrackGraph, rec: Reconstruction, config: Config,
                          kernels: Kernels, percentile: (seq<real>, real) -> real)
    returns (r: Result<PointCloud, DepthRangeError>)
    requires PairsWithin(graph.shotIds, graph.commonPairs)
    modifies data
    ensures var run := DenseRun(Store(old(data.raw), old(data.clean), old(data.pruned), old(data.calls)),
                                graph, rec, config, kernels, percentile);
            && (r.Failure? <==> run.Failure?)
            && (r.Failure? ==> r.error == run.error && unchanged(data))
            && (r.Success? ==> Store(data.raw, data.clean, data.pruned, data.calls) == run.value
                               && r.value == MergedCloud(rec.shots, data.pruned))
  {
    var table := CommonTracksDoubleDict(graph.shotIds, graph.commonPairs);
    var neighbors := ComputeNeighbors(rec, table, config.numNeighbors);
    var jobs := BuildEstimateJobs(graph, rec, neighbors, config, percentile);
    if jobs.Failure? {
      return Failure(jobs.error);
    }
    RunEstimatePass(data, jobs.value, rec, config, kernels);
    var refine := BuildRefineJobs(rec.shots, neighbors);
    RunCleanPass(data, refine, kernels);
    refine := BuildRefineJobs(rec.shots, neighbors);
    RunPrunePass(data, refine, kernels);
    var cloud := MergeDepthmaps(data, rec);
    r := Success(cloud);
  }

  /** A run aborts exactly when a scheduled shot (one with a neighbour)
      observes no reconstructed point, and the error names such a shot. */
  lemma DenseRunAborts(before: Store, graph: TrackGraph, rec: Reconstruction, config: Config,
                       kernels: Kernels, percentile: (seq<real>, real) -> real)
    requires PairsWithin(graph.shotIds, graph.commonPairs)
    ensures var neighbors := NeighborsOf(graph, rec, config);
            var run := DenseRun(before, graph, rec, config, kernels, percentile);
            && (run.Failure? <==> exists s :: s in Scheduled(rec.shots, neighbors) && NoPoints(graph, rec, s))
            && (run.Failure? ==> run.error.shot in rec.shots && |neighbors[run.error.shot]| > 1
                                 && NoPoints(graph, rec, run.error.shot))
  {
    EstimateJobsMeaning(graph, rec, NeighborsOf(graph, rec, config), config, percentile, rec.shots);
  }

  /** The shots of the estimate jobs of a successful run are the scheduled shots. */
  lemma EstimateShotsScheduled(graph: TrackGraph, rec: Reconstruction, neighbors: map<ShotId, seq<ShotId>>,
                               config: Config, percentile: (seq<real>, real) -> real)
    requires forall s :: s in rec.shots ==> s in neighbors
    requires EstimateJobs(graph, rec, neighbors, config, percentile, rec.shots).Success?
    ensures var jobs := EstimateJobs(graph, rec, neighbors, config, percentile, rec.shots).value;
            && |jobs| == |Scheduled(rec.shots, neighbors)|
            && forall i :: 0 <= i < |jobs| ==> jobs[i].shot == Scheduled(rec.shots, neighbors)[i]
                                               && jobs[i] == EstimateJobFor(graph, rec, neighbors, config, percentile, jobs[i].shot)
  {
    EstimateJobsMeaning(graph, rec, neighbors, config, percentile, rec.shots);
  }

  /** A pass's new artifacts belong to its jobs' shots. */
  lemma EstimatePassGrows(raw: map<ShotId, RawArtifact>, jobs: seq<EstimateJob>, rec: Reconstruction,
                          config: Config, kernels: Kernels, scheduled: seq<ShotId>)
    requires |jobs| == |scheduled| && forall i :: 0 <= i < |jobs| ==> jobs[i].shot == scheduled[i]
    ensures var after := EstimatePass(raw, jobs, rec, config, kernels).artifacts;
            && (forall s :: s in raw ==> s in after && after[s] == raw[s])
            && (forall s :: s in after && s !in raw ==> s in scheduled)
  {
    PassGrows(raw, jobs, EstimateShot, EstimateStep(rec, config, kernels), EstimateLog(rec, config));
    var after := EstimatePass(raw, jobs, rec, config, kernels).artifacts;
    forall s | s in after && s !in raw
      ensures s in scheduled
    {
      var i :| 0 <= i < |jobs| && EstimateShot(jobs[i]) == s;
      assert scheduled[i] == s;
    }
  }

  lemma RefinePassesGrow<V>(before: map<ShotId, V>, jobs: seq<RefineJob>, attempt: RefineJob -> Result<V, JobError>,
                            log: RefineJob -> seq<Invocation>, scheduled: seq<ShotId>)
    requires |jobs| == |scheduled| && forall i :: 0 <= i < |jobs| ==> jobs[i].shot == scheduled[i]
    ensures var after := Pass(before, jobs, RefineShot, attempt, log).artifacts;
            && (forall s :: s in before ==> s in after && after[s] == before[s])
            && (forall s :: s in after && s !in before ==> s in scheduled)
  {
    PassGrows(before, jobs, RefineShot, attempt, log);
    var after := Pass(before, jobs, RefineShot, attempt, log).artifacts;
    forall s | s in after && s !in before
      ensures s in scheduled
    {
      var i :| 0 <= i < |jobs| && RefineShot(jobs[i]) == s;
      assert scheduled[i] == s;
    }
  }

  /** A run never removes or replaces an artifact of any stage, and it only
      adds artifacts for scheduled shots. */
  lemma DenseRunGrows(before: Store, graph: TrackGraph, rec: Reconstruction, config: Config,
                      kernels: Kernels, percentile: (seq<real>, real) -> real)
    requires PairsWithin(graph.shotIds, graph.commonPairs)
    requires DenseRun(before, graph, rec, config, kernels, percentile).Success?
    ensures var after := DenseRun(before, graph, rec, config, kernels, percentile).value;
            var scheduled := Scheduled(rec.shots, NeighborsOf(graph, rec, config));
            && (forall s :: s in before.raw ==> s in after.raw && after.raw[s] == before.raw[s])
            && (forall s :: s in before.clean ==> s in after.clean && after.clean[s] == before.clean[s])
            && (forall s :: s in before.pruned ==> s in after.pruned && after.pruned[s] == before.pruned[s])
            && (forall s :: s in after.raw && s !in before.raw ==> s in scheduled)
            && (forall s :: s in after.clean && s !in before.clean ==> s in scheduled)
            && (forall s :: s in after.pruned && s !in before.pruned ==> s in scheduled)
  {
    var neighbors := NeighborsOf(graph, rec, config);
    var scheduled := Scheduled(rec.shots, neighbors);
    var jobs := EstimateJobs(graph, rec, neighbors, config, percentile, rec.shots).value;
    var refine := RefineJobs(rec.shots, neighbors);
    var e := EstimatePass(before.raw, jobs, rec, config, kernels);
    var c := CleanPass(before.clean, refine, e.artifacts, kernels);
    EstimateShotsScheduled(graph, rec, neighbors, config, percentile);
    EstimatePassGrows(before.raw, jobs, rec, config, kernels, scheduled);
    RefinePassesGrow(before.clean, refine, CleanStep(e.artifacts, kernels), CleanLog(e.artifacts), scheduled);
    RefinePassesGrow(before.pruned, refine, PruneStep(c.artifacts, kernels), PruneLog(c.artifacts), scheduled);
  }

  /** Within a pass over distinct shots, a scheduled shot without an
      artifact gains one exactly when its own attempt succeeds. */
  lemma PassPerScheduledShot<J, V>(before: map<ShotId, V>, jobs: seq<J>, shotOf: J -> ShotId,
                                   attempt: J -> Result<V, JobError>, log: J -> seq<Invocation>,
                                   scheduled: seq<ShotId>, i: nat)
    requires Distinct(scheduled)
    requires |jobs| == |scheduled| && forall k :: 0 <= k < |jobs| ==> shotOf(jobs[k]) == scheduled[k]
    requires i < |jobs| && scheduled[i] !in before
    ensures var after := Pass(before, jobs, shotOf, attempt, log).artifacts;
            && (scheduled[i] in after <==> attempt(jobs[i]).Success?)
            && (attempt(jobs[i]).Success? ==> after[scheduled[i]] == attempt(jobs[i]).value)
  {
    PassPerJob(before, jobs, shotOf, attempt, log, i);
  }

  /** Each scheduled shot's stages depend on nothing but that shot's own
      attempts: it gains a raw depthmap exactly when its estimate succeeds,
      a clean one exactly when its cleaning against the raw depthmaps
      succeeds, and points exactly when its pruning against the clean
      depthmaps succeeds, whatever happens to the other shots. */
  lemma DenseRunPerShot(before: Store, graph: TrackGraph, rec: Reconstruction, config: Config,
                        kernels: Kernels, percentile: (seq<real>, real) -> real, s: ShotId)
    requires PairsWithin(graph.shotIds, graph.commonPairs) && Distinct(rec.shots)
    requires DenseRun(before, graph, rec, config, kernels, percentile).Success?
    requires s in Scheduled(rec.shots, NeighborsOf(graph, rec, config))
    ensures var neighbors := NeighborsOf(graph, rec, config);
            var after := DenseRun(before, graph, rec, config, kernels, percentile).value;
            var e := EstimateAttempt(EstimateJobFor(graph, rec, neighbors, config, percentile, s), rec, config, kernels);
            var c := CleanAttempt(RefineJob(neighbors[s], s), after.raw, kernels);
            var p := PruneAttemptAsWritten(RefineJob(neighbors[s], s), after.clean, kernels);
            && (s !in before.raw ==> (s in after.raw <==> e.Success?) && (e.Success? ==> after.raw[s] == e.value))
            && (s !in before.clean ==> (s in after.clean <==> c.Success?) && (c.Success? ==> after.clean[s] == c.value))
            && (s !in before.pruned ==> (s in after.pruned <==> p.Success?) && (p.Success? ==> after.pruned[s] == p.value))
  {
    var neighbors := NeighborsOf(graph, rec, config);
    var scheduled := Scheduled(rec.shots, neighbors);
    var jobs := EstimateJobs(graph, rec, neighbors, config, percentile, rec.shots).value;
    var refine := RefineJobs(rec.shots, neighbors);
    var e := EstimatePass(before.raw, jobs, rec, config, kernels);
    var c := CleanPass(before.clean, refine, e.artifacts, kernels);
    EstimateShotsScheduled(graph, rec, neighbors, config, percentile);
    var i :| 0 <= i < |scheduled| && scheduled[i] == s;
    if s !in before.raw {
      PassPerScheduledShot(before.raw, jobs, EstimateShot, EstimateStep(rec, config, kernels), EstimateLog(rec, config), scheduled, i);
    }
    if s !in before.clean {
      PassPerScheduledShot(before.clean, refine, RefineShot, CleanStep(e.artifacts, kernels), CleanLog(e.artifacts), scheduled, i);
    }
    if s !in before.pruned {
      PassPerScheduledShot(before.pruned, refine, RefineShot, PruneStep(c.artifacts, kernels), PruneLog(c.artifacts), scheduled, i);
    }
  }

  /** Running `compute_depthmaps` again on what a run left, with kernels
      that may now answer differently, starts every pass again: it keeps
      every artifact of the first run and computes new ones only for
      scheduled shots that still lack them. With the same kernels it changes
      no artifact: each shot's guard skips it, or its attempt fails as
      before. */
  lemma DenseRunResumes(before: Store, graph: TrackGraph, rec: Reconstruction, config: Config,
                        kernels: Kernels, kernels2: Kernels, percentile: (seq<real>, real) -> real)
    requires PairsWithin(graph.shotIds, graph.commonPairs)
    requires DenseRun(before, graph, rec, config, kernels, percentile).Success?
    ensures var first := DenseRun(before, graph, rec, config, kernels, percentile).value;
            var second := DenseRun(first, graph, rec, config, kernels2, percentile);
            var scheduled := Scheduled(rec.shots, NeighborsOf(graph, rec, config));
            && second.Success?
            && (forall s :: s in first.raw ==> s in second.value.raw && second.value.raw[s] == first.raw[s])
            && (forall s :: s in first.clean ==> s in second.value.clean && second.value.clean[s] == first.clean[s])
            && (forall s :: s in first.pruned ==> s in second.value.pruned && second.value.pruned[s] == first.pruned[s])
            && (forall s :: s in second.value.raw && s !in first.raw ==> s in scheduled)
            && (forall s :: s in second.value.clean && s !in first.clean ==> s in scheduled)
            && (forall s :: s in second.value.pruned && s !in first.pruned ==> s in scheduled)
            && (kernels2 == kernels ==> second.value.raw == first.raw && second.value.clean == first.clean
                                        && second.value.pruned == first.pruned)
  {
    var first := DenseRun(before, graph, rec, config, kernels, percentile).value;
    DenseRunGrows(first, graph, rec, config, kernels2, percentile);
    if kernels2 == kernels {
      DenseRunRepeats(before, graph, rec, config, kernels, percentile);
    }
  }

  /** With the same kernels, a second run changes no artifact. */
  lemma DenseRunRepeats(before: Store, graph: TrackGraph, rec: Reconstruction, config: Config,
                        kernels: Kernels, percentile: (seq<real>, real) -> real)
    requires PairsWithin(graph.shotIds, graph.commonPairs)
    requires DenseRun(before, graph, rec, config, kernels, percentile).Success?
    ensures var first := DenseRun(before, graph, rec, config, kernels, percentile).value;
            var second := DenseRun(first, graph, rec, config, kernels, percentile);
            && second.Success?
            && second.value.raw == first.raw && second.value.clean == first.clean && second.value.pruned == first.pruned
  {
    var neighbors := NeighborsOf(graph, rec, config);
    var jobs := EstimateJobs(graph, rec, neighbors, config, percentile, rec.shots).value;
    var refine := RefineJobs(rec.shots, neighbors);
    var e := EstimatePass(before.raw, jobs, rec, config, kernels).artifacts;
    var c := CleanPass(before.clean, refine, e, kernels).artifacts;
    var p := PrunePass(before.pruned, refine, c, kernels).artifacts;
    PassSettles(before.raw, jobs, EstimateShot, EstimateStep(rec, config, kernels), EstimateLog(rec, config));
    PassFixpoint(e, jobs, EstimateShot, EstimateStep(rec, config, kernels), EstimateLog(rec, config));
    PassSettles(before.clean, refine, RefineShot, CleanStep(e, kernels), CleanLog(e));
    PassFixpoint(c, refine, RefineShot, CleanStep(e, kernels), CleanLog(e));
    PassSettles(before.pruned, refine, RefineShot, PruneStep(c, kernels), PruneLog(c));
    PassFixpoint(p, refine, RefineShot, PruneStep(c, kernels), PruneLog(c));
  }

  /** A pass whose jobs are for scheduled shots that all have an artifact
      changes nothing. */
  lemma PassScheduledGuarded<J, V>(before: map<ShotId, V>, jobs: seq<J>, shotOf: J -> ShotId,
                                   attempt: J -> Result<V, JobError>, log: J -> seq<Invocation>, scheduled: seq<ShotId>)
    requires |jobs| == |scheduled| && forall k :: 0 <= k < |jobs| ==> shotOf(jobs[k]) == scheduled[k]
    requires forall s :: s in scheduled ==> s in before
    ensures Pass(before, jobs, shotOf, attempt, log) == PassResult(before, [])
  {
    forall i | 0 <= i < |jobs| ensures shotOf(jobs[i]) in before {
      assert scheduled[i] in scheduled;
    }
    PassAllGuarded(before, jobs, shotOf, attempt, log);
  }

  /** When every scheduled shot already has all three artifacts, a run
      calls no kernel and leaves the store as it was. */
  lemma DenseRunAllDone(before: Store, graph: TrackGraph, rec: Reconstruction, config: Config,
                        kernels: Kernels, percentile: (seq<real>, real) -> real)
    requires PairsWithin(graph.shotIds, graph.commonPairs)
    requires forall s :: s in Scheduled(rec.shots, NeighborsOf(graph, rec, config)) ==>
               s in before.raw && s in before.clean && s in before.pruned
    ensures var run := DenseRun(before, graph, rec, config, kernels, percentile);
            run.Success? ==> run.value == before
  {
    var neighbors := NeighborsOf(graph, rec, config);
    var scheduled := Scheduled(rec.shots, neighbors);
    var estimate := EstimateJobs(graph, rec, neighbors, config, percentile, rec.shots);
    if estimate.Success? {
      var jobs := estimate.value;
      var refine := RefineJobs(rec.shots, neighbors);
      EstimateShotsScheduled(graph, rec, neighbors, config, percentile);
      PassScheduledGuarded(before.raw, jobs, EstimateShot, EstimateStep(rec, config, kernels), EstimateLog(rec, config), scheduled);
      PassScheduledGuarded(before.clean, refine, RefineShot, CleanStep(before.raw, kernels), CleanLog(before.raw), scheduled);
      PassScheduledGuarded(before.pruned, refine, RefineShot, PruneStep(before.clean, kernels), PruneLog(before.clean), scheduled);
      assert before.calls + [] + [] + [] == before.calls;
    }
  }
}
