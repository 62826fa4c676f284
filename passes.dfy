/**
 * One pass of `compute_depthmaps`: the jobs of a stage run one after the
 * other against the same data set. Each job first checks for its own
 * artifact (the guard) and, when it is missing, attempts the stage; a
 * failed attempt leaves nothing and the pass goes on with the next job.
 */
module Passes {
  import opened Wrappers
  import opened Scene
  import opened Stages

  /** The artifacts a stage has after a pass, and the kernel calls it made. */
  datatype PassResult<V> = PassResult(artifacts: map<ShotId, V>, calls: seq<Invocation>)

  /** Running `jobs` in order from the artifacts `before`: a job whose shot
      already has an artifact is skipped; otherwise its attempt is logged
      and, when it succeeds, stored under its shot. */
  function Pass<J, V>(before: map<ShotId, V>, jobs: seq<J>, shotOf: J -> ShotId,
                      attempt: J -> Result<V, JobError>, log: J -> seq<Invocation>): PassResult<V>
  {
    if jobs == [] then PassResult(before, [])
    else
      var prev := Pass(before, jobs[..|jobs| - 1], shotOf, attempt, log);
      var job := jobs[|jobs| - 1];
      if shotOf(job) in prev.artifacts then prev
      else
        var a := attempt(job);
        PassResult(if a.Success? then prev.artifacts[shotOf(job) := a.value] else prev.artifacts,
                   prev.calls + log(job))
  }

  /** A pass never removes or replaces an artifact, and it only adds
      artifacts for the shots of its jobs. */
  lemma {:induction false} PassGrows<J, V>(before: map<ShotId, V>, jobs: seq<J>, shotOf: J -> ShotId,
                                           attempt: J -> Result<V, JobError>, log: J -> seq<Invocation>)
    ensures var after := Pass(before, jobs, shotOf, attempt, log).artifacts;
            && (forall s :: s in before ==> s in after && after[s] == before[s])
            && (forall s :: s in after ==> s in before || exists i :: 0 <= i < |jobs| && shotOf(jobs[i]) == s)
  {
    if jobs != [] {
      var pre := jobs[..|jobs| - 1];
      PassGrows(before, pre, shotOf, attempt, log);
      var after := Pass(before, jobs, shotOf, attempt, log).artifacts;
      forall s | s in after
        ensures s in before || exists i :: 0 <= i < |jobs| && shotOf(jobs[i]) == s
      {
        if s !in before && s != shotOf(jobs[|jobs| - 1]) {
          var i :| 0 <= i < |pre| && shotOf(pre[i]) == s;
          assert shotOf(jobs[i]) == s;
        }
      }
    }
  }

  /** When no two jobs share a shot, a job whose shot had no artifact leaves
      one exactly when its own attempt succeeds, and that artifact is the
      attempt's result: the other jobs of the pass do not matter. */
  lemma {:induction false} PassPerJob<J, V>(before: map<ShotId, V>, jobs: seq<J>, shotOf: J -> ShotId,
                                            attempt: J -> Result<V, JobError>, log: J -> seq<Invocation>, i: nat)
    requires forall j, k :: 0 <= j < k < |jobs| ==> shotOf(jobs[j]) != shotOf(jobs[k])
    requires i < |jobs| && shotOf(jobs[i]) !in before
    ensures var after := Pass(before, jobs, shotOf, attempt, log).artifacts;
            && (shotOf(jobs[i]) in after <==> attempt(jobs[i]).Success?)
            && (attempt(jobs[i]).Success? ==> after[shotOf(jobs[i])] == attempt(jobs[i]).value)
  {
    var last := |jobs| - 1;
    var pre := jobs[..last];
    if i == last {
      PassGrows(before, pre, shotOf, attempt, log);
    } else {
      PassPerJob(before, pre, shotOf, attempt, log, i);
      assert pre[i] == jobs[i];
      assert shotOf(jobs[i]) != shotOf(jobs[last]);
    }
  }

  /** After a pass, every job's shot has an artifact or its attempt fails. */
  lemma {:induction false} PassSettles<J, V>(before: map<ShotId, V>, jobs: seq<J>, shotOf: J -> ShotId,
                                             attempt: J -> Result<V, JobError>, log: J -> seq<Invocation>)
    ensures var after := Pass(before, jobs, shotOf, attempt, log).artifacts;
            forall i :: 0 <= i < |jobs| ==> shotOf(jobs[i]) in after || attempt(jobs[i]).Failure?
  {
    if jobs != [] {
      var pre := jobs[..|jobs| - 1];
      PassSettles(before, pre, shotOf, attempt, log);
      PassGrows(before, pre, shotOf, attempt, log);
      var prev := Pass(before, pre, shotOf, attempt, log).artifacts;
      var after := Pass(before, jobs, shotOf, attempt, log).artifacts;
      assert forall s :: s in prev ==> s in after;
      forall i | 0 <= i < |jobs|
        ensures shotOf(jobs[i]) in after || attempt(jobs[i]).Failure?
      {
        if i < |pre| {
          assert jobs[i] == pre[i];
        }
      }
    }
  }

  /** A pass over artifacts in which every job's shot has an artifact or
      fails its attempt changes no artifact: each job either is skipped by
      its guard or fails again. */
  lemma {:induction false} PassFixpoint<J, V>(before: map<ShotId, V>, jobs: seq<J>, shotOf: J -> ShotId,
                                              attempt: J -> Result<V, JobError>, log: J -> seq<Invocation>)
    requires forall i :: 0 <= i < |jobs| ==> shotOf(jobs[i]) in before || attempt(jobs[i]).Failure?
    ensures Pass(before, jobs, shotOf, attempt, log).artifacts == before
  {
    if jobs != [] {
      var pre := jobs[..|jobs| - 1];
      assert forall i :: 0 <= i < |pre| ==> pre[i] == jobs[i];
      PassFixpoint(before, pre, shotOf, attempt, log);
    }
  }

  /** When every job's shot already has an artifact, the pass changes
      nothing and calls no kernel. */
  lemma {:induction false} PassAllGuarded<J, V>(before: map<ShotId, V>, jobs: seq<J>, shotOf: J -> ShotId,
                                                attempt: J -> Result<V, JobError>, log: J -> seq<Invocation>)
    requires forall i :: 0 <= i < |jobs| ==> shotOf(jobs[i]) in before
    ensures Pass(before, jobs, shotOf, attempt, log) == PassResult(before, [])
  {
    if jobs != [] {
      var pre := jobs[..|jobs| - 1];
      assert forall i :: 0 <= i < |pre| ==> pre[i] == jobs[i];
      PassAllGuarded(before, pre, shotOf, attempt, log);
    }
  }

  const EstimateShot: EstimateJob -> ShotId := (job: EstimateJob) => job.shot
  const RefineShot: RefineJob -> ShotId := (job: RefineJob) => job.shot

  function EstimateStep(rec: Reconstruction, config: Config, kernels: Kernels): EstimateJob -> Result<RawArtifact, JobError>
  {
    job => EstimateAttempt(job, rec, config, kernels)
  }

  function EstimateLog(rec: Reconstruction, config: Config): EstimateJob -> seq<Invocation>
  {
    job => if EstimatorInvoked(job, rec, config)
           then [Estimated(job.shot, EstimateViews(job.neighbors, config.numMatchingViews))] else []
  }

  function CleanStep(raw: map<ShotId, RawArtifact>, kernels: Kernels): RefineJob -> Result<CleanArtifact, JobError>
  {
    job => CleanAttempt(job, raw, kernels)
  }

  function CleanLog(raw: map<ShotId, RawArtifact>): RefineJob -> seq<Invocation>
  {
    (job: RefineJob) => [Cleaned(job.shot, ViewIds(Present(job.neighbors, raw)))]
  }

  function PruneStep(clean: map<ShotId, CleanArtifact>, kernels: Kernels): RefineJob -> Result<PointCloud, JobError>
  {
    job => PruneAttemptAsWritten(job, clean, kernels)
  }

  function PruneLog(clean: map<ShotId, CleanArtifact>): RefineJob -> seq<Invocation>
  {
    (job: RefineJob) => [Pruned(job.shot, ViewIds(Present(job.neighbors, clean)))]
  }

  function EstimatePass(raw: map<ShotId, RawArtifact>, jobs: seq<EstimateJob>, rec: Reconstruction,
                        config: Config, kernels: Kernels): PassResult<RawArtifact>
  {
    Pass(raw, jobs, EstimateShot, EstimateStep(rec, config, kernels), EstimateLog(rec, config))
  }

  /** The clean pass reads the raw depthmaps, which it does not change. */
  function CleanPass(clean: map<ShotId, CleanArtifact>, jobs: seq<RefineJob>, raw: map<ShotId, RawArtifact>,
                     kernels: Kernels): PassResult<CleanArtifact>
  {
    Pass(clean, jobs, RefineShot, CleanStep(raw, kernels), CleanLog(raw))
  }

  /** The prune pass reads the clean depthmaps, which it does not change. */
  function PrunePass(pruned: map<ShotId, PointCloud>, jobs: seq<RefineJob>, clean: map<ShotId, CleanArtifact>,
                     kernels: Kernels): PassResult<PointCloud>
  {
    Pass(pruned, jobs, RefineShot, PruneStep(clean, kernels), PruneLog(clean))
  }

  /** `parallel_map(compute_depthmap_catched, ...)`, the jobs run in order. */
  method RunEstimatePass(data: DenseDataSet, jobs: seq<EstimateJob>, rec: Reconstruction, config: Config, kernels: Kernels)
    modifies data
    ensures data.raw == EstimatePass(old(data.raw), jobs, rec, config, kernels).artifacts
    ensures data.calls == old(data.calls) + EstimatePass(old(data.raw), jobs, rec, config, kernels).calls
    ensures data.clean == old(data.clean) && data.pruned == old(data.pruned)
  {
    for k := 0 to |jobs|
      invariant data.raw == EstimatePass(old(data.raw), jobs[..k], rec, config, kernels).artifacts
      invariant data.calls == old(data.calls) + EstimatePass(old(data.raw), jobs[..k], rec, config, kernels).calls
      invariant data.clean == old(data.clean) && data.pruned == old(data.pruned)
    {
      assert jobs[..k + 1][..k] == jobs[..k];
      var _ := ComputeDepthmap(data, jobs[k], rec, config, kernels);
    }
    assert jobs[..|jobs|] == jobs;
  }

  /** `parallel_map(clean_depthmap_catched, ...)`, the jobs run in order. */
  method RunCleanPass(data: DenseDataSet, jobs: seq<RefineJob>, kernels: Kernels)
    modifies data
    ensures data.clean == CleanPass(old(data.clean), jobs, old(data.raw), kernels).artifacts
    ensures data.calls == old(data.calls) + CleanPass(old(data.clean), jobs, old(data.raw), kernels).calls
    ensures data.raw == old(data.raw) && data.pruned == old(data.pruned)
  {
    for k := 0 to |jobs|
      invariant data.clean == CleanPass(old(data.clean), jobs[..k], old(data.raw), kernels).artifacts
      invariant data.calls == old(data.calls) + CleanPass(old(data.clean), jobs[..k], old(data.raw), kernels).calls
      invariant data.raw == old(data.raw) && data.pruned == old(data.pruned)
    {
      assert jobs[..k + 1][..k] == jobs[..k];
      var _ := CleanDepthmap(data, jobs[k], kernels);
    }
    assert jobs[..|jobs|] == jobs;
  }

  /** `parallel_map(prune_depthmap_catched, ...)`, the jobs run in order. */
  method RunPrunePass(data: DenseDataSet, jobs: seq<RefineJob>, kernels: Kernels)
    modifies data
    ensures data.pruned == PrunePass(old(data.pruned), jobs, old(data.clean), kernels).artifacts
    ensures data.calls == old(data.calls) + PrunePass(old(data.pruned), jobs, old(data.clean), kernels).calls
    ensures data.raw == old(data.raw) && data.clean == old(data.clean)
  {
    for k := 0 to |jobs|
      invariant data.pruned == PrunePass(old(data.pruned), jobs[..k], old(data.clean), kernels).artifacts
      invariant data.calls == old(data.calls) + PrunePass(old(data.pruned), jobs[..k], old(data.clean), kernels).calls
      invariant data.raw == old(data.raw) && data.clean == old(data.clean)
    {
      assert jobs[..k + 1][..k] == jobs[..k];
      var _ := PruneDepthmap(data, jobs[k], kernels);
    }
    assert jobs[..|jobs|] == jobs;
  }
}
