/**
 * The per-shot stage runners (`compute_depthmap`, `clean_depthmap`,
 * `prune_depthmap`), the view assembly that feeds the native capabilities,
 * and the artifact store they read and write.
 */
module Stages {
  import opened Wrappers
  import opened Slices
  import opened Scene

  /** Why a job produced no artifact; the scheduler logs it and goes on. */
  datatype JobError =
    | NotPerspective(view: ShotId)
    | UnknownMethod(name: string)
    | KernelFault
    | ShapeMismatch
    | MissingRawDepthmap(shot: ShotId)
    | MissingCleanDepthmap(shot: ShotId)

  datatype JobOutcome = Skipped | Saved | Failed(error: JobError)

  /** One call of a native capability, with the ids of the views it was given. */
  datatype Invocation =
    | Estimated(shot: ShotId, views: seq<ShotId>)
    | Cleaned(shot: ShotId, views: seq<ShotId>)
    | Pruned(shot: ShotId, views: seq<ShotId>)

  datatype EstimateJob = EstimateJob(neighbors: seq<ShotId>, minDepth: real, maxDepth: real, shot: ShotId)
  datatype RefineJob = RefineJob(neighbors: seq<ShotId>, shot: ShotId)

  /**
   * The artifact side of the dataset: which shots have a raw, clean or
   * pruned depthmap, and what it holds. The presence of an entry is the
   * stage's completion marker. `calls` records every capability call.
   */
  class DenseDataSet {
    var raw: map<ShotId, RawArtifact>
    var clean: map<ShotId, CleanArtifact>
    var pruned: map<ShotId, PointCloud>
    var calls: seq<Invocation>

    constructor (raw: map<ShotId, RawArtifact>, clean: map<ShotId, CleanArtifact>, pruned: map<ShotId, PointCloud>)
      ensures this.raw == raw && this.clean == clean && this.pruned == pruned && calls == []
    {
      this.raw := raw;
      this.clean := clean;
      this.pruned := pruned;
      calls := [];
    }
  }

  /** The configured search strategy; any other name is an error. */
  function ParseMethod(name: string): (m: Option<SearchMethod>)
    ensures m == Some(BruteForce) <==> name == "BRUTE_FORCE"
    ensures m == Some(PatchMatch) <==> name == "PATCH_MATCH"
    ensures m == Some(PatchMatchSample) <==> name == "PATCH_MATCH_SAMPLE"
  {
    if name == "BRUTE_FORCE" then Some(BruteForce)
    else if name == "PATCH_MATCH" then Some(PatchMatch)
    else if name == "PATCH_MATCH_SAMPLE" then Some(PatchMatchSample)
    else None
  }

  /** A boolean array used as a factor: 1 where true, 0 where false. */
  function Indicator(b: bool): real
  {
    if b then 1.0 else 0.0
  }

  /** The estimate post-mask: `depth * (depth < max_depth) * (score > min_score)`. */
  function MaskDepthmap(depth: seq<real>, score: seq<real>, maxDepth: real, minScore: real): (r: seq<real>)
    requires |depth| == |score|
    ensures |r| == |depth|
    ensures forall i :: 0 <= i < |r| && (depth[i] >= maxDepth || score[i] <= minScore) ==> r[i] == 0.0
    ensures forall i :: 0 <= i < |r| && depth[i] < maxDepth && score[i] > minScore ==> r[i] == depth[i]
  {
    seq(|depth|, i requires 0 <= i < |depth| =>
      depth[i] * Indicator(depth[i] < maxDepth) * Indicator(score[i] > minScore))
  }

  /** Masking a masked depthmap again with the same scores changes nothing. */
  lemma MaskIdempotent(depth: seq<real>, score: seq<real>, maxDepth: real, minScore: real)
    requires |depth| == |score|
    ensures MaskDepthmap(MaskDepthmap(depth, score, maxDepth, minScore), score, maxDepth, minScore)
            == MaskDepthmap(depth, score, maxDepth, minScore)
  {
    var once := MaskDepthmap(depth, score, maxDepth, minScore);
    var twice := MaskDepthmap(once, score, maxDepth, minScore);
    forall i | 0 <= i < |depth| ensures twice[i] == once[i] {
      if depth[i] >= maxDepth || score[i] <= minScore {
        assert once[i] == 0.0;
      }
    }
  }

  /** The first view whose camera is not perspective, if any. */
  function FirstNotPerspective(views: seq<ShotId>, perspective: set<ShotId>): Option<ShotId>
  {
    if views == [] then None
    else if views[0] !in perspective then Some(views[0])
    else FirstNotPerspective(views[1..], perspective)
  }

  lemma {:induction false} FirstNotPerspectiveMeaning(views: seq<ShotId>, perspective: set<ShotId>)
    ensures FirstNotPerspective(views, perspective).None? <==> forall v :: v in views ==> v in perspective
    ensures FirstNotPerspective(views, perspective).Some? ==>
              exists i :: 0 <= i < |views| && views[i] == FirstNotPerspective(views, perspective).value
                          && views[i] !in perspective
                          && forall j :: 0 <= j < i ==> views[j] in perspective
  {
    if views != [] && views[0] in perspective {
      FirstNotPerspectiveMeaning(views[1..], perspective);
      assert views == [views[0]] + views[1..];
      if FirstNotPerspective(views[1..], perspective).Some? {
        var i :| 0 <= i < |views[1..]| && views[1..][i] == FirstNotPerspective(views[1..], perspective).value
                 && views[1..][i] !in perspective && forall j :: 0 <= j < i ==> views[1..][j] in perspective;
        assert views[i + 1] == views[1..][i];
        assert forall j :: 0 < j < i + 1 ==> views[j] == views[1..][j - 1];
      }
    }
  }

  lemma {:induction false} FirstNotPerspectiveAt(views: seq<ShotId>, perspective: set<ShotId>, i: nat)
    requires i < |views| && views[i] !in perspective
    requires forall j :: 0 <= j < i ==> views[j] in perspective
    ensures FirstNotPerspective(views, perspective) == Some(views[i])
  {
    if i > 0 {
      FirstNotPerspectiveAt(views[1..], perspective, i - 1);
    }
  }

  /** The views the estimator ingests: `neighbors[:K + 1]`. */
  function EstimateViews(neighbors: seq<ShotId>, numMatchingViews: int): seq<ShotId>
  {
    Take(neighbors, numMatchingViews + 1)
  }

  /** The ingested views, or the error raised by the perspective assertion. */
  function CheckedViews(views: seq<ShotId>, perspective: set<ShotId>): Result<seq<ShotId>, JobError>
  {
    match FirstNotPerspective(views, perspective)
    case None => Success(views)
    case Some(v) => Failure(NotPerspective(v))
  }

  /** `add_views_to_depth_estimator`: add the first `K + 1` neighbours as
      views, asserting on the way that each camera is perspective. */
  method AddViewsToDepthEstimator(neighbors: seq<ShotId>, numMatchingViews: int, rec: Reconstruction)
    returns (r: Result<seq<ShotId>, JobError>)
    ensures r == CheckedViews(EstimateViews(neighbors, numMatchingViews), rec.perspective)
    ensures r.Success? ==> r.value == Take(neighbors, numMatchingViews + 1)
                           && forall v :: v in r.value ==> v in rec.perspective
  {
    var ingested := Take(neighbors, numMatchingViews + 1);
    var views: seq<ShotId> := [];
    for i := 0 to |ingested|
      invariant views == ingested[..i]
      invariant forall j :: 0 <= j < i ==> ingested[j] in rec.perspective
    {
      if ingested[i] !in rec.perspective {
        FirstNotPerspectiveAt(ingested, rec.perspective, i);
        return Failure(NotPerspective(ingested[i]));
      }
      views := views + [ingested[i]];
    }
    FirstNotPerspectiveMeaning(ingested, rec.perspective);
    assert views == ingested;
    r := Success(views);
  }

  /** Whether the estimator's compute entry point is reached. */
  predicate EstimatorInvoked(job: EstimateJob, rec: Reconstruction, config: Config)
  {
    CheckedViews(EstimateViews(job.neighbors, config.numMatchingViews), rec.perspective).Success?
    && ParseMethod(config.depthmapMethod).Some?
  }

  /** What an estimate job that passed the guard produces. */
  function EstimateAttempt(job: EstimateJob, rec: Reconstruction, config: Config, kernels: Kernels): (r: Result<RawArtifact, JobError>)
    ensures r.Success? ==> EstimatorInvoked(job, rec, config)
    ensures r.Success? ==> r.value.neighborIds == Drop(job.neighbors, 1)
    ensures r.Success? ==> |r.value.depth| == |r.value.score|
    ensures r.Success? ==> forall i :: 0 <= i < |r.value.depth| && r.value.depth[i] != 0.0 ==>
              r.value.depth[i] < job.maxDepth && r.value.score[i] > config.minCorrelationScore
  {
    match CheckedViews(EstimateViews(job.neighbors, config.numMatchingViews), rec.perspective)
    case Failure(e) => Failure(e)
    case Success(views) =>
      match ParseMethod(config.depthmapMethod)
      case None => Failure(UnknownMethod(config.depthmapMethod))
      case Some(m) =>
        match kernels.estimate(views, job.minDepth, job.maxDepth, DepthSamples, m)
        case None => Failure(KernelFault)
        case Some(out) =>
          if |out.depth| != |out.score| then Failure(ShapeMismatch)
          else Success(RawArtifact(
            MaskDepthmap(out.depth, out.score, job.maxDepth, config.minCorrelationScore),
            out.plane, out.score, out.nghbr, Drop(job.neighbors, 1)))
  }

  /** `compute_depthmap`: skip when the raw depthmap exists; otherwise add the
      views, run the configured search, mask the depths and save the raw
      depthmap with the ids of the other views. */
  method ComputeDepthmap(data: DenseDataSet, job: EstimateJob, rec: Reconstruction, config: Config, kernels: Kernels)
    returns (outcome: JobOutcome)
    modifies data
    ensures job.shot in old(data.raw) ==> outcome == Skipped && unchanged(data)
    ensures data.clean == old(data.clean) && data.pruned == old(data.pruned)
    ensures job.shot !in old(data.raw) ==>
              var a := EstimateAttempt(job, rec, config, kernels);
              && data.raw == (if a.Success? then old(data.raw)[job.shot := a.value] else old(data.raw))
              && outcome == (if a.Success? then Saved else Failed(a.error))
              && data.calls == old(data.calls)
                 + (if EstimatorInvoked(job, rec, config)
                    then [Estimated(job.shot, EstimateViews(job.neighbors, config.numMatchingViews))] else [])
  {
    if job.shot in data.raw {
      return Skipped;
    }
    var views := AddViewsToDepthEstimator(job.neighbors, config.numMatchingViews, rec);
    if views.Failure? {
      return Failed(views.error);
    }
    var search := ParseMethod(config.depthmapMethod);
    if search.None? {
      return Failed(UnknownMethod(config.depthmapMethod));
    }
    data.calls := data.calls + [Estimated(job.shot, views.value)];
    var out := kernels.estimate(views.value, job.minDepth, job.maxDepth, DepthSamples, search.value);
    if out.None? {
      return Failed(KernelFault);
    }
    var est := out.value;
    if |est.depth| != |est.score| {
      return Failed(ShapeMismatch);
    }
    var depth := MaskDepthmap(est.depth, est.score, job.maxDepth, config.minCorrelationScore);
    var neighborIds := Drop(job.neighbors, 1);
    data.raw := data.raw[job.shot := RawArtifact(depth, est.plane, est.score, est.nghbr, neighborIds)];
    outcome := Saved;
  }

  /** The neighbours that have an artifact in `m`, in neighbour order, each
      with that artifact. */
  function Present<V>(ids: seq<ShotId>, m: map<ShotId, V>): seq<(ShotId, V)>
  {
    if ids == [] then []
    else
      var id := ids[|ids| - 1];
      Present(ids[..|ids| - 1], m) + (if id in m then [(id, m[id])] else [])
  }

  function ViewIds<V>(views: seq<(ShotId, V)>): (ids: seq<ShotId>)
    ensures |ids| == |views| && forall i :: 0 <= i < |views| ==> ids[i] == views[i].0
  {
    if views == [] then [] else ViewIds(views[..|views| - 1]) + [views[|views| - 1].0]
  }

  /** A view is passed on exactly when it is a neighbour with an artifact,
      and it carries that artifact. */
  lemma {:induction false} PresentMembers<V>(ids: seq<ShotId>, m: map<ShotId, V>, v: (ShotId, V))
    ensures v in Present(ids, m) <==> v.0 in ids && v.0 in m && v.1 == m[v.0]
  {
    if ids != [] {
      PresentMembers(ids[..|ids| - 1], m, v);
      assert ids == ids[..|ids| - 1] + [ids[|ids| - 1]];
    }
  }

  /** When the first neighbour has an artifact it is the first view. */
  lemma {:induction false} PresentHead<V>(ids: seq<ShotId>, m: map<ShotId, V>)
    requires ids != [] && ids[0] in m
    ensures Present(ids, m) != [] && Present(ids, m)[0] == (ids[0], m[ids[0]])
  {
    if |ids| > 1 {
      PresentHead(ids[..|ids| - 1], m);
    } else {
      assert ids[..0] == [];
    }
  }

  /** `add_views_to_depth_cleaner` and `add_views_to_depth_pruner`: add every
      neighbour whose upstream artifact exists, silently skipping the others. */
  method AddViewsWithArtifact<V>(neighbors: seq<ShotId>, m: map<ShotId, V>) returns (views: seq<(ShotId, V)>)
    ensures views == Present(neighbors, m)
    ensures forall v :: v in views <==> v.0 in neighbors && v.0 in m && v.1 == m[v.0]
  {
    views := [];
    for i := 0 to |neighbors|
      invariant views == Present(neighbors[..i], m)
    {
      assert neighbors[..i + 1][..i] == neighbors[..i];
      var shot := neighbors[i];
      if shot !in m {
        continue;
      }
      views := views + [(shot, m[shot])];
    }
    assert neighbors[..|neighbors|] == neighbors;
    forall v ensures v in views <==> v.0 in neighbors && v.0 in m && v.1 == m[v.0] {
      PresentMembers(neighbors, m, v);
    }
  }

  /** What a clean job that passed the guard produces: the cleaned depth,
      with the plane and score maps of the shot's own raw depthmap. */
  function CleanAttempt(job: RefineJob, raw: map<ShotId, RawArtifact>, kernels: Kernels): (r: Result<CleanArtifact, JobError>)
    ensures r.Success? ==> job.shot in raw && r.value.plane == raw[job.shot].plane && r.value.score == raw[job.shot].score
    ensures job.shot !in raw ==> r.Failure?
  {
    match kernels.clean(Present(job.neighbors, raw))
    case None => Failure(KernelFault)
    case Some(depth) =>
      if job.shot !in raw then Failure(MissingRawDepthmap(job.shot))
      else Success(CleanArtifact(depth, raw[job.shot].plane, raw[job.shot].score))
  }

  /** `clean_depthmap`: skip when the clean depthmap exists; otherwise clean
      against the neighbours that have a raw depthmap and save the result. */
  method CleanDepthmap(data: DenseDataSet, job: RefineJob, kernels: Kernels) returns (outcome: JobOutcome)
    modifies data
    ensures job.shot in old(data.clean) ==> outcome == Skipped && unchanged(data)
    ensures data.raw == old(data.raw) && data.pruned == old(data.pruned)
    ensures job.shot !in old(data.clean) ==>
              var a := CleanAttempt(job, old(data.raw), kernels);
              && data.clean == (if a.Success? then old(data.clean)[job.shot := a.value] else old(data.clean))
              && outcome == (if a.Success? then Saved else Failed(a.error))
              && data.calls == old(data.calls) + [Cleaned(job.shot, ViewIds(Present(job.neighbors, old(data.raw))))]
  {
    if job.shot in data.clean {
      return Skipped;
    }
    var views := AddViewsWithArtifact(job.neighbors, data.raw);
    data.calls := data.calls + [Cleaned(job.shot, ViewIds(views))];
    var depth := kernels.clean(views);
    if depth.None? {
      return Failed(KernelFault);
    }
    if job.shot !in data.raw {
      return Failed(MissingRawDepthmap(job.shot));
    }
    var own := data.raw[job.shot];
    data.clean := data.clean[job.shot := CleanArtifact(depth.value, own.plane, own.score)];
    outcome := Saved;
  }

  /** What `prune_depthmap` as written produces once past the guard: the
      pruner runs on whichever neighbours have a clean depthmap, whether or
      not the shot itself has one. */
  function PruneAttemptAsWritten(job: RefineJob, clean: map<ShotId, CleanArtifact>, kernels: Kernels): (r: Result<PointCloud, JobError>)
    ensures r.Success? <==> kernels.prune(Present(job.neighbors, clean)).Some?
  {
    match kernels.prune(Present(job.neighbors, clean))
    case None => Failure(KernelFault)
    case Some(cloud) => Success(cloud)
  }

  /** As written, a shot without a clean depthmap still gets a pruned one,
      computed with a neighbour as the reference (first) view. */
  lemma PruneAsWrittenUsesForeignReference()
    ensures var clean := map["b" := CleanArtifact([1.0], [Vec3(0.0, 0.0, 1.0)], [1.0])];
            var job := RefineJob(["a", "b"], "a");
            var kernels := Kernels((v, lo, hi, n, m) => None, v => None,
                                   v => Some(PointCloud([Vec3(0.0, 0.0, 1.0)], [Vec3(0.0, 0.0, 1.0)], [Color(0, 0, 0)], [0])));
            && job.shot !in clean
            && PruneAttemptAsWritten(job, clean, kernels).Success?
            && Present(job.neighbors, clean)[0].0 == "b"
  {
    var clean := map["b" := CleanArtifact([1.0], [Vec3(0.0, 0.0, 1.0)], [1.0])];
    assert ["a", "b"][..1] == ["a"];
    assert ["a", "b"][..1][..0] == [];
    assert Present(["a", "b"], clean) == [("b", clean["b"])];
  }

  /** Pruning as intended: the shot's own clean depthmap is required, like
      the clean stage requires the raw one, so the pruner's reference view is
      the shot itself. */
  function PruneAttempt(job: RefineJob, clean: map<ShotId, CleanArtifact>, kernels: Kernels): (r: Result<PointCloud, JobError>)
    ensures r.Success? ==> job.shot in clean
    ensures job.shot in clean ==> r == PruneAttemptAsWritten(job, clean, kernels)
  {
    if job.shot !in clean then Failure(MissingCleanDepthmap(job.shot))
    else PruneAttemptAsWritten(job, clean, kernels)
  }

  /** With the correction, a saved pruned depthmap of a shot whose neighbour
      list starts with the shot was computed with the shot as reference view. */
  lemma PruneReferenceIsShot(job: RefineJob, clean: map<ShotId, CleanArtifact>, kernels: Kernels)
    requires job.neighbors != [] && job.neighbors[0] == job.shot
    requires PruneAttempt(job, clean, kernels).Success?
    ensures Present(job.neighbors, clean) != []
    ensures Present(job.neighbors, clean)[0] == (job.shot, clean[job.shot])
  {
    PresentHead(job.neighbors, clean);
  }

  /** `prune_depthmap` as written: skip when the pruned depthmap exists;
      otherwise prune against the neighbours that have a clean depthmap,
      whether or not the shot has one itself, and save the points under the
      shot's id. */
  method PruneDepthmap(data: DenseDataSet, job: RefineJob, kernels: Kernels) returns (outcome: JobOutcome)
    modifies data
    ensures job.shot in old(data.pruned) ==> outcome == Skipped && unchanged(data)
    ensures data.raw == old(data.raw) && data.clean == old(data.clean)
    ensures job.shot !in old(data.pruned) ==>
              var a := PruneAttemptAsWritten(job, old(data.clean), kernels);
              && data.pruned == (if a.Success? then old(data.pruned)[job.shot := a.value] else old(data.pruned))
              && outcome == (if a.Success? then Saved else Failed(a.error))
              && data.calls == old(data.calls) + [Pruned(job.shot, ViewIds(Present(job.neighbors, old(data.clean))))]
  {
    if job.shot in data.pruned {
      return Skipped;
    }
    var views := AddViewsWithArtifact(job.neighbors, data.clean);
    data.calls := data.calls + [Pruned(job.shot, ViewIds(views))];
    var cloud := kernels.prune(views);
    if cloud.None? {
      return Failed(KernelFault);
    }
    data.pruned := data.pruned[job.shot := cloud.value];
    outcome := Saved;
  }
}
