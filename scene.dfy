/**
 * The data the dense pipeline works on: shots and tracks by id, the
 * reconstruction with its geometry queries, the configuration keys the core
 * reads, the three per-shot artifacts and the numerical capabilities.
 */
module Scene {
  import opened Wrappers

  type ShotId = string
  type TrackId = string

  datatype Vec3 = Vec3(x: real, y: real, z: real)
  datatype Color = Color(r: int, g: int, b: int)

  /**
   * The reconstruction, read-only for the whole pipeline.
   * `shots` lists the shot ids in the reconstruction's iteration order;
   * `points` holds the ids of the tracks that have a 3D point.
   * `angleOverPi(t, s, o)` is the angle, at the 3D point of track `t`,
   * between the rays to the centres of shots `s` and `o`, divided by pi;
   * `depthIn(t, s)` is the third coordinate of that point in the camera
   * frame of shot `s`. Both are floating-point geometry and are given.
   */
  datatype Reconstruction = Reconstruction(
    shots: seq<ShotId>,
    points: set<TrackId>,
    perspective: set<ShotId>,
    angleOverPi: (TrackId, ShotId, ShotId) -> real,
    depthIn: (TrackId, ShotId) -> real)

  /** Pairwise shared tracks as produced by the track-graph routine. */
  datatype CommonPair = CommonPair(a: ShotId, b: ShotId, tracks: seq<TrackId>)

  /**
   * The track graph: its shot ids, the tracks each shot observes (in the
   * graph's order) and the pairwise shared-track lists.
   */
  datatype TrackGraph = TrackGraph(
    shotIds: seq<ShotId>,
    observations: ShotId -> seq<TrackId>,
    commonPairs: seq<CommonPair>)

  /**
   * The configuration keys the core reads. A depth override is `None` when
   * the key holds None; Python treats None and 0 as "not set".
   */
  datatype Config = Config(
    numNeighbors: int,
    numMatchingViews: int,
    depthmapMethod: string,
    minCorrelationScore: real,
    minDepth: Option<real>,
    maxDepth: Option<real>)

  /** The three depth-search strategies of the estimator. */
  datatype SearchMethod = BruteForce | PatchMatch | PatchMatchSample

  /** Per-pixel maps are flattened row by row. */
  datatype EstimateOutput = EstimateOutput(
    depth: seq<real>, plane: seq<Vec3>, score: seq<real>, nghbr: seq<int>)

  datatype RawArtifact = RawArtifact(
    depth: seq<real>, plane: seq<Vec3>, score: seq<real>, nghbr: seq<int>,
    neighborIds: seq<ShotId>)

  datatype CleanArtifact = CleanArtifact(depth: seq<real>, plane: seq<Vec3>, score: seq<real>)

  /** A pruned depthmap and the merged cloud: four parallel arrays. */
  datatype PointCloud = PointCloud(
    points: seq<Vec3>, normals: seq<Vec3>, colors: seq<Color>, labels: seq<int>)

  /**
   * The native estimator, cleaner and pruner. Each receives its views in
   * the order they are added (the first one is the reference view) and
   * answers `None` when it raises.
   */
  datatype Kernels = Kernels(
    estimate: (seq<ShotId>, real, real, nat, SearchMethod) -> Option<EstimateOutput>,
    clean: seq<(ShotId, RawArtifact)> -> Option<seq<real>>,
    prune: seq<(ShotId, CleanArtifact)> -> Option<PointCloud>)

  /** The number of depth samples the estimator is configured with. */
  const DepthSamples: nat := 100

  predicate Distinct<T(==)>(s: seq<T>)
  {
    forall i, j :: 0 <= i < j < |s| ==> s[i] != s[j]
  }
}
