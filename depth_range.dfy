/**
 * The depth search range of a shot (`compute_depth_range`): the 10th and
 * 90th percentiles of the depths of the reconstructed points the shot
 * observes, widened by 0.9 and 1.1, each bound replaced by the configured
 * value when that value is set.
 */
module DepthRange {
  import opened Wrappers
  import opened Scene

  datatype DepthRange = DepthRange(minDepth: real, maxDepth: real)

  /** `np.percentile` of an empty list raises: the shot observes no
      reconstructed point. */
  datatype DepthRangeError = NoReconstructedPoints(shot: ShotId)

  /** Python's `config_value or computed`: None and 0 do not override. */
  function OrElse(configured: Option<real>, computed: real): real
  {
    if configured.Some? && configured.value != 0.0 then configured.value else computed
  }

  /** The depths, in the shot's camera, of the observed tracks that have a 3D
      point, in observation order. */
  function ObservedDepths(observed: seq<TrackId>, rec: Reconstruction, shot: ShotId): seq<real>
  {
    if observed == [] then []
    else
      var t := observed[|observed| - 1];
      ObservedDepths(observed[..|observed| - 1], rec, shot)
      + (if t in rec.points then [rec.depthIn(t, shot)] else [])
  }

  /** There is one depth per observed track with a 3D point, in order; so the
      list is empty exactly when no observed track is reconstructed. */
  lemma {:induction false} ObservedDepthsCount(observed: seq<TrackId>, rec: Reconstruction, shot: ShotId)
    ensures |ObservedDepths(observed, rec, shot)| == |set i | 0 <= i < |observed| && observed[i] in rec.points|
    ensures ObservedDepths(observed, rec, shot) == [] <==> forall t :: t in observed ==> t !in rec.points
  {
    if observed != [] {
      var n := |observed| - 1;
      var prev := observed[..n];
      ObservedDepthsCount(prev, rec, shot);
      var before := set i | 0 <= i < n && prev[i] in rec.points;
      var after := set i | 0 <= i < |observed| && observed[i] in rec.points;
      if observed[n] in rec.points {
        assert after == before + {n};
      } else {
        assert after == before;
      }
      assert observed == prev + [observed[n]];
    }
  }

  /** The range computed from non-empty depths and the configuration. */
  function RangeOf(depths: seq<real>, percentile: (seq<real>, real) -> real, config: Config): DepthRange
  {
    DepthRange(OrElse(config.minDepth, percentile(depths, 10.0) * 0.9),
               OrElse(config.maxDepth, percentile(depths, 90.0) * 1.1))
  }

  /** `compute_depth_range`: collect the depths, then take the percentiles
      and apply the overrides. */
  method ComputeDepthRange(observed: seq<TrackId>, rec: Reconstruction, shot: ShotId,
                           config: Config, percentile: (seq<real>, real) -> real)
    returns (r: Result<DepthRange, DepthRangeError>)
    ensures r.Failure? <==> forall t :: t in observed ==> t !in rec.points
    ensures r.Failure? ==> r.error == NoReconstructedPoints(shot)
    ensures r.Success? ==> r.value == RangeOf(ObservedDepths(observed, rec, shot), percentile, config)
  {
    var depths: seq<real> := [];
    for i := 0 to |observed|
      invariant depths == ObservedDepths(observed[..i], rec, shot)
    {
      assert observed[..i + 1][..i] == observed[..i];
      var track := observed[i];
      if track in rec.points {
        var z := rec.depthIn(track, shot);
        depths := depths + [z];
      }
    }
    assert observed[..|observed|] == observed;
    ObservedDepthsCount(observed, rec, shot);
    if depths == [] {
      return Failure(NoReconstructedPoints(shot));
    }
    var minDepth := percentile(depths, 10.0) * 0.9;
    var maxDepth := percentile(depths, 90.0) * 1.1;
    r := Success(DepthRange(OrElse(config.minDepth, minDepth), OrElse(config.maxDepth, maxDepth)));
  }

  /** Each bound is overridden on its own: the minimum depends only on the
      configured minimum, the maximum only on the configured maximum, and a
      set, non-zero value is taken as is. */
  lemma OverridePerBound(depths: seq<real>, percentile: (seq<real>, real) -> real, c1: Config, c2: Config)
    ensures c1.minDepth == c2.minDepth ==> RangeOf(depths, percentile, c1).minDepth == RangeOf(depths, percentile, c2).minDepth
    ensures c1.maxDepth == c2.maxDepth ==> RangeOf(depths, percentile, c1).maxDepth == RangeOf(depths, percentile, c2).maxDepth
    ensures c1.minDepth.Some? && c1.minDepth.value != 0.0 ==> RangeOf(depths, percentile, c1).minDepth == c1.minDepth.value
    ensures c1.maxDepth.Some? && c1.maxDepth.value != 0.0 ==> RangeOf(depths, percentile, c1).maxDepth == c1.maxDepth.value
    ensures (c1.minDepth == None || c1.minDepth == Some(0.0)) ==> RangeOf(depths, percentile, c1).minDepth == percentile(depths, 10.0) * 0.9
    ensures (c1.maxDepth == None || c1.maxDepth == Some(0.0)) ==> RangeOf(depths, percentile, c1).maxDepth == percentile(depths, 90.0) * 1.1
  {
  }

  /** Without overrides, and with the 10th percentile positive and below the
      90th, the computed range is positive and strictly contains the band
      between the two percentiles. */
  lemma ComputedRangeContainsBand(depths: seq<real>, percentile: (seq<real>, real) -> real, config: Config)
    requires config.minDepth == None || config.minDepth == Some(0.0)
    requires config.maxDepth == None || config.maxDepth == Some(0.0)
    requires 0.0 < percentile(depths, 10.0) <= percentile(depths, 90.0)
    ensures var r := RangeOf(depths, percentile, config);
            0.0 < r.minDepth < percentile(depths, 10.0) && percentile(depths, 90.0) < r.maxDepth
  {
  }
}
