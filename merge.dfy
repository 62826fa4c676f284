/**
 * The point-cloud merger (`merge_depthmaps`, `merge_depthmaps_from_provider`,
 * `aggregate_depthmaps`): concatenate the pruned depthmaps of the shots that
 * have one, in the reconstruction's shot order.
 */
module Merge {
  import opened Wrappers
  import opened Slices
  import opened Scene
  import opened Stages

  /** `np.concatenate` of an empty list raises. */
  datatype MergeError = NothingToConcatenate

  function EmptyCloud(): PointCloud
  {
    PointCloud([], [], [], [])
  }

  /** The pruned depthmaps the provider gives for the shots, in order. */
  function Clouds(shotIds: seq<ShotId>, provider: ShotId -> PointCloud): (cs: seq<PointCloud>)
    ensures |cs| == |shotIds| && forall i :: 0 <= i < |cs| ==> cs[i] == provider(shotIds[i])
  {
    seq(|shotIds|, i requires 0 <= i < |shotIds| => provider(shotIds[i]))
  }

  function PointsOf(cs: seq<PointCloud>): seq<seq<Vec3>>
  {
    seq(|cs|, i requires 0 <= i < |cs| => cs[i].points)
  }

  function NormalsOf(cs: seq<PointCloud>): seq<seq<Vec3>>
  {
    seq(|cs|, i requires 0 <= i < |cs| => cs[i].normals)
  }

  function ColorsOf(cs: seq<PointCloud>): seq<seq<Color>>
  {
    seq(|cs|, i requires 0 <= i < |cs| => cs[i].colors)
  }

  function LabelsOf(cs: seq<PointCloud>): seq<seq<int>>
  {
    seq(|cs|, i requires 0 <= i < |cs| => cs[i].labels)
  }

  /** Each of the four arrays concatenated over the clouds, first cloud first. */
  function Joined(cs: seq<PointCloud>): PointCloud
  {
    PointCloud(Concat(PointsOf(cs)), Concat(NormalsOf(cs)), Concat(ColorsOf(cs)), Concat(LabelsOf(cs)))
  }

  /** Joining no clouds gives four empty arrays. */
  lemma JoinedEmpty()
    ensures Joined([]) == EmptyCloud()
  {
    assert PointsOf([]) == [] && NormalsOf([]) == [] && ColorsOf([]) == [] && LabelsOf([]) == [];
  }

  /** The merged arrays are as long as the per-shot arrays together, and
      shot `i`'s points, normals, colours and labels sit contiguously at the
      same offset in each, right after those of the shots before it. */
  lemma JoinedBlocks(cs: seq<PointCloud>, i: nat)
    requires i < |cs|
    requires forall j :: 0 <= j < |cs| ==>
               |cs[j].normals| == |cs[j].points| && |cs[j].colors| == |cs[j].points| && |cs[j].labels| == |cs[j].points|
    ensures |Joined(cs).points| == SumLengths(PointsOf(cs))
    ensures |Joined(cs).normals| == |Joined(cs).colors| == |Joined(cs).labels| == |Joined(cs).points|
    ensures var off := |Joined(cs[..i]).points|;
            && off + |cs[i].points| <= |Joined(cs).points|
            && Joined(cs).points[off..off + |cs[i].points|] == cs[i].points
            && Joined(cs).normals[off..off + |cs[i].points|] == cs[i].normals
            && Joined(cs).colors[off..off + |cs[i].points|] == cs[i].colors
            && Joined(cs).labels[off..off + |cs[i].points|] == cs[i].labels
  {
    ConcatLength(PointsOf(cs));
    var pre := cs[..i];
    assert PointsOf(cs)[..i] == PointsOf(pre);
    assert NormalsOf(cs)[..i] == NormalsOf(pre);
    assert ColorsOf(cs)[..i] == ColorsOf(pre);
    assert LabelsOf(cs)[..i] == LabelsOf(pre);
    ConcatBlock(PointsOf(cs), i);
    ConcatBlock(NormalsOf(cs), i);
    ConcatBlock(ColorsOf(cs), i);
    ConcatBlock(LabelsOf(cs), i);
    SameLengthConcat(pre);
    SameLengthConcat(cs);
  }

  /** When every cloud's arrays have equal lengths, so do the joined arrays. */
  lemma {:induction false} SameLengthConcat(cs: seq<PointCloud>)
    requires forall j :: 0 <= j < |cs| ==>
               |cs[j].normals| == |cs[j].points| && |cs[j].colors| == |cs[j].points| && |cs[j].labels| == |cs[j].points|
    ensures |Joined(cs).normals| == |Joined(cs).points|
    ensures |Joined(cs).colors| == |Joined(cs).points|
    ensures |Joined(cs).labels| == |Joined(cs).points|
  {
    if cs != [] {
      var pre := cs[..|cs| - 1];
      SameLengthConcat(pre);
      assert PointsOf(cs)[..|cs| - 1] == PointsOf(pre);
      assert NormalsOf(cs)[..|cs| - 1] == NormalsOf(pre);
      assert ColorsOf(cs)[..|cs| - 1] == ColorsOf(pre);
      assert LabelsOf(cs)[..|cs| - 1] == LabelsOf(pre);
    }
  }

  /** `aggregate_depthmaps`: load each shot's pruned depthmap, collect the
      four arrays in four lists and concatenate each list. */
  method AggregateDepthmaps(shotIds: seq<ShotId>, provider: ShotId -> PointCloud)
    returns (r: Result<PointCloud, MergeError>)
    ensures r.Failure? <==> shotIds == []
    ensures r.Success? ==> r.value == Joined(Clouds(shotIds, provider))
  {
    var points: seq<seq<Vec3>> := [];
    var normals: seq<seq<Vec3>> := [];
    var colors: seq<seq<Color>> := [];
    var labels: seq<seq<int>> := [];
    for i := 0 to |shotIds|
      invariant points == PointsOf(Clouds(shotIds[..i], provider))
      invariant normals == NormalsOf(Clouds(shotIds[..i], provider))
      invariant colors == ColorsOf(Clouds(shotIds[..i], provider))
      invariant labels == LabelsOf(Clouds(shotIds[..i], provider))
    {
      var cloud := provider(shotIds[i]);
      points := points + [cloud.points];
      normals := normals + [cloud.normals];
      colors := colors + [cloud.colors];
      labels := labels + [cloud.labels];
    }
    assert shotIds[..|shotIds|] == shotIds;
    if shotIds == [] {
      return Failure(NothingToConcatenate);
    }
    r := Success(PointCloud(Concat(points), Concat(normals), Concat(colors), Concat(labels)));
  }

  /** `merge_depthmaps_from_provider`: four empty arrays when there is no
      shot, the aggregate otherwise. */
  method MergeDepthmapsFromProvider(shotIds: seq<ShotId>, provider: ShotId -> PointCloud)
    returns (cloud: PointCloud)
    ensures shotIds == [] ==> cloud == EmptyCloud()
    ensures cloud == Joined(Clouds(shotIds, provider))
    ensures |cloud.points| == SumLengths(PointsOf(Clouds(shotIds, provider)))
  {
    ConcatLength(PointsOf(Clouds(shotIds, provider)));
    if shotIds == [] {
      JoinedEmpty();
      assert Clouds(shotIds, provider) == [];
      return EmptyCloud();
    }
    var r := AggregateDepthmaps(shotIds, provider);
    cloud := r.value;
  }

  /** The shots of the reconstruction that have a pruned depthmap, in order. */
  function ShotsWithPruned(shots: seq<ShotId>, pruned: map<ShotId, PointCloud>): (ids: seq<ShotId>)
    ensures forall s :: s in ids <==> s in shots && s in pruned
  {
    if shots == [] then []
    else
      var s := shots[|shots| - 1];
      ShotsWithPruned(shots[..|shots| - 1], pruned) + (if s in pruned then [s] else [])
  }

  /** The merged point cloud of a store: the pruned depthmaps of the
      reconstruction's shots that have one, joined in shot order. */
  function MergedCloud(shots: seq<ShotId>, pruned: map<ShotId, PointCloud>): PointCloud
  {
    var ids := ShotsWithPruned(shots, pruned);
    Joined(seq(|ids|, i requires 0 <= i < |ids| => pruned[ids[i]]))
  }

  /** `merge_depthmaps`: merge the pruned depthmaps of the shots that have one. */
  method MergeDepthmaps(data: DenseDataSet, rec: Reconstruction) returns (cloud: PointCloud)
    ensures cloud == MergedCloud(rec.shots, data.pruned)
  {
    var pruned := data.pruned;
    var shotIds := ShotsWithPruned(rec.shots, pruned);
    var provider := (s: ShotId) => if s in pruned then pruned[s] else EmptyCloud();
    cloud := MergeDepthmapsFromProvider(shotIds, provider);
    assert Clouds(shotIds, provider) == seq(|shotIds|, i requires 0 <= i < |shotIds| => pruned[shotIds[i]]);
  }
}
