/**
 * The common-track table: for each shot of the track graph, the other shots
 * it shares tracks with, each with the list of shared track ids
 * (`common_tracks_double_dict`).
 */
module CommonTracks {
  import opened Wrappers
  import opened Scene

  /**
   * One row of the table, a Python dict from shot id to shared tracks:
   * `keys` is its iteration order (insertion order), `tracks` its contents.
   */
  datatype Row = Row(keys: seq<ShotId>, tracks: map<ShotId, seq<TrackId>>)
  {
    ghost predicate Valid()
    {
      Distinct(keys) && forall k :: k in tracks <==> k in keys
    }

    /** Dict assignment `row[k] = v`: a key already present keeps its place,
        a new key goes to the end. */
    function Put(k: ShotId, v: seq<TrackId>): (r: Row)
      requires Valid()
      ensures r.Valid()
      ensures r.tracks == tracks[k := v]
      ensures k in keys ==> r.keys == keys
      ensures k !in keys ==> r.keys == keys + [k]
    {
      if k in tracks then Row(keys, tracks[k := v]) else Row(keys + [k], tracks[k := v])
    }
  }

  type Table = map<ShotId, Row>

  /** Every pair the track-graph routine returns is between shots of the graph. */
  predicate PairsWithin(shotIds: seq<ShotId>, pairs: seq<CommonPair>)
  {
    forall i :: 0 <= i < |pairs| ==> pairs[i].a in shotIds && pairs[i].b in shotIds
  }

  predicate Touches(p: CommonPair, a: ShotId, b: ShotId)
  {
    (p.a == a && p.b == b) || (p.a == b && p.b == a)
  }

  /** The track list of the last pair between `a` and `b`, in either order. */
  function LatestFor(pairs: seq<CommonPair>, a: ShotId, b: ShotId): Option<seq<TrackId>>
  {
    if pairs == [] then None
    else if Touches(pairs[|pairs| - 1], a, b) then Some(pairs[|pairs| - 1].tracks)
    else LatestFor(pairs[..|pairs| - 1], a, b)
  }

  ghost predicate WellFormed(t: Table)
  {
    forall s :: s in t ==> t[s].Valid()
  }

  /** One pair recorded in both directions: `res[a][b] = v; res[b][a] = v`. */
  function Record(t: Table, p: CommonPair): (r: Table)
    requires WellFormed(t) && p.a in t && p.b in t
    ensures r.Keys == t.Keys && WellFormed(r)
  {
    var t1 := t[p.a := t[p.a].Put(p.b, p.tracks)];
    t1[p.b := t1[p.b].Put(p.a, p.tracks)]
  }

  /** After recording `p`, the entry for `x`, `y` is `p`'s list when `p` is
      between them and is untouched otherwise. */
  lemma RecordEntry(t: Table, p: CommonPair, x: ShotId, y: ShotId)
    requires WellFormed(t) && p.a in t && p.b in t && x in t
    ensures Touches(p, x, y) ==> y in Record(t, p)[x].tracks && Record(t, p)[x].tracks[y] == p.tracks
    ensures !Touches(p, x, y) ==> (y in Record(t, p)[x].tracks <==> y in t[x].tracks)
    ensures !Touches(p, x, y) && y in t[x].tracks ==> Record(t, p)[x].tracks[y] == t[x].tracks[y]
  {
  }

  /** The table as the source fills it: one empty row per shot, then every
      pair, in order, recorded in both directions. */
  function DoubleDict(shotIds: seq<ShotId>, pairs: seq<CommonPair>): (t: Table)
    requires PairsWithin(shotIds, pairs)
    ensures t.Keys == set s | s in shotIds
    ensures WellFormed(t)
  {
    if pairs == [] then map s | s in shotIds :: Row([], map[])
    else Record(DoubleDict(shotIds, pairs[..|pairs| - 1]), pairs[|pairs| - 1])
  }

  /** Row `a` holds `b` exactly when some pair is between `a` and `b`, and
      then it holds the tracks of the last such pair. */
  lemma {:induction false} DoubleDictEntries(shotIds: seq<ShotId>, pairs: seq<CommonPair>, a: ShotId, b: ShotId)
    requires PairsWithin(shotIds, pairs)
    requires a in shotIds
    ensures b in DoubleDict(shotIds, pairs)[a].tracks <==> LatestFor(pairs, a, b).Some?
    ensures b in DoubleDict(shotIds, pairs)[a].tracks ==>
              DoubleDict(shotIds, pairs)[a].tracks[b] == LatestFor(pairs, a, b).value
  {
    if pairs != [] {
      DoubleDictEntries(shotIds, pairs[..|pairs| - 1], a, b);
      RecordEntry(DoubleDict(shotIds, pairs[..|pairs| - 1]), pairs[|pairs| - 1], a, b);
    }
  }

  /** A shot paired with `a` is itself a shot of the graph. */
  lemma {:induction false} LatestForWithin(shotIds: seq<ShotId>, pairs: seq<CommonPair>, a: ShotId, b: ShotId)
    requires PairsWithin(shotIds, pairs)
    requires LatestFor(pairs, a, b).Some?
    ensures a in shotIds && b in shotIds
  {
    if !Touches(pairs[|pairs| - 1], a, b) {
      LatestForWithin(shotIds, pairs[..|pairs| - 1], a, b);
    }
  }

  /** The last pair between two shots does not depend on which one is named first. */
  lemma {:induction false} LatestForSymmetric(pairs: seq<CommonPair>, a: ShotId, b: ShotId)
    ensures LatestFor(pairs, a, b) == LatestFor(pairs, b, a)
  {
    if pairs != [] {
      LatestForSymmetric(pairs[..|pairs| - 1], a, b);
    }
  }

  /** A pair that no later pair repeats (in either order) is what the table keeps. */
  lemma {:induction false} LatestForLast(pairs: seq<CommonPair>, i: nat)
    requires i < |pairs|
    requires forall j :: i < j < |pairs| ==> !Touches(pairs[j], pairs[i].a, pairs[i].b)
    ensures LatestFor(pairs, pairs[i].a, pairs[i].b) == Some(pairs[i].tracks)
  {
    if i < |pairs| - 1 {
      LatestForLast(pairs[..|pairs| - 1], i);
    }
  }

  /** The table is symmetric: `t[a][b]` and `t[b][a]` are both present or
      both absent, and hold the same list. */
  lemma DoubleDictSymmetric(shotIds: seq<ShotId>, pairs: seq<CommonPair>, a: ShotId, b: ShotId)
    requires PairsWithin(shotIds, pairs)
    requires a in shotIds
    requires b in DoubleDict(shotIds, pairs)[a].tracks
    ensures b in DoubleDict(shotIds, pairs)
    ensures a in DoubleDict(shotIds, pairs)[b].tracks
    ensures DoubleDict(shotIds, pairs)[b].tracks[a] == DoubleDict(shotIds, pairs)[a].tracks[b]
  {
    DoubleDictEntries(shotIds, pairs, a, b);
    LatestForWithin(shotIds, pairs, a, b);
    LatestForSymmetric(pairs, a, b);
    DoubleDictEntries(shotIds, pairs, b, a);
  }

  /** `common_tracks_double_dict`: build the table from the graph's shot ids
      and its pairwise shared tracks. */
  method CommonTracksDoubleDict(shotIds: seq<ShotId>, pairs: seq<CommonPair>) returns (res: Table)
    requires PairsWithin(shotIds, pairs)
    ensures res == DoubleDict(shotIds, pairs)
    ensures res.Keys == set s | s in shotIds
    ensures forall i :: 0 <= i < |pairs| ==>
              pairs[i].b in res[pairs[i].a].tracks && pairs[i].a in res[pairs[i].b].tracks
    ensures forall a, b :: a in res && b in res[a].tracks ==>
              b in res && a in res[b].tracks && res[b].tracks[a] == res[a].tracks[b]
  {
    res := map s | s in shotIds :: Row([], map[]);
    for i := 0 to |pairs|
      invariant res == DoubleDict(shotIds, pairs[..i])
    {
      var p := pairs[i];
      assert pairs[..i + 1][..i] == pairs[..i];
      ghost var before := res;
      res := res[p.a := res[p.a].Put(p.b, p.tracks)];
      res := res[p.b := res[p.b].Put(p.a, p.tracks)];
      assert res == Record(before, p);
    }
    assert pairs[..|pairs|] == pairs;
    forall i | 0 <= i < |pairs|
      ensures pairs[i].b in res[pairs[i].a].tracks && pairs[i].a in res[pairs[i].b].tracks
    {
      PairedHasEntry(pairs, i);
      DoubleDictEntries(shotIds, pairs, pairs[i].a, pairs[i].b);
      LatestForSymmetric(pairs, pairs[i].a, pairs[i].b);
      DoubleDictEntries(shotIds, pairs, pairs[i].b, pairs[i].a);
    }
    forall a, b | a in res && b in res[a].tracks
      ensures b in res && a in res[b].tracks && res[b].tracks[a] == res[a].tracks[b]
    {
      DoubleDictSymmetric(shotIds, pairs, a, b);
    }
  }

  /** Every pair the routine returns leaves an entry. */
  lemma {:induction false} PairedHasEntry(pairs: seq<CommonPair>, i: nat)
    requires i < |pairs|
    ensures LatestFor(pairs, pairs[i].a, pairs[i].b).Some?
  {
    if i < |pairs| - 1 && !Touches(pairs[|pairs| - 1], pairs[i].a, pairs[i].b) {
      PairedHasEntry(pairs[..|pairs| - 1], i);
    }
  }
}
