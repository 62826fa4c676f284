/**
 * Neighbour selection (`find_neighboring_images`): rank the shots that share
 * tracks with a shot by how many of those tracks are well triangulated, and
 * return the shot itself followed by the best ones.
 */
module Neighbors {
  import opened Slices
  import opened Scene
  import opened CommonTracks
  import opened ScoreSort

  /** The triangulation-angle bounds pi/60 and pi/6, in units of pi. */
  const ThetaMinOverPi: real := 1.0 / 60.0
  const ThetaMaxOverPi: real := 1.0 / 6.0

  /** A candidate must have strictly more good tracks than this. */
  const MinGoodTracks: nat := 20

  /** A shared track counts when it has a 3D point and the angle between the
      two camera rays at that point lies strictly between the bounds. */
  predicate GoodTrack(rec: Reconstruction, shot: ShotId, other: ShotId, t: TrackId)
  {
    t in rec.points && ThetaMinOverPi < rec.angleOverPi(t, shot, other) < ThetaMaxOverPi
  }

  /** The number of good tracks in a shared-track list, repeats included. */
  function GoodTrackCount(rec: Reconstruction, shot: ShotId, other: ShotId, tracks: seq<TrackId>): nat
  {
    if tracks == [] then 0
    else GoodTrackCount(rec, shot, other, tracks[..|tracks| - 1])
         + (if GoodTrack(rec, shot, other, tracks[|tracks| - 1]) then 1 else 0)
  }

  /** The row of `shot`, or an empty row when the table has none (`.get(shot.id, {})`). */
  function RowOf(table: Table, shot: ShotId): (row: Row)
    requires WellFormed(table)
    ensures row.Valid()
  {
    if shot in table then table[shot] else Row([], map[])
  }

  /** The candidates in row order: shots of the reconstruction with more
      than `MinGoodTracks` good shared tracks. */
  function CandidatesOf(rec: Reconstruction, shot: ShotId, keys: seq<ShotId>, tracks: map<ShotId, seq<TrackId>>): seq<Candidate>
    requires forall k :: k in keys ==> k in tracks
  {
    if keys == [] then []
    else
      var prev := CandidatesOf(rec, shot, keys[..|keys| - 1], tracks);
      var other := keys[|keys| - 1];
      var score := GoodTrackCount(rec, shot, other, tracks[other]);
      if other in rec.shots && score > MinGoodTracks then prev + [Candidate(other, score)] else prev
  }

  function Candidates(rec: Reconstruction, shot: ShotId, table: Table): seq<Candidate>
    requires WellFormed(table)
  {
    CandidatesOf(rec, shot, RowOf(table, shot).keys, RowOf(table, shot).tracks)
  }

  function Ids(cs: seq<Candidate>): (ids: seq<ShotId>)
    ensures |ids| == |cs| && forall i :: 0 <= i < |cs| ==> ids[i] == cs[i].id
  {
    if cs == [] then [] else Ids(cs[..|cs| - 1]) + [cs[|cs| - 1].id]
  }

  /** The neighbour list: the shot, then the first `n` candidates by rank. */
  function NeighborList(shot: ShotId, table: Table, rec: Reconstruction, n: int): seq<ShotId>
    requires WellFormed(table)
  {
    [shot] + Ids(Take(SortByScore(Candidates(rec, shot, table)), n))
  }

  /** A candidate is exactly a row entry that is a shot of the reconstruction
      with more than `MinGoodTracks` good tracks, carrying that count. */
  lemma {:induction false} CandidatesMembers(rec: Reconstruction, shot: ShotId, keys: seq<ShotId>, tracks: map<ShotId, seq<TrackId>>, c: Candidate)
    requires forall k :: k in keys ==> k in tracks
    ensures c in CandidatesOf(rec, shot, keys, tracks) <==>
              c.id in keys && c.id in rec.shots && c.score > MinGoodTracks
              && c.score == GoodTrackCount(rec, shot, c.id, tracks[c.id])
  {
    if keys != [] {
      CandidatesMembers(rec, shot, keys[..|keys| - 1], tracks, c);
      assert keys == keys[..|keys| - 1] + [keys[|keys| - 1]];
    }
  }

  /** Every ranked candidate is a candidate: a shot of the reconstruction
      from the shot's row, carrying its good-track count. */
  lemma RankedCandidates(rec: Reconstruction, shot: ShotId, table: Table, i: nat)
    requires WellFormed(table)
    requires i < |SortByScore(Candidates(rec, shot, table))|
    ensures var c := SortByScore(Candidates(rec, shot, table))[i];
            c in Candidates(rec, shot, table)
            && c.id in RowOf(table, shot).tracks && c.id in rec.shots && c.score > MinGoodTracks
            && c.score == GoodTrackCount(rec, shot, c.id, RowOf(table, shot).tracks[c.id])
  {
    var cs := Candidates(rec, shot, table);
    SortByScorePermutes(cs);
    var c := SortByScore(cs)[i];
    assert c in multiset(SortByScore(cs));
    CandidatesMembers(rec, shot, RowOf(table, shot).keys, RowOf(table, shot).tracks, c);
  }

  /** The number of good tracks shared by `shot` and a shot in its row. */
  function Score(rec: Reconstruction, shot: ShotId, table: Table, other: ShotId): nat
    requires WellFormed(table) && other in RowOf(table, shot).tracks
  {
    GoodTrackCount(rec, shot, other, RowOf(table, shot).tracks[other])
  }

  /** The chosen neighbours are the best-ranked candidates: none left out
      scores higher than one chosen, and within a score the chosen ones are
      the first in row order. */
  lemma NeighborListSelectsBest(rec: Reconstruction, shot: ShotId, table: Table, n: int)
    requires WellFormed(table)
    ensures var ranked := SortByScore(Candidates(rec, shot, table));
            var chosen := Take(ranked, n);
            && (forall i, j :: 0 <= i < |chosen| <= j < |ranked| ==> chosen[i].score >= ranked[j].score)
            && (forall k :: WithScore(chosen, k) <= WithScore(Candidates(rec, shot, table), k))
  {
    var cs := Candidates(rec, shot, table);
    var ranked := SortByScore(cs);
    var chosen := Take(ranked, n);
    SortByScoreOrdered(cs);
    forall k ensures WithScore(chosen, k) <= WithScore(cs, k) {
      SortByScoreStable(cs, k);
      WithScorePrefix(chosen, ranked, k);
    }
  }

  /** Keeping a prefix keeps a prefix of every score class. */
  lemma {:induction false} WithScorePrefix(p: seq<Candidate>, s: seq<Candidate>, k: nat)
    requires p <= s
    ensures WithScore(p, k) <= WithScore(s, k)
    decreases |s|
  {
    if |p| < |s| {
      WithScorePrefix(p, s[..|s| - 1], k);
    } else {
      assert p == s;
    }
  }

  /** The neighbour list starts with the shot, holds at most `n` more
      entries (all the candidates when there are fewer), each a shot of the
      reconstruction from the shot's row with more than `MinGoodTracks` good
      tracks, in non-increasing order of that count. */
  lemma NeighborListProperties(shot: ShotId, table: Table, rec: Reconstruction, n: int)
    requires WellFormed(table)
    ensures var r := NeighborList(shot, table, rec, n);
            && |r| >= 1 && r[0] == shot
            && (n >= 0 ==> |r| == 1 + Min(n, |Candidates(rec, shot, table)|))
            && (forall i :: 1 <= i < |r| ==>
                  r[i] in rec.shots && r[i] in RowOf(table, shot).tracks
                  && Score(rec, shot, table, r[i]) > MinGoodTracks)
            && (forall i, j :: 1 <= i < j < |r| ==>
                  r[i] in RowOf(table, shot).tracks && r[j] in RowOf(table, shot).tracks
                  && Score(rec, shot, table, r[i]) >= Score(rec, shot, table, r[j]))
  {
    var cs := Candidates(rec, shot, table);
    var ns := SortByScore(cs);
    var r := NeighborList(shot, table, rec, n);
    SortByScorePermutes(cs);
    assert |ns| == |multiset(ns)| == |multiset(cs)| == |cs|;
    forall i | 1 <= i < |r|
      ensures r[i] in rec.shots && r[i] in RowOf(table, shot).tracks && Score(rec, shot, table, r[i]) > MinGoodTracks
    {
      NeighborEntry(shot, table, rec, n, i);
    }
    SortByScoreOrdered(cs);
    forall i, j | 1 <= i < j < |r|
      ensures r[i] in RowOf(table, shot).tracks && r[j] in RowOf(table, shot).tracks
              && Score(rec, shot, table, r[i]) >= Score(rec, shot, table, r[j])
    {
      NeighborEntry(shot, table, rec, n, i);
      NeighborEntry(shot, table, rec, n, j);
    }
  }

  /** Entry `i` of the neighbour list is ranked candidate `i - 1`. */
  lemma NeighborEntry(shot: ShotId, table: Table, rec: Reconstruction, n: int, i: nat)
    requires WellFormed(table)
    requires 1 <= i < |NeighborList(shot, table, rec, n)|
    ensures var r := NeighborList(shot, table, rec, n);
            var c := SortByScore(Candidates(rec, shot, table))[i - 1];
            && r[i] == c.id && r[i] in rec.shots && r[i] in RowOf(table, shot).tracks
            && Score(rec, shot, table, r[i]) == c.score && c.score > MinGoodTracks
  {
    var ranked := SortByScore(Candidates(rec, shot, table));
    var chosen := Take(ranked, n);
    assert chosen[i - 1] == ranked[i - 1];
    RankedCandidates(rec, shot, table, i - 1);
  }

  /** `find_neighboring_images`: score every row entry, keep those with more
      than `MinGoodTracks` good tracks, rank them and take the first `n`. */
  method FindNeighboringImages(shot: ShotId, table: Table, rec: Reconstruction, n: int) returns (r: seq<ShotId>)
    requires WellFormed(table)
    ensures r == NeighborList(shot, table, rec, n)
    ensures |r| >= 1 && r[0] == shot
    ensures n >= 0 ==> |r| == 1 + Min(n, |Candidates(rec, shot, table)|)
    ensures forall i :: 1 <= i < |r| ==>
              r[i] in rec.shots && r[i] in RowOf(table, shot).tracks
              && Score(rec, shot, table, r[i]) > MinGoodTracks
    ensures forall i, j :: 1 <= i < j < |r| ==>
              r[i] in RowOf(table, shot).tracks && r[j] in RowOf(table, shot).tracks
              && Score(rec, shot, table, r[i]) >= Score(rec, shot, table, r[j])
  {
    var row := RowOf(table, shot);
    var ns: seq<Candidate> := [];
    for i := 0 to |row.keys|
      invariant ns == CandidatesOf(rec, shot, row.keys[..i], row.tracks)
    {
      assert row.keys[..i + 1][..i] == row.keys[..i];
      var other := row.keys[i];
      var tracks := row.tracks[other];
      if other !in rec.shots {
        continue;
      }
      var score := 0;
      for j := 0 to |tracks|
        invariant score == GoodTrackCount(rec, shot, other, tracks[..j])
      {
        assert tracks[..j + 1][..j] == tracks[..j];
        var t := tracks[j];
        if t in rec.points {
          var theta := rec.angleOverPi(t, shot, other);
          if theta > ThetaMinOverPi && theta < ThetaMaxOverPi {
            score := score + 1;
          }
        }
      }
      assert tracks[..|tracks|] == tracks;
      if score > MinGoodTracks {
        ns := ns + [Candidate(other, score)];
      }
    }
    assert row.keys[..|row.keys|] == row.keys;
    ns := SortByScore(ns);
    r := [shot] + Ids(Take(ns, n));
    NeighborListProperties(shot, table, rec, n);
  }
}
