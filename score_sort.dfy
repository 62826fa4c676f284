/**
 * The ranking of neighbour candidates: `ns.sort(key=score, reverse=True)`.
 * Python's sort is stable, also with `reverse=True`, so candidates with equal
 * scores keep their order. The reference definition below is an insertion
 * sort; the lemmas show that it orders by non-increasing score, is a
 * permutation, keeps the order within each score, and that these three facts
 * leave exactly one possible result, so any stable descending sort agrees
 * with it.
 */
module ScoreSort {
  import opened Scene

  /** A candidate neighbour with its number of well-triangulated shared tracks. */
  datatype Candidate = Candidate(id: ShotId, score: nat)

  ghost predicate NonIncreasing(s: seq<Candidate>)
  {
    forall i, j :: 0 <= i < j < |s| ==> s[i].score >= s[j].score
  }

  /** The candidates with score `k`, in their order in `s`. */
  function WithScore(s: seq<Candidate>, k: nat): seq<Candidate>
  {
    if s == [] then []
    else WithScore(s[..|s| - 1], k) + (if s[|s| - 1].score == k then [s[|s| - 1]] else [])
  }

  /** Place `c` after every element whose score is at least `c`'s. */
  function Insert(c: Candidate, s: seq<Candidate>): seq<Candidate>
  {
    if s == [] then [c]
    else if s[|s| - 1].score >= c.score then s + [c]
    else Insert(c, s[..|s| - 1]) + [s[|s| - 1]]
  }

  /** Stable sort by descending score: insert the elements one by one, first first. */
  function SortByScore(s: seq<Candidate>): seq<Candidate>
  {
    if s == [] then [] else Insert(s[|s| - 1], SortByScore(s[..|s| - 1]))
  }

  lemma {:induction false} WithScoreMembers(s: seq<Candidate>, k: nat, e: Candidate)
    ensures e in WithScore(s, k) <==> e in s && e.score == k
  {
    if s != [] {
      WithScoreMembers(s[..|s| - 1], k, e);
      assert s == s[..|s| - 1] + [s[|s| - 1]];
    }
  }

  lemma {:induction false} InsertMultiset(c: Candidate, s: seq<Candidate>)
    ensures multiset(Insert(c, s)) == multiset(s) + multiset{c}
  {
    if s != [] {
      assert s == s[..|s| - 1] + [s[|s| - 1]];
      if s[|s| - 1].score < c.score {
        InsertMultiset(c, s[..|s| - 1]);
      }
    }
  }

  lemma {:induction false} InsertNonIncreasing(c: Candidate, s: seq<Candidate>)
    requires NonIncreasing(s)
    ensures NonIncreasing(Insert(c, s))
  {
    if s != [] && s[|s| - 1].score < c.score {
      var s', x := s[..|s| - 1], s[|s| - 1];
      InsertNonIncreasing(c, s');
      InsertMultiset(c, s');
      var r' := Insert(c, s');
      forall i | 0 <= i < |r'|
        ensures r'[i].score >= x.score
      {
        assert r'[i] in multiset(r');
        assert r'[i] in multiset(s') || r'[i] == c;
      }
    }
  }

  lemma {:induction false} InsertWithScore(c: Candidate, s: seq<Candidate>, k: nat)
    requires NonIncreasing(s)
    ensures WithScore(Insert(c, s), k) == WithScore(s, k) + (if c.score == k then [c] else [])
  {
    if s == [] {
      assert [c][..0] == [];
    } else if s[|s| - 1].score >= c.score {
      assert (s + [c])[..|s|] == s;
    } else {
      var s', x := s[..|s| - 1], s[|s| - 1];
      InsertWithScore(c, s', k);
      var r := Insert(c, s') + [x];
      assert r[..|r| - 1] == Insert(c, s');
    }
  }

  /** The reference sort orders by non-increasing score. */
  lemma {:induction false} SortByScoreOrdered(s: seq<Candidate>)
    ensures NonIncreasing(SortByScore(s))
  {
    if s != [] {
      SortByScoreOrdered(s[..|s| - 1]);
      InsertNonIncreasing(s[|s| - 1], SortByScore(s[..|s| - 1]));
    }
  }

  lemma {:induction false} SortByScorePermutes(s: seq<Candidate>)
    ensures multiset(SortByScore(s)) == multiset(s)
  {
    if s != [] {
      var s', x := s[..|s| - 1], s[|s| - 1];
      SortByScorePermutes(s');
      InsertMultiset(x, SortByScore(s'));
      MultisetSnoc(s);
    }
  }

  lemma MultisetSnoc(s: seq<Candidate>)
    requires s != []
    ensures multiset(s) == multiset(s[..|s| - 1]) + multiset{s[|s| - 1]}
  {
    assert s == s[..|s| - 1] + [s[|s| - 1]];
  }

  /** The reference sort keeps the input order among candidates of equal score. */
  lemma {:induction false} SortByScoreStable(s: seq<Candidate>, k: nat)
    ensures WithScore(SortByScore(s), k) == WithScore(s, k)
  {
    if s != [] {
      var s', x := s[..|s| - 1], s[|s| - 1];
      SortByScoreStable(s', k);
      SortByScoreOrdered(s');
      InsertWithScore(x, SortByScore(s'), k);
    }
  }

  /** In an ordered sequence the last element has the lowest score. */
  lemma LastIsLowest(r: seq<Candidate>, e: Candidate)
    requires NonIncreasing(r) && e in r
    ensures e.score >= r[|r| - 1].score
  {
    var j :| 0 <= j < |r| && r[j] == e;
    if j < |r| - 1 {
      assert r[j].score >= r[|r| - 1].score;
    }
  }

  /** Two ordered sequences that agree on the candidates with each one's
      last score have the same lowest score at their ends. */
  lemma LastScoresAgree(r1: seq<Candidate>, r2: seq<Candidate>)
    requires r1 != [] && r2 != []
    requires NonIncreasing(r1) && NonIncreasing(r2)
    requires WithScore(r1, r1[|r1| - 1].score) == WithScore(r2, r1[|r1| - 1].score)
    requires WithScore(r1, r2[|r2| - 1].score) == WithScore(r2, r2[|r2| - 1].score)
    ensures r1[|r1| - 1].score == r2[|r2| - 1].score
  {
    var x1, x2 := r1[|r1| - 1], r2[|r2| - 1];
    WithScoreMembers(r1, x1.score, x1);
    var e2 :| e2 in WithScore(r2, x1.score);
    WithScoreMembers(r2, x1.score, e2);
    LastIsLowest(r2, e2);
    WithScoreMembers(r2, x2.score, x2);
    var e1 :| e1 in WithScore(r1, x2.score);
    WithScoreMembers(r1, x2.score, e1);
    LastIsLowest(r1, e1);
  }

  /** Dropping equal-scored last elements keeps the agreement, and those last
      elements are the same. */
  lemma PrefixesAgree(r1: seq<Candidate>, r2: seq<Candidate>, k: nat)
    requires r1 != [] && r2 != []
    requires r1[|r1| - 1].score == r2[|r2| - 1].score
    requires WithScore(r1, k) == WithScore(r2, k)
    ensures WithScore(r1[..|r1| - 1], k) == WithScore(r2[..|r2| - 1], k)
    ensures k == r1[|r1| - 1].score ==> r1[|r1| - 1] == r2[|r2| - 1]
  {
    var r1', x1 := r1[..|r1| - 1], r1[|r1| - 1];
    var r2', x2 := r2[..|r2| - 1], r2[|r2| - 1];
    var w1, w2 := WithScore(r1', k), WithScore(r2', k);
    if k == x1.score {
      assert WithScore(r1, k) == w1 + [x1];
      assert WithScore(r2, k) == w2 + [x2];
      LastAndPrefix(w1, x1, w2, x2);
    } else {
      assert WithScore(r1, k) == w1;
      assert WithScore(r2, k) == w2;
    }
  }

  lemma LastAndPrefix(w1: seq<Candidate>, x1: Candidate, w2: seq<Candidate>, x2: Candidate)
    requires w1 + [x1] == w2 + [x2]
    ensures w1 == w2 && x1 == x2
  {
    assert |w1| == |w2|;
    assert w1 == (w1 + [x1])[..|w1|];
    assert w2 == (w2 + [x2])[..|w2|];
    assert x1 == (w1 + [x1])[|w1|];
  }

  /** Two sequences ordered by non-increasing score that agree on the order
      within every score are equal: a stable descending sort has one result. */
  lemma {:induction false} StableSortUnique(r1: seq<Candidate>, r2: seq<Candidate>)
    requires NonIncreasing(r1) && NonIncreasing(r2)
    requires forall k :: WithScore(r1, k) == WithScore(r2, k)
    ensures r1 == r2
    decreases |r1| + |r2|
  {
    if r1 == [] && r2 == [] {
    } else if r1 == [] {
      var x2 := r2[|r2| - 1];
      WithScoreMembers(r2, x2.score, x2);
    } else if r2 == [] {
      var x1 := r1[|r1| - 1];
      WithScoreMembers(r1, x1.score, x1);
    } else {
      var r1', r2' := r1[..|r1| - 1], r2[..|r2| - 1];
      LastScoresAgree(r1, r2);
      forall k ensures WithScore(r1', k) == WithScore(r2', k) {
        PrefixesAgree(r1, r2, k);
      }
      PrefixesAgree(r1, r2, r1[|r1| - 1].score);
      StableSortUnique(r1', r2');
      assert r1 == r1' + [r1[|r1| - 1]] && r2 == r2' + [r2[|r2| - 1]];
    }
  }

  /** Any result of a stable sort by descending score is the reference sort. */
  lemma StableSortIsSortByScore(s: seq<Candidate>, r: seq<Candidate>)
    requires NonIncreasing(r)
    requires forall k :: WithScore(r, k) == WithScore(s, k)
    ensures r == SortByScore(s)
  {
    SortByScoreOrdered(s);
    forall k ensures WithScore(r, k) == WithScore(SortByScore(s), k) {
      SortByScoreStable(s, k);
    }
    StableSortUnique(r, SortByScore(s));
  }
}
