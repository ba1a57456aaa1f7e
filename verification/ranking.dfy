/** Kotlin's `sortedByDescending { it.second }` on a list of scored
    alternatives: a stable sort, largest score first, equal scores kept in
    their input order. It is modelled as an insertion sort and specified
    independently by three properties: the output is ordered, it is a
    permutation of the input, and for every score value the entries with
    that score appear in the same order as in the input. */
module Ranking {
  import opened Model

  /** Scores never increase along the list. */
  predicate SortedDesc(r: seq<Scored>) {
    forall i, j :: 0 <= i < j < |r| ==> r[i].score >= r[j].score
  }

  /** The entries with score `k`, in list order. */
  function WithScore(s: seq<Scored>, k: real): seq<Scored> {
    if |s| == 0 then []
    else (if s[0].score == k then [s[0]] else []) + WithScore(s[1..], k)
  }

  /** `r` keeps the relative order of every group of equally scored
      entries of `s`. */
  ghost predicate Stable(s: seq<Scored>, r: seq<Scored>) {
    forall k :: WithScore(r, k) == WithScore(s, k)
  }

  /** Grouping by score distributes over concatenation. */
  lemma {:induction false} WithScoreAppend(a: seq<Scored>, b: seq<Scored>, k: real)
    ensures WithScore(a + b, k) == WithScore(a, k) + WithScore(b, k)
    decreases |a|
  {
    if |a| > 0 {
      var h := if a[0].score == k then [a[0]] else [];
      assert (a + b)[0] == a[0];
      assert (a + b)[1..] == a[1..] + b;
      WithScoreAppend(a[1..], b, k);
      calc {
        WithScore(a + b, k);
        h + WithScore(a[1..] + b, k);
        h + (WithScore(a[1..], k) + WithScore(b, k));
        (h + WithScore(a[1..], k)) + WithScore(b, k);
        WithScore(a, k) + WithScore(b, k);
      }
    } else {
      assert a + b == b;
    }
  }

  /** Places `e`, which precedes every entry of `r` in the input, in front
      of the first entry whose score is not larger than its own. */
  function Insert(e: Scored, r: seq<Scored>): seq<Scored>
    decreases |r|
  {
    if |r| == 0 || e.score >= r[0].score then [e] + r
    else [r[0]] + Insert(e, r[1..])
  }

  /** Inserting adds exactly `e`. */
  lemma {:induction false} InsertPermutes(e: Scored, r: seq<Scored>)
    ensures multiset(Insert(e, r)) == multiset(r) + multiset{e}
    decreases |r|
  {
    if |r| > 0 && e.score < r[0].score {
      InsertPermutes(e, r[1..]);
      assert r == [r[0]] + r[1..];
    }
  }

  /** An upper bound on every score of `r` and on `e` bounds every score
      after insertion. */
  lemma {:induction false} InsertBounded(e: Scored, r: seq<Scored>, b: real)
    requires e.score <= b
    requires forall i :: 0 <= i < |r| ==> r[i].score <= b
    ensures forall i :: 0 <= i < |Insert(e, r)| ==> Insert(e, r)[i].score <= b
    decreases |r|
  {
    if |r| > 0 && e.score < r[0].score {
      InsertBounded(e, r[1..], b);
    }
  }

  /** Inserting into a descending list keeps it descending. */
  lemma {:induction false} InsertSorted(e: Scored, r: seq<Scored>)
    requires SortedDesc(r)
    ensures SortedDesc(Insert(e, r))
    decreases |r|
  {
    if |r| > 0 && e.score < r[0].score {
      var t' := Insert(e, r[1..]);
      InsertSorted(e, r[1..]);
      InsertBounded(e, r[1..], r[0].score);
      var t := [r[0]] + t';
      assert Insert(e, r) == t;
      forall i, j | 0 <= i < j < |t| ensures t[i].score >= t[j].score {
        if i > 0 {
          assert t[i] == t'[i - 1] && t[j] == t'[j - 1];
        } else {
          assert t[j] == t'[j - 1];
        }
      }
    }
  }

  /** Within the group of score `k`, `e` ends up in front of the entries of
      `r`, as it was in the input. */
  lemma {:induction false} InsertGroups(e: Scored, r: seq<Scored>, k: real)
    ensures WithScore(Insert(e, r), k) == WithScore([e] + r, k)
    decreases |r|
  {
    if |r| > 0 && e.score < r[0].score {
      var t' := Insert(e, r[1..]);
      InsertGroups(e, r[1..], k);
      assert r == [r[0]] + r[1..];
      WithScoreAppend([r[0]], t', k);
      WithScoreAppend([e], r[1..], k);
      WithScoreAppend([e], r, k);
      WithScoreAppend([r[0]], r[1..], k);
      var he := if e.score == k then [e] else [];
      var hr := if r[0].score == k then [r[0]] else [];
      assert WithScore([e], k) == he;
      assert WithScore([r[0]], k) == hr;
      assert he == [] || hr == [];
      calc {
        WithScore(Insert(e, r), k);
        hr + WithScore(t', k);
        hr + (he + WithScore(r[1..], k));
        he + (hr + WithScore(r[1..], k));
        he + WithScore(r, k);
        WithScore([e] + r, k);
      }
    }
  }

  /** The stable descending sort. */
  function SortDesc(s: seq<Scored>): (r: seq<Scored>)
    ensures |r| == |s|
    ensures SortedDesc(r)
    ensures multiset(r) == multiset(s)
    ensures Stable(s, r)
  {
    if |s| == 0 then []
    else
      var t := SortDesc(s[1..]);
      var r := Insert(s[0], t);
      InsertSorted(s[0], t);
      InsertPermutes(s[0], t);
      assert s == [s[0]] + s[1..];
      SortDescStable(s, t);
      assert |r| == |multiset(r)| == |s|;
      r
  }

  /** Inserting the head of `s` into a stable sort of its tail gives a
      stable sort of `s`. */
  lemma SortDescStable(s: seq<Scored>, t: seq<Scored>)
    requires |s| > 0 && Stable(s[1..], t)
    ensures Stable(s, Insert(s[0], t))
  {
    forall k ensures WithScore(Insert(s[0], t), k) == WithScore(s, k) {
      InsertGroups(s[0], t, k);
      WithScoreAppend([s[0]], t, k);
      WithScoreAppend([s[0]], s[1..], k);
      assert s == [s[0]] + s[1..];
    }
  }

  /** The group of score `k` is empty exactly when no entry has score `k`. */
  lemma {:induction false} WithScoreEmpty(s: seq<Scored>, k: real)
    ensures WithScore(s, k) == [] <==> forall i :: 0 <= i < |s| ==> s[i].score != k
    decreases |s|
  {
    if |s| > 0 {
      WithScoreEmpty(s[1..], k);
      assert forall i :: 1 <= i < |s| ==> s[i] == s[1..][i - 1];
    }
  }

  /** Ordered, order-of-ties-preserving lists with the same score groups are
      equal: the specification of the stable descending sort determines its
      output. */
  lemma {:induction false} SortedGroupsDetermine(a: seq<Scored>, b: seq<Scored>)
    requires SortedDesc(a) && SortedDesc(b)
    requires forall k :: WithScore(a, k) == WithScore(b, k)
    ensures a == b
    decreases |a| + |b|
  {
    if |a| == 0 || |b| == 0 {
      var k := if |a| > 0 then a[0].score else if |b| > 0 then b[0].score else 0.0;
      WithScoreEmpty(a, k);
      WithScoreEmpty(b, k);
    } else {
      var ka, kb := a[0].score, b[0].score;
      WithScoreEmpty(b, ka);
      WithScoreEmpty(a, kb);
      assert WithScore(a, ka) != [];
      assert WithScore(b, kb) != [];
      assert ka == kb;
      assert WithScore(a, ka)[0] == a[0];
      assert WithScore(b, ka)[0] == b[0];
      var h := [a[0]];
      forall k ensures WithScore(a[1..], k) == WithScore(b[1..], k) {
        var hk := if a[0].score == k then h else [];
        assert WithScore(a, k) == hk + WithScore(a[1..], k);
        assert WithScore(b, k) == hk + WithScore(b[1..], k);
        assert (hk + WithScore(a[1..], k))[|hk|..] == WithScore(a[1..], k);
        assert (hk + WithScore(b[1..], k))[|hk|..] == WithScore(b[1..], k);
      }
      SortedGroupsDetermine(a[1..], b[1..]);
      assert a == [a[0]] + a[1..];
      assert b == [b[0]] + b[1..];
    }
  }

  /** Any ordered list that keeps the score groups of `s` in input order is
      the result of `SortDesc(s)`. */
  lemma SortDescIsTheStableSort(s: seq<Scored>, r: seq<Scored>)
    requires SortedDesc(r) && Stable(s, r)
    ensures r == SortDesc(s)
  {
    SortedGroupsDetermine(r, SortDesc(s));
  }

  /** The index of the earliest entry with the largest score. */
  function FirstBest(s: seq<Scored>): (i: nat)
    requires |s| > 0
    ensures i < |s|
    ensures forall j :: 0 <= j < i ==> s[j].score < s[i].score
    ensures forall j :: i < j < |s| ==> s[j].score <= s[i].score
  {
    if |s| == 1 then 0
    else
      var t := FirstBest(s[1..]);
      if s[0].score >= s[1 + t].score then 0 else 1 + t
  }

  /** The head of the ranking is the earliest alternative among those with
      the largest score. */
  lemma {:induction false} TopIsFirstBest(s: seq<Scored>)
    requires |s| > 0
    ensures SortDesc(s)[0] == s[FirstBest(s)]
    decreases |s|
  {
    if |s| > 1 {
      TopIsFirstBest(s[1..]);
    }
  }

  /** A transformation of scores that keeps their strict order. */
  ghost predicate StrictlyIncreasing(f: real -> real) {
    forall x, y :: x < y ==> f(x) < f(y)
  }

  /** Every score passed through `f`, names kept. */
  function MapScores(s: seq<Scored>, f: real -> real): (r: seq<Scored>)
    ensures |r| == |s|
  {
    if |s| == 0 then [] else [Scored(s[0].name, f(s[0].score))] + MapScores(s[1..], f)
  }

  /** Entry `i` of a mapped list is entry `i` of the list, mapped. */
  lemma {:induction false} MapScoresAt(s: seq<Scored>, f: real -> real, i: nat)
    requires i < |s|
    ensures MapScores(s, f)[i] == Scored(s[i].name, f(s[i].score))
    decreases i
  {
    if i > 0 {
      MapScoresAt(s[1..], f, i - 1);
    }
  }

  lemma MapScoresNames(s: seq<Scored>, f: real -> real)
    ensures Names(MapScores(s, f)) == Names(s)
  {
    forall i | 0 <= i < |s| ensures MapScores(s, f)[i].name == s[i].name {
      MapScoresAt(s, f, i);
    }
  }

  lemma {:induction false} InsertMapScores(e: Scored, r: seq<Scored>, f: real -> real)
    requires StrictlyIncreasing(f)
    ensures Insert(Scored(e.name, f(e.score)), MapScores(r, f)) == MapScores(Insert(e, r), f)
    decreases |r|
  {
    var e' := Scored(e.name, f(e.score));
    if |r| == 0 {
      assert [e][1..] == [];
    } else {
      var rr := MapScores(r, f);
      assert rr[0] == Scored(r[0].name, f(r[0].score)) && rr[1..] == MapScores(r[1..], f);
      if e.score < r[0].score {
        var t := Insert(e, r[1..]);
        InsertMapScores(e, r[1..], f);
        var u := [r[0]] + t;
        assert u[0] == r[0] && u[1..] == t;
      } else {
        assert f(e.score) >= f(r[0].score);
        assert ([e] + r)[1..] == r;
      }
    }
  }

  /** A strictly increasing transformation of the scores commutes with the
      sort, so the order of names is unchanged. */
  lemma {:induction false} SortDescMapScores(s: seq<Scored>, f: real -> real)
    requires StrictlyIncreasing(f)
    ensures SortDesc(MapScores(s, f)) == MapScores(SortDesc(s), f)
    ensures Names(SortDesc(MapScores(s, f))) == Names(SortDesc(s))
    decreases |s|
  {
    if |s| > 0 {
      SortDescMapScores(s[1..], f);
      InsertMapScores(s[0], SortDesc(s[1..]), f);
    }
    MapScoresNames(SortDesc(s), f);
  }
}
