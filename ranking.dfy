/** Ordering of the ranking entries and the standing of one entry among them:
    the stable descending sort `/api/rankings` applies in place, the
    `sortBy('score').reverse()` order `/api/analyze` reads, `findIndex`, and
    the percentile. */
module Ranking {
  import opened Common
  import opened Records

  predicate Ascending(s: seq<RankingEntry>)
  {
    forall i, j | 0 <= i < j < |s| :: s[i].score <= s[j].score
  }

  predicate Descending(s: seq<RankingEntry>)
  {
    forall i, j | 0 <= i < j < |s| :: s[i].score >= s[j].score
  }

  lemma AscendingTail(s: seq<RankingEntry>)
    requires s != [] && Ascending(s)
    ensures Ascending(s[1..])
  {
    forall i, j | 0 <= i < j < |s[1..]| ensures s[1..][i].score <= s[1..][j].score {
      assert s[1..][i] == s[i + 1] && s[1..][j] == s[j + 1];
    }
  }

  lemma DescendingTail(s: seq<RankingEntry>)
    requires s != [] && Descending(s)
    ensures Descending(s[1..])
  {
    forall i, j | 0 <= i < j < |s[1..]| ensures s[1..][i].score >= s[1..][j].score {
      assert s[1..][i] == s[i + 1] && s[1..][j] == s[j + 1];
    }
  }

  /** `[x] + s` is ascending when `s` is and `x` scores at most its first entry. */
  lemma AscendingCons(x: RankingEntry, s: seq<RankingEntry>)
    requires Ascending(s) && (s == [] || x.score <= s[0].score)
    ensures Ascending([x] + s)
  {
    forall i, j | 0 <= i < j < |[x] + s| ensures ([x] + s)[i].score <= ([x] + s)[j].score {
      assert ([x] + s)[j] == s[j - 1];
      if i > 0 {
        assert ([x] + s)[i] == s[i - 1];
      } else {
        assert s[0].score <= s[j - 1].score;
      }
    }
  }

  /** `[x] + s` is descending when `s` is and `x` scores at least its first entry. */
  lemma DescendingCons(x: RankingEntry, s: seq<RankingEntry>)
    requires Descending(s) && (s == [] || x.score >= s[0].score)
    ensures Descending([x] + s)
  {
    forall i, j | 0 <= i < j < |[x] + s| ensures ([x] + s)[i].score >= ([x] + s)[j].score {
      assert ([x] + s)[j] == s[j - 1];
      if i > 0 {
        assert ([x] + s)[i] == s[i - 1];
      } else {
        assert s[0].score >= s[j - 1].score;
      }
    }
  }

  /** Inserts `e` before the first entry scoring at least as much, so `e` precedes its ties. */
  function InsertAscending(e: RankingEntry, s: seq<RankingEntry>): (r: seq<RankingEntry>)
    ensures multiset(r) == multiset(s) + multiset{e}
    ensures r[0] == e || (s != [] && r[0] == s[0])
  {
    if s == [] || e.score <= s[0].score then [e] + s
    else
      assert s == [s[0]] + s[1..];
      [s[0]] + InsertAscending(e, s[1..])
  }

  /** Inserting into an ascending list keeps it ascending. */
  lemma {:induction false} InsertAscendingSorted(e: RankingEntry, s: seq<RankingEntry>)
    requires Ascending(s)
    ensures Ascending(InsertAscending(e, s))
  {
    if s == [] || e.score <= s[0].score {
      AscendingCons(e, s);
    } else {
      AscendingTail(s);
      var t := InsertAscending(e, s[1..]);
      InsertAscendingSorted(e, s[1..]);
      assert t[0] == e || t[0] == s[1];
      AscendingCons(s[0], t);
    }
  }

  /** lodash `_.sortBy(rankings, 'score')`: stable, ascending by score. */
  function SortByScore(rs: seq<RankingEntry>): (r: seq<RankingEntry>)
    ensures Ascending(r)
    ensures multiset(r) == multiset(rs)
  {
    if rs == [] then []
    else
      assert rs == [rs[0]] + rs[1..];
      var t := SortByScore(rs[1..]);
      InsertAscendingSorted(rs[0], t);
      InsertAscending(rs[0], t)
  }

  /** Inserts `e` before the first entry scoring at most as much, so `e` precedes its ties. */
  function InsertDescending(e: RankingEntry, s: seq<RankingEntry>): (r: seq<RankingEntry>)
    ensures multiset(r) == multiset(s) + multiset{e}
    ensures r[0] == e || (s != [] && r[0] == s[0])
  {
    if s == [] || e.score >= s[0].score then [e] + s
    else
      assert s == [s[0]] + s[1..];
      [s[0]] + InsertDescending(e, s[1..])
  }

  /** Inserting into a descending list keeps it descending. */
  lemma {:induction false} InsertDescendingSorted(e: RankingEntry, s: seq<RankingEntry>)
    requires Descending(s)
    ensures Descending(InsertDescending(e, s))
  {
    if s == [] || e.score >= s[0].score {
      DescendingCons(e, s);
    } else {
      DescendingTail(s);
      var t := InsertDescending(e, s[1..]);
      InsertDescendingSorted(e, s[1..]);
      assert t[0] == e || t[0] == s[1];
      DescendingCons(s[0], t);
    }
  }

  /** `rankings.sort((a, b) => b.score - a.score)`: Array.prototype.sort is stable,
      so this is descending by score with ties in their stored order. */
  function SortDescending(rs: seq<RankingEntry>): (r: seq<RankingEntry>)
    ensures Descending(r)
    ensures multiset(r) == multiset(rs)
  {
    if rs == [] then []
    else
      assert rs == [rs[0]] + rs[1..];
      var t := SortDescending(rs[1..]);
      InsertDescendingSorted(rs[0], t);
      InsertDescending(rs[0], t)
  }

  /** lodash `reverse()`. */
  function Reverse<T>(s: seq<T>): (r: seq<T>)
    ensures |r| == |s|
  {
    if s == [] then [] else Reverse(s[1..]) + [s[0]]
  }

  lemma {:induction false} ReverseAt<T>(s: seq<T>, k: nat)
    requires k < |s|
    ensures Reverse(s)[k] == s[|s| - 1 - k]
  {
    if k < |s| - 1 {
      ReverseAt(s[1..], k);
    }
  }

  lemma {:induction false} ReverseMultiset<T>(s: seq<T>)
    ensures multiset(Reverse(s)) == multiset(s)
  {
    if s != [] {
      ReverseMultiset(s[1..]);
      assert s == [s[0]] + s[1..];
    }
  }

  /** The order `/api/analyze` ranks in: `sortBy('score').reverse()`. */
  function AnalysisOrder(rs: seq<RankingEntry>): (r: seq<RankingEntry>)
    ensures |r| == |rs|
  {
    var sorted := SortByScore(rs);
    assert |sorted| == |multiset(sorted)| == |multiset(rs)| == |rs|;
    Reverse(sorted)
  }

  /** The analysis order is descending by score and holds the same entries. */
  lemma AnalysisOrderIsDescending(rs: seq<RankingEntry>)
    ensures Descending(AnalysisOrder(rs))
    ensures multiset(AnalysisOrder(rs)) == multiset(rs)
  {
    var a := SortByScore(rs);
    ReverseMultiset(a);
    forall i, j | 0 <= i < j < |a|
      ensures Reverse(a)[i].score >= Reverse(a)[j].score
    {
      ReverseAt(a, i);
      ReverseAt(a, j);
    }
  }

  /** The tie-group contribution of a single entry. */
  function Tie(e: RankingEntry, k: int): seq<RankingEntry>
  {
    if e.score == k then [e] else []
  }

  /** The entries with score `k`, in order: the tie group of `k`. */
  function WithScore(s: seq<RankingEntry>, k: int): seq<RankingEntry>
  {
    if s == [] then [] else Tie(s[0], k) + WithScore(s[1..], k)
  }

  lemma WithScoreCons(e: RankingEntry, s: seq<RankingEntry>, k: int)
    ensures WithScore([e] + s, k) == Tie(e, k) + WithScore(s, k)
  {
    assert ([e] + s)[0] == e;
    assert ([e] + s)[1..] == s;
  }

  lemma WithScoreUnfold(a: seq<RankingEntry>, b: seq<RankingEntry>, k: int)
    requires a != []
    ensures WithScore(a + b, k) == Tie(a[0], k) + WithScore(a[1..] + b, k)
  {
    assert (a + b)[0] == a[0];
    assert (a + b)[1..] == a[1..] + b;
  }

  lemma {:induction false} WithScoreAppend(a: seq<RankingEntry>, b: seq<RankingEntry>, k: int)
    ensures WithScore(a + b, k) == WithScore(a, k) + WithScore(b, k)
  {
    if a == [] {
      assert a + b == b;
    } else {
      WithScoreUnfold(a, b, k);
      WithScoreAppend(a[1..], b, k);
      var x, y, z := Tie(a[0], k), WithScore(a[1..], k), WithScore(b, k);
      assert x + (y + z) == (x + y) + z;
    }
  }

  lemma {:induction false} InsertAscendingKeepsTies(e: RankingEntry, s: seq<RankingEntry>, k: int)
    ensures WithScore(InsertAscending(e, s), k) == Tie(e, k) + WithScore(s, k)
  {
    if s == [] || e.score <= s[0].score {
      WithScoreCons(e, s, k);
    } else {
      var t := InsertAscending(e, s[1..]);
      assert InsertAscending(e, s) == [s[0]] + t;
      InsertAscendingKeepsTies(e, s[1..], k);
      WithScoreCons(s[0], t, k);
      assert Tie(e, k) == [] || Tie(s[0], k) == [];
    }
  }

  lemma {:induction false} InsertDescendingKeepsTies(e: RankingEntry, s: seq<RankingEntry>, k: int)
    ensures WithScore(InsertDescending(e, s), k) == Tie(e, k) + WithScore(s, k)
  {
    if s == [] || e.score >= s[0].score {
      WithScoreCons(e, s, k);
    } else {
      var t := InsertDescending(e, s[1..]);
      assert InsertDescending(e, s) == [s[0]] + t;
      InsertDescendingKeepsTies(e, s[1..], k);
      WithScoreCons(s[0], t, k);
      assert Tie(e, k) == [] || Tie(s[0], k) == [];
    }
  }

  /** `_.sortBy` is stable: every tie group keeps its stored order. */
  lemma {:induction false} SortByScoreIsStable(rs: seq<RankingEntry>, k: int)
    ensures WithScore(SortByScore(rs), k) == WithScore(rs, k)
  {
    if rs != [] {
      SortByScoreIsStable(rs[1..], k);
      InsertAscendingKeepsTies(rs[0], SortByScore(rs[1..]), k);
    }
  }

  /** The in-place sort of `/api/rankings` is stable: every tie group keeps its stored order. */
  lemma {:induction false} SortDescendingIsStable(rs: seq<RankingEntry>, k: int)
    ensures WithScore(SortDescending(rs), k) == WithScore(rs, k)
  {
    if rs != [] {
      SortDescendingIsStable(rs[1..], k);
      InsertDescendingKeepsTies(rs[0], SortDescending(rs[1..]), k);
    }
  }

  lemma {:induction false} WithScoreReverse(s: seq<RankingEntry>, k: int)
    ensures WithScore(Reverse(s), k) == Reverse(WithScore(s, k))
  {
    if s != [] {
      WithScoreReverse(s[1..], k);
      WithScoreAppend(Reverse(s[1..]), [s[0]], k);
      assert [s[0]][1..] == [];
      var w := WithScore(s[1..], k);
      if s[0].score == k {
        assert ([s[0]] + w)[1..] == w;
      } else {
        assert [] + w == w;
      }
    }
  }

  /** In the analysis order, entries with equal scores appear newest first:
      each tie group is the reverse of its stored order. */
  lemma AnalysisOrderReversesTies(rs: seq<RankingEntry>, k: int)
    ensures WithScore(AnalysisOrder(rs), k) == Reverse(WithScore(rs, k))
  {
    WithScoreReverse(SortByScore(rs), k);
    SortByScoreIsStable(rs, k);
  }

  /** `findIndex(r => r.id === id)`: the first index holding `id`, or -1. */
  function IndexOfId(s: seq<RankingEntry>, id: Id): (r: int)
    ensures -1 <= r < |s|
    ensures r == -1 <==> !HasRanking(s, id)
    ensures r >= 0 ==> s[r].id == id && forall j | 0 <= j < r :: s[j].id != id
  {
    if s == [] then -1
    else if s[0].id == id then 0
    else
      var k := IndexOfId(s[1..], id);
      assert HasRanking(s[1..], id) <==> HasRanking(s, id) by {
        if HasRanking(s, id) {
          var i :| 0 <= i < |s| && s[i].id == id;
          assert s[1..][i - 1].id == id;
        }
        if HasRanking(s[1..], id) {
          var i :| 0 <= i < |s[1..]| && s[1..][i].id == id;
          assert s[i + 1].id == id;
        }
      }
      if k == -1 then -1 else k + 1
  }

  /** Reordering the entries does not change which ids are present. */
  lemma HasRankingPermutation(a: seq<RankingEntry>, b: seq<RankingEntry>, id: Id)
    requires multiset(a) == multiset(b)
    ensures HasRanking(a, id) <==> HasRanking(b, id)
  {
    if HasRanking(a, id) {
      var i :| 0 <= i < |a| && a[i].id == id;
      assert a[i] in multiset(b);
      var j :| 0 <= j < |b| && b[j] == a[i];
    }
    if HasRanking(b, id) {
      var i :| 0 <= i < |b| && b[i].id == id;
      assert b[i] in multiset(a);
      var j :| 0 <= j < |a| && a[j] == b[i];
    }
  }

  /** `Math.round((1 - position / total) * 100)`, or 50 when the id was not found.
      Math.round rounds halves up, so the result is the integer `r` with
      r - 1/2 <= 100 (total - position) / total < r + 1/2. */
  function Percentile(position: int, total: nat): (r: int)
    requires -1 <= position < total
    ensures position == -1 ==> r == 50
    ensures position >= 0 ==> 0 <= r <= 100
    ensures position >= 0 ==>
      2 * total * r <= 200 * (total - position) + total < 2 * total * (r + 1)
  {
    if position == -1 then 50
    else
      var num, den := 200 * (total - position) + total, 2 * total;
      var q := num / den;
      assert q * den <= num < (q + 1) * den;
      assert num < 101 * den;
      ScaleLess(den, q, 101);
      ScaleLess(den, 0, q + 1);
      q
  }

  /** Multiplying by a positive factor keeps a strict order, and nothing else. */
  lemma ScaleLess(c: int, a: int, b: int)
    requires c > 0
    ensures c * a < c * b <==> a < b
  {
  }

  /** The 1-based position reported to the caller (1 when the id was not found). */
  function ReportedPosition(position: int): (r: int)
    ensures position >= -1 ==> r >= 1
    ensures position >= 0 ==> r - 1 == position
    ensures position == -1 ==> r == 1
  {
    if position != -1 then position + 1 else 1
  }

  /** The first-placed entry is at the 100th percentile. */
  lemma TopIsHundredth(total: nat)
    requires total > 0
    ensures Percentile(0, total) == 100
  {
    var r := Percentile(0, total);
    ScaleLess(2 * total, r, 101);
    ScaleLess(2 * total, 100, r + 1);
  }

  /** A lower place never has a higher percentile. */
  lemma PercentileIsMonotone(p: nat, q: nat, total: nat)
    requires p <= q < total
    ensures Percentile(q, total) <= Percentile(p, total)
  {
    ScaleLess(2 * total, Percentile(q, total), Percentile(p, total) + 1);
  }

  /** The last of `total` entries gets 100/total rounded half up. */
  lemma LastPercentile(total: nat)
    requires total > 0
    ensures 2 * total * Percentile(total - 1, total) <= 200 + total < 2 * total * (Percentile(total - 1, total) + 1)
  {
  }

  /** With at most 200 entries every found entry gets a percentile of at least 1. */
  lemma PercentileAtLeastOne(position: nat, total: nat)
    requires position < total <= 200
    ensures Percentile(position, total) >= 1
  {
    ScaleLess(2 * total, 1, Percentile(position, total) + 1);
  }

  /** With more than 200 entries the last one rounds down to the 0th percentile. */
  lemma PercentileCanBeZero()
    ensures Percentile(300, 301) == 0
  {
  }

  /** An entry that outscores every other entry is placed first by the analysis order. */
  lemma UniqueTopIsFirst(rs: seq<RankingEntry>, top: RankingEntry)
    requires top in rs
    requires forall e | e in rs && e != top :: e.score < top.score
    ensures IndexOfId(AnalysisOrder(rs), top.id) == 0
  {
    var order := AnalysisOrder(rs);
    AnalysisOrderIsDescending(rs);
    assert top in multiset(order);
    var j :| 0 <= j < |order| && order[j] == top;
    assert order[0].score >= top.score;
    assert order[0] in multiset(rs);
  }
}
