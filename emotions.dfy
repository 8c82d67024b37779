/** Top-N emotion selection: `sorted(scores.items(), key=score, reverse=True)[:n]`.
    Python's sort is stable, also with `reverse=True`, so entries with equal scores keep
    their dictionary order. The sort is modelled by an insertion sort, and
    `SortDescUnique` shows that any stable descending sort gives the same sequence. */
module Emotions {
  import opened Dicts

  /** Scores never increase from left to right. */
  predicate SortedDesc(s: seq<Entry>)
  {
    forall i, j :: 0 <= i < j < |s| ==> s[i].score >= s[j].score
  }

  /** The entries of `s` whose score is `v`, in their order in `s`. */
  function WithScore(s: seq<Entry>, v: real): seq<Entry>
  {
    if s == [] then []
    else (if s[0].score == v then [s[0]] else []) + WithScore(s[1..], v)
  }

  /** Inserts `e` in front of the first entry whose score is not above its own. */
  function Insert(e: Entry, t: seq<Entry>): (r: seq<Entry>)
    ensures |r| == |t| + 1
    ensures multiset(r) == multiset(t) + multiset{e}
  {
    if t == [] || e.score >= t[0].score then [e] + t
    else
      assert t == [t[0]] + t[1..];
      [t[0]] + Insert(e, t[1..])
  }

  /** Stable sort by descending score. */
  function SortDesc(s: seq<Entry>): (r: seq<Entry>)
    ensures |r| == |s|
    ensures multiset(r) == multiset(s)
  {
    if s == [] then []
    else
      assert s == [s[0]] + s[1..];
      Insert(s[0], SortDesc(s[1..]))
  }

  /** Every entry of `t` scores at most `h`. */
  predicate AtMost(t: seq<Entry>, h: real)
  {
    forall j :: 0 <= j < |t| ==> t[j].score <= h
  }

  lemma ConsSorted(x: Entry, t: seq<Entry>)
    requires SortedDesc(t) && AtMost(t, x.score)
    ensures SortedDesc([x] + t)
  {
    var r := [x] + t;
    forall i, j | 0 <= i < j < |r| ensures r[i].score >= r[j].score {
      assert r[j] == t[j - 1];
      if i > 0 { assert r[i] == t[i - 1]; }
    }
  }

  lemma SortedAtMostHead(t: seq<Entry>)
    requires SortedDesc(t) && t != []
    ensures AtMost(t, t[0].score)
  {
  }

  lemma InsertAtMost(e: Entry, t: seq<Entry>, h: real)
    requires AtMost(t, h) && e.score <= h
    ensures AtMost(Insert(e, t), h)
  {
    var r := Insert(e, t);
    forall j | 0 <= j < |r| ensures r[j].score <= h {
      assert r[j] in multiset(r);
      assert r[j] == e || r[j] in multiset(t);
      if r[j] != e {
        var k :| 0 <= k < |t| && t[k] == r[j];
      }
    }
  }

  lemma {:induction false} InsertSorted(e: Entry, t: seq<Entry>)
    requires SortedDesc(t)
    ensures SortedDesc(Insert(e, t))
  {
    if t == [] || e.score >= t[0].score {
      if t != [] { SortedAtMostHead(t); }
      ConsSorted(e, t);
    } else {
      assert SortedDesc(t[1..]);
      InsertSorted(e, t[1..]);
      SortedAtMostHead(t);
      assert AtMost(t[1..], t[0].score);
      InsertAtMost(e, t[1..], t[0].score);
      ConsSorted(t[0], Insert(e, t[1..]));
    }
  }

  /** The sort's output is in descending order. */
  lemma {:induction false} SortDescSorted(s: seq<Entry>)
    ensures SortedDesc(SortDesc(s))
  {
    if s != [] {
      SortDescSorted(s[1..]);
      InsertSorted(s[0], SortDesc(s[1..]));
    }
  }

  lemma WithScoreCons(x: Entry, t: seq<Entry>, v: real)
    ensures WithScore([x] + t, v) == (if x.score == v then [x] else []) + WithScore(t, v)
  {
    assert ([x] + t)[1..] == t;
  }

  lemma {:induction false} InsertWithScore(e: Entry, t: seq<Entry>, v: real)
    ensures WithScore(Insert(e, t), v) == (if e.score == v then [e] else []) + WithScore(t, v)
  {
    if t == [] || e.score >= t[0].score {
      WithScoreCons(e, t, v);
    } else {
      var tail := Insert(e, t[1..]);
      assert Insert(e, t) == [t[0]] + tail;
      WithScoreCons(t[0], tail, v);
      InsertWithScore(e, t[1..], v);
      var rest := WithScore(t[1..], v);
      assert WithScore(t, v) == (if t[0].score == v then [t[0]] else []) + rest;
      if e.score == v {
        assert WithScore(tail, v) == [e] + rest;
        assert WithScore(t, v) == rest;
      } else {
        assert WithScore(tail, v) == rest;
      }
    }
  }

  /** Stability: for every score, the entries with that score appear in the output
      in exactly the order they had in the input. */
  lemma {:induction false} SortDescStable(s: seq<Entry>, v: real)
    ensures WithScore(SortDesc(s), v) == WithScore(s, v)
  {
    if s != [] {
      SortDescStable(s[1..], v);
      InsertWithScore(s[0], SortDesc(s[1..]), v);
    }
  }

  /** Sorting an already sorted sequence changes nothing. */
  lemma {:induction false} SortDescOfSorted(s: seq<Entry>)
    requires SortedDesc(s)
    ensures SortDesc(s) == s
  {
    if s != [] {
      assert SortedDesc(s[1..]);
      SortDescOfSorted(s[1..]);
      assert [s[0]] + s[1..] == s;
    }
  }

  lemma {:induction false} WithScoreMember(s: seq<Entry>, x: Entry, v: real)
    ensures x in WithScore(s, v) <==> x in s && x.score == v
  {
    if s != [] {
      WithScoreMember(s[1..], x, v);
      assert x in s <==> x == s[0] || x in s[1..];
    }
  }

  /** Descending order and stability determine the result: two sorted sequences that agree
      on the order of the entries of every score are equal. */
  lemma {:induction false} SortDescUnique(a: seq<Entry>, b: seq<Entry>)
    requires SortedDesc(a) && SortedDesc(b)
    requires forall v :: WithScore(a, v) == WithScore(b, v)
    ensures a == b
  {
    if a != [] || b != [] {
      NonEmptyTogether(a, b);
      SameHead(a, b);
      forall v ensures WithScore(a[1..], v) == WithScore(b[1..], v) {
        SameTail(a, b, v);
      }
      SortDescUnique(a[1..], b[1..]);
      assert a == [a[0]] + a[1..] && b == [b[0]] + b[1..];
    }
  }

  lemma NonEmptyTogether(a: seq<Entry>, b: seq<Entry>)
    requires forall v :: WithScore(a, v) == WithScore(b, v)
    ensures a == [] <==> b == []
  {
    if a != [] {
      WithScoreMember(a, a[0], a[0].score);
      WithScoreMember(b, a[0], a[0].score);
    }
    if b != [] {
      WithScoreMember(b, b[0], b[0].score);
      WithScoreMember(a, b[0], b[0].score);
    }
  }

  lemma SameHead(a: seq<Entry>, b: seq<Entry>)
    requires SortedDesc(a) && SortedDesc(b) && a != [] && b != []
    requires forall v :: WithScore(a, v) == WithScore(b, v)
    ensures a[0] == b[0]
  {
    var va, vb := a[0].score, b[0].score;
    assert WithScore(a, va) == WithScore(b, va);
    assert WithScore(b, vb) == WithScore(a, vb);
    HeadAtMost(a, b);
    HeadAtMost(b, a);
    assert WithScore(a, va)[0] == a[0];
    assert WithScore(b, vb)[0] == b[0];
  }

  /** The head of `a`, having the same score group in `b`, scores no more than `b`'s head. */
  lemma HeadAtMost(a: seq<Entry>, b: seq<Entry>)
    requires SortedDesc(b) && a != [] && b != []
    requires WithScore(a, a[0].score) == WithScore(b, a[0].score)
    ensures a[0].score <= b[0].score
  {
    WithScoreMember(a, a[0], a[0].score);
    WithScoreMember(b, a[0], a[0].score);
    var i :| 0 <= i < |b| && b[i] == a[0];
    if i > 0 { assert b[0].score >= b[i].score; }
  }

  lemma SameTail(a: seq<Entry>, b: seq<Entry>, v: real)
    requires a != [] && b != [] && a[0] == b[0]
    requires WithScore(a, v) == WithScore(b, v)
    ensures WithScore(a[1..], v) == WithScore(b[1..], v)
  {
    var p := if a[0].score == v then [a[0]] else [];
    assert WithScore(a, v) == p + WithScore(a[1..], v);
    assert WithScore(b, v) == p + WithScore(b[1..], v);
    assert (p + WithScore(a[1..], v))[|p|..] == WithScore(a[1..], v);
    assert (p + WithScore(b[1..], v))[|p|..] == WithScore(b[1..], v);
  }

  // ------------------------------------------------------------ labels stay distinct

  lemma SameElementsSameKeys(a: seq<Entry>, b: seq<Entry>)
    requires multiset(a) == multiset(b)
    ensures Keys(a) == Keys(b)
  {
    forall l | l in Keys(a) ensures l in Keys(b) {
      KeysIndex(a, l);
      KeysIndex(b, l);
      var i :| 0 <= i < |a| && a[i].emotion == l;
      assert a[i] in multiset(b);
      var j :| 0 <= j < |b| && b[j] == a[i];
    }
    forall l | l in Keys(b) ensures l in Keys(a) {
      KeysIndex(a, l);
      KeysIndex(b, l);
      var i :| 0 <= i < |b| && b[i].emotion == l;
      assert b[i] in multiset(a);
      var j :| 0 <= j < |a| && a[j] == b[i];
    }
  }

  lemma KeysSnoc(t: seq<Entry>, e: Entry)
    ensures Keys(t + [e]) == Keys(t) + {e.emotion}
  {
    var r := t + [e];
    assert r[|t|] == e;
    KeysIndex(r, e.emotion);
    forall l | l in Keys(r) ensures l in Keys(t) + {e.emotion} {
      KeysIndex(r, l);
      KeysIndex(t, l);
      var i :| 0 <= i < |r| && r[i].emotion == l;
      if i < |t| { assert r[i] == t[i]; }
    }
    forall l | l in Keys(t) ensures l in Keys(r) {
      KeysIndex(r, l);
      KeysIndex(t, l);
      var i :| 0 <= i < |t| && t[i].emotion == l;
      assert r[i] == t[i];
    }
  }

  lemma {:induction false} InsertDistinct(e: Entry, t: seq<Entry>)
    requires Distinct(t) && e.emotion !in Keys(t)
    ensures Distinct(Insert(e, t))
  {
    if t == [] || e.score >= t[0].score {
      ConsDistinct(e, t);
    } else {
      var tail := Insert(e, t[1..]);
      DistinctHead(t);
      InsertDistinct(e, t[1..]);
      SameElementsSameKeys(tail, t[1..] + [e]);
      KeysSnoc(t[1..], e);
      ConsDistinct(t[0], tail);
    }
  }

  lemma {:induction false} SortDescDistinct(s: seq<Entry>)
    requires Distinct(s)
    ensures Distinct(SortDesc(s))
  {
    if s != [] {
      SortDescDistinct(s[1..]);
      SameElementsSameKeys(SortDesc(s[1..]), s[1..]);
      DistinctHead(s);
      InsertDistinct(s[0], SortDesc(s[1..]));
    }
  }

  // ------------------------------------------------------------ top N

  function Min(a: int, b: int): int { if a <= b then a else b }

  lemma {:induction false} WithScorePrefix(q: seq<Entry>, k: nat, v: real)
    requires k <= |q|
    ensures WithScore(q[..k], v) <= WithScore(q, v)
  {
    if k > 0 {
      assert q[..k][1..] == q[1..][..k - 1];
      WithScorePrefix(q[1..], k - 1, v);
    }
  }

  /** What a prefix of the sorted sequence inherits from it. */
  lemma SortedPrefix(s: seq<Entry>, q: seq<Entry>, k: nat)
    requires k <= |q| && SortedDesc(q) && multiset(q) == multiset(s)
    ensures SortedDesc(q[..k])
    ensures multiset(q[..k]) <= multiset(s)
    ensures forall x, y :: x in q[..k] && y in multiset(s) - multiset(q[..k]) ==> y.score <= x.score
  {
    assert q == q[..k] + q[k..];
    assert multiset(s) - multiset(q[..k]) == multiset(q[k..]);
    forall x, y | x in q[..k] && y in multiset(q[k..]) ensures y.score <= x.score {
      PrefixDominates(q, k, x, y);
    }
  }

  lemma PrefixDominates(q: seq<Entry>, k: nat, x: Entry, y: Entry)
    requires k <= |q| && SortedDesc(q) && x in q[..k] && y in multiset(q[k..])
    ensures y.score <= x.score
  {
    var i :| 0 <= i < k && q[..k][i] == x;
    assert y in q[k..];
    var j :| 0 <= j < |q| - k && q[k..][j] == y;
    assert q[i] == x && q[k + j] == y;
  }

  /** `_extract_top_n_emotions(emotion_scores, n)`: the `n` highest-scoring entries
      (all of them when there are fewer), highest first. */
  function TopN(s: Dict, n: nat): (r: Dict)
    ensures |r| == Min(n, |s|)
    ensures SortedDesc(r)
    ensures multiset(r) <= multiset(s)
    ensures forall x, y :: x in r && y in multiset(s) - multiset(r) ==> y.score <= x.score
    ensures forall v :: WithScore(r, v) <= WithScore(s, v)
  {
    TopNFacts(s, n);
    SortDesc(s)[..Min(n, |s|)]
  }

  lemma TopNFacts(s: Dict, n: nat)
    ensures Distinct(SortDesc(s)[..Min(n, |s|)])
    ensures SortedDesc(SortDesc(s)[..Min(n, |s|)])
    ensures multiset(SortDesc(s)[..Min(n, |s|)]) <= multiset(s)
    ensures forall x, y :: x in SortDesc(s)[..Min(n, |s|)] && y in multiset(s) - multiset(SortDesc(s)[..Min(n, |s|)]) ==> y.score <= x.score
    ensures forall v :: WithScore(SortDesc(s)[..Min(n, |s|)], v) <= WithScore(s, v)
  {
    var q := SortDesc(s);
    var k := Min(n, |s|);
    SortDescSorted(s);
    SortDescDistinct(s);
    SortedPrefix(s, q, k);
    forall v ensures WithScore(q[..k], v) <= WithScore(s, v) {
      SortDescStable(s, v);
      WithScorePrefix(q, k, v);
    }
  }

  /** Selecting again from a selection returns it unchanged. */
  lemma TopNIdempotent(s: Dict, n: nat)
    ensures TopN(TopN(s, n), n) == TopN(s, n)
  {
    var r := TopN(s, n);
    SortDescOfSorted(r);
    assert r[..Min(n, |r|)] == r;
  }
}
