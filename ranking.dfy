/** Python's `sorted(xs, key=k, reverse=True)` and `xs.sort(key=k, reverse=True)`:
    a stable sort by descending key (records with equal keys keep their original
    order), and the `xs[:n]` slice that follows it in every ranking of the pipeline. */
module Ranking {

  ghost predicate SortedDesc<T>(s: seq<T>, key: T -> real) {
    forall i, j :: 0 <= i < j < |s| ==> key(s[i]) >= key(s[j])
  }

  /** The entries of `s` whose key equals `v`, in their order in `s`. */
  function Tied<T>(s: seq<T>, key: T -> real, v: real): seq<T> {
    if s == [] then []
    else (if key(s[0]) == v then [s[0]] else []) + Tied(s[1..], key, v)
  }

  /** Puts `x` in front of the first entry whose key is not greater than its own. */
  function Insert<T>(x: T, s: seq<T>, key: T -> real): (r: seq<T>)
    ensures |r| == |s| + 1
    ensures multiset(r) == multiset(s) + multiset{x}
  {
    if s == [] || key(s[0]) <= key(x) then
      [x] + s
    else
      assert s == [s[0]] + s[1..];
      [s[0]] + Insert(x, s[1..], key)
  }

  /** Inserting into a sorted list keeps it sorted. */
  lemma {:induction false} InsertSorted<T>(x: T, s: seq<T>, key: T -> real)
    requires SortedDesc(s, key)
    ensures SortedDesc(Insert(x, s, key), key)
  {
    if s != [] && key(s[0]) > key(x) {
      var rest := Insert(x, s[1..], key);
      SortedTail(s, key);
      InsertSorted(x, s[1..], key);
      forall j | 0 <= j < |rest| ensures key(s[0]) >= key(rest[j]) {
        assert rest[j] in multiset(rest);
        if rest[j] != x {
          assert rest[j] in multiset(s[1..]);
          var m :| 0 <= m < |s[1..]| && s[1..][m] == rest[j];
          assert s[m + 1] == rest[j];
        }
      }
      ConsSorted(s[0], rest, key);
    } else if s != [] {
      forall j | 0 <= j < |s| ensures key(x) >= key(s[j]) {
        assert key(s[0]) >= key(s[j]);
      }
      ConsSorted(x, s, key);
    }
  }

  lemma ConsSorted<T>(h: T, s: seq<T>, key: T -> real)
    requires SortedDesc(s, key)
    requires forall j :: 0 <= j < |s| ==> key(h) >= key(s[j])
    ensures SortedDesc([h] + s, key)
  {
    forall i, j | 0 <= i < j < |[h] + s| ensures key(([h] + s)[i]) >= key(([h] + s)[j]) {
      assert ([h] + s)[j] == s[j - 1];
      if i > 0 {
        assert ([h] + s)[i] == s[i - 1];
      }
    }
  }

  lemma SortedTail<T>(s: seq<T>, key: T -> real)
    requires s != [] && SortedDesc(s, key)
    ensures SortedDesc(s[1..], key)
  {
    forall i, j | 0 <= i < j < |s[1..]| ensures key(s[1..][i]) >= key(s[1..][j]) {
      assert s[1..][i] == s[i + 1] && s[1..][j] == s[j + 1];
    }
  }

  /** `sorted(s, key=key, reverse=True)`: insertion sort taking the input front to back. */
  function SortDesc<T>(s: seq<T>, key: T -> real): (r: seq<T>)
    ensures |r| == |s|
    ensures multiset(r) == multiset(s)
    ensures SortedDesc(r, key)
  {
    if s == [] then []
    else
      assert s == [s[0]] + s[1..];
      InsertSorted(s[0], SortDesc(s[1..], key), key);
      Insert(s[0], SortDesc(s[1..], key), key)
  }

  /** `s[:n]` for a non-negative `n`. */
  function Take<T>(s: seq<T>, n: nat): (r: seq<T>)
    ensures |r| == if n < |s| then n else |s|
    ensures r <= s
  {
    if n < |s| then s[..n] else s
  }

  lemma TakeSorted<T>(s: seq<T>, key: T -> real, n: nat)
    requires SortedDesc(s, key)
    ensures SortedDesc(Take(s, n), key)
  {
  }

  lemma TiedAppend<T>(a: seq<T>, b: seq<T>, key: T -> real, v: real)
    ensures Tied(a + b, key, v) == Tied(a, key, v) + Tied(b, key, v)
  {
    if a != [] {
      var hd := if key(a[0]) == v then [a[0]] else [];
      assert (a + b)[0] == a[0];
      assert (a + b)[1..] == a[1..] + b;
      TiedAppend(a[1..], b, key, v);
      calc {
        Tied(a + b, key, v);
        hd + Tied(a[1..] + b, key, v);
        hd + (Tied(a[1..], key, v) + Tied(b, key, v));
        (hd + Tied(a[1..], key, v)) + Tied(b, key, v);
        Tied(a, key, v) + Tied(b, key, v);
      }
    } else {
      assert a + b == b;
    }
  }

  /** Inserting `x` adds it in front of the entries that share its key, and leaves
      every other key class untouched. */
  lemma {:induction false} InsertTied<T>(x: T, s: seq<T>, key: T -> real, v: real)
    ensures Tied(Insert(x, s, key), key, v) == (if key(x) == v then [x] else []) + Tied(s, key, v)
  {
    if s == [] || key(s[0]) <= key(x) {
      assert ([x] + s)[1..] == s;
    } else {
      InsertTied(x, s[1..], key, v);
      var rest := Insert(x, s[1..], key);
      assert ([s[0]] + rest)[1..] == rest;
      assert s == [s[0]] + s[1..];
      TiedAppend([s[0]], s[1..], key, v);
    }
  }

  /** Stability: within every key class the sorted order is the input order. */
  lemma {:induction false} SortDescStable<T>(s: seq<T>, key: T -> real, v: real)
    ensures Tied(SortDesc(s, key), key, v) == Tied(s, key, v)
  {
    if s != [] {
      SortDescStable(s[1..], key, v);
      InsertTied(s[0], SortDesc(s[1..], key), key, v);
    }
  }

  /** A stable descending sort is unique: any sorted permutation that keeps each key
      class in input order is `SortDesc`'s result. */
  lemma {:induction false} SortDescUnique<T>(s: seq<T>, r: seq<T>, key: T -> real)
    requires SortedDesc(r, key)
    requires multiset(r) == multiset(s)
    requires forall v :: Tied(r, key, v) == Tied(s, key, v)
    ensures r == SortDesc(s, key)
  {
    var q := SortDesc(s, key);
    forall v ensures Tied(r, key, v) == Tied(q, key, v) {
      SortDescStable(s, key, v);
    }
    SortedSameTiedEqual(r, q, key);
  }

  lemma {:induction false} SortedSameTiedEqual<T>(r: seq<T>, q: seq<T>, key: T -> real)
    requires SortedDesc(r, key) && SortedDesc(q, key)
    requires multiset(r) == multiset(q)
    requires forall v :: Tied(r, key, v) == Tied(q, key, v)
    ensures r == q
  {
    if r != [] {
      SameHead(r, q, key);
      TiedTails(r, q, key);
      assert multiset(r[1..]) == multiset(q[1..]) by {
        assert r == [r[0]] + r[1..] && q == [q[0]] + q[1..];
        assert multiset(r[1..]) == multiset(r) - multiset([r[0]]);
        assert multiset(q[1..]) == multiset(q) - multiset([q[0]]);
      }
      SortedTail(r, key);
      SortedTail(q, key);
      SortedSameTiedEqual(r[1..], q[1..], key);
      assert r == [r[0]] + r[1..] && q == [q[0]] + q[1..];
    } else {
      assert |q| == |multiset(q)| == 0;
    }
  }

  /** Two sorted lists with the same entries and the same key classes start alike. */
  lemma SameHead<T>(r: seq<T>, q: seq<T>, key: T -> real)
    requires r != [] && SortedDesc(r, key) && SortedDesc(q, key)
    requires multiset(r) == multiset(q)
    requires forall v :: Tied(r, key, v) == Tied(q, key, v)
    ensures q != [] && r[0] == q[0]
  {
    assert r[0] in multiset(q);
    assert q[0] in multiset(r);
    var i :| 0 <= i < |r| && r[i] == q[0];
    var j :| 0 <= j < |q| && q[j] == r[0];
    assert key(r[0]) >= key(r[i]);
    assert key(q[0]) >= key(q[j]);
    var v := key(r[0]);
    assert Tied(r, key, v)[0] == r[0];
    assert Tied(q, key, v) == Tied(r, key, v);
    assert Tied(q, key, v)[0] == q[0];
  }

  /** Dropping a common head keeps the key classes equal. */
  lemma TiedTails<T>(r: seq<T>, q: seq<T>, key: T -> real)
    requires r != [] && q != [] && r[0] == q[0]
    requires forall v :: Tied(r, key, v) == Tied(q, key, v)
    ensures forall w :: Tied(r[1..], key, w) == Tied(q[1..], key, w)
  {
    forall w ensures Tied(r[1..], key, w) == Tied(q[1..], key, w) {
      var hd := if key(r[0]) == w then [r[0]] else [];
      assert Tied(r, key, w) == hd + Tied(r[1..], key, w);
      assert Tied(q, key, w) == hd + Tied(q[1..], key, w);
      assert (hd + Tied(r[1..], key, w))[|hd|..] == Tied(r[1..], key, w);
      assert (hd + Tied(q[1..], key, w))[|hd|..] == Tied(q[1..], key, w);
    }
  }

  /** Top-n selection: an entry of `s` either makes the cut, or the cut is full and
      every entry in it scores at least as high. */
  lemma TakeSortDescTop<T>(s: seq<T>, key: T -> real, n: nat, x: T)
    requires x in s
    ensures var top := Take(SortDesc(s, key), n);
      x in top || (|top| == n && forall y :: y in top ==> key(y) >= key(x))
  {
    var q := SortDesc(s, key);
    assert x in multiset(s);
    assert x in multiset(q);
    var k :| 0 <= k < |q| && q[k] == x;
    if k < n {
      assert Take(q, n)[k] == x;
    } else {
      forall y | y in Take(q, n) ensures key(y) >= key(x) {
        var i :| 0 <= i < |Take(q, n)| && Take(q, n)[i] == y;
        assert q[i] == y;
      }
    }
  }
}
