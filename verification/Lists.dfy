/** Sequences as the lists and sets the engine keeps: how often an element occurs, where it
    is, and the two ways the source takes one out. */
module Lists {

  /** How many times x occurs in q. */
  function Cnt<T(==)>(q: seq<T>, x: T): nat {
    if q == [] then 0 else (if q[0] == x then 1 else 0) + Cnt(q[1..], x)
  }

  lemma {:induction false} CntConcat<T>(p: seq<T>, q: seq<T>, x: T)
    ensures Cnt(p + q, x) == Cnt(p, x) + Cnt(q, x)
  {
    if p == [] {
      assert p + q == q;
    } else {
      assert (p + q)[1..] == p[1..] + q;
      CntConcat(p[1..], q, x);
    }
  }

  lemma CntSnoc<T>(q: seq<T>, y: T, x: T)
    ensures Cnt(q + [y], x) == Cnt(q, x) + if x == y then 1 else 0
  {
    CntConcat(q, [y], x);
    assert [y][1..] == [];
  }

  lemma CntCons<T>(y: T, q: seq<T>, x: T)
    ensures Cnt([y] + q, x) == Cnt(q, x) + if x == y then 1 else 0
  {
    assert ([y] + q)[1..] == q;
  }

  lemma CntFront<T>(q: seq<T>, x: T)
    requires q != []
    ensures Cnt(q, x) == Cnt(q[1..], x) + if x == q[0] then 1 else 0
  {
  }

  lemma {:induction false} CntIn<T>(q: seq<T>, x: T)
    ensures x in q <==> Cnt(q, x) > 0
  {
    if q != [] {
      assert q == [q[0]] + q[1..];
      CntIn(q[1..], x);
    }
  }

  function IndexOf<T(==)>(s: seq<T>, x: T): (i: nat)
    ensures i <= |s|
    ensures i < |s| ==> s[i] == x
    ensures i == |s| <==> x !in s
    ensures forall j | 0 <= j < i :: s[j] != x
  {
    if s == [] then 0 else if s[0] == x then 0 else 1 + IndexOf(s[1..], x)
  }

  /** Occurring once pins the position. */
  lemma {:induction false} CntOnce<T>(q: seq<T>, x: T, i: nat, j: nat)
    requires i < j < |q| && q[i] == x && q[j] == x
    ensures Cnt(q, x) >= 2
  {
    assert q == q[..j] + q[j..];
    CntConcat(q[..j], q[j..], x);
    CntIn(q[..j], x);
    CntIn(q[j..], x);
    assert q[..j][i] == x && q[j..][0] == x;
  }

  /** The last element takes the place of the one that leaves. */
  function SwapRemove<T>(s: seq<T>, i: nat): (r: seq<T>)
    requires i < |s|
    ensures |r| == |s| - 1
    ensures forall j {:trigger r[j]} | 0 <= j < |r| :: r[j] == if j == i then s[|s| - 1] else s[j]
  {
    var n := |s| - 1;
    if i == n then s[..n] else s[..i] + ([s[n]] + s[i + 1..n])
  }

  lemma CntMiddle<T>(p: seq<T>, y: T, q: seq<T>, x: T)
    ensures Cnt(p + ([y] + q), x) == Cnt(p, x) + Cnt(q, x) + if x == y then 1 else 0
  {
    CntConcat(p, [y] + q, x);
    CntCons(y, q, x);
  }

  lemma CntSwap<T>(p: seq<T>, y: T, z: seq<T>, last: T, x: T)
    ensures Cnt((p + ([y] + z)) + [last], x) == Cnt(p + ([last] + z), x) + if x == y then 1 else 0
  {
    CntSnoc(p + ([y] + z), last, x);
    CntMiddle(p, y, z, x);
    CntMiddle(p, last, z, x);
  }

  lemma SwapRemoveParts<T>(s: seq<T>, i: nat)
    requires i < |s| - 1
    ensures s == (s[..i] + ([s[i]] + s[i + 1..|s| - 1])) + [s[|s| - 1]]
    ensures SwapRemove(s, i) == s[..i] + ([s[|s| - 1]] + s[i + 1..|s| - 1])
  {
  }

  lemma CntLast<T>(s: seq<T>, x: T)
    requires s != []
    ensures Cnt(s, x) == Cnt(s[..|s| - 1], x) + if x == s[|s| - 1] then 1 else 0
  {
    var p, y := s[..|s| - 1], s[|s| - 1];
    assert s == p + [y];
    CntSnoc(p, y, x);
  }

  /** s is p, y, z and last; r is p, last and z. */
  lemma CntSwapped<T>(s: seq<T>, r: seq<T>, p: seq<T>, y: T, z: seq<T>, last: T, x: T)
    requires s == (p + ([y] + z)) + [last] && r == p + ([last] + z)
    ensures Cnt(s, x) == Cnt(r, x) + if x == y then 1 else 0
  {
    CntSwap(p, y, z, last, x);
  }

  lemma CntSwapRemove<T>(s: seq<T>, i: nat, x: T)
    requires i < |s|
    ensures Cnt(s, x) == Cnt(SwapRemove(s, i), x) + if x == s[i] then 1 else 0
  {
    var n := |s| - 1;
    if i == n {
      CntLast(s, x);
    } else {
      SwapRemoveParts(s, i);
      CntSwapped(s, SwapRemove(s, i), s[..i], s[i], s[i + 1..n], s[n], x);
    }
  }

  /** The list without the first x, everything else in its order. */
  function Without<T(==)>(s: seq<T>, x: T): (r: seq<T>)
  {
    var i := IndexOf(s, x);
    if i < |s| then s[..i] + s[i + 1..] else s
  }

  lemma CntWithout<T>(s: seq<T>, y: T, x: T)
    requires y in s
    ensures Cnt(s, x) == Cnt(Without(s, y), x) + if x == y then 1 else 0
  {
    var i := IndexOf(s, y);
    var p, q := s[..i], s[i + 1..];
    assert s == p + ([y] + q);
    CntMiddle(p, y, q, x);
    CntConcat(p, q, x);
  }

  /** A list without repetition, all of it below n, is no longer than n. */
  lemma {:induction false} Pigeonhole(q: seq<int>, n: nat)
    requires forall x :: Cnt(q, x) <= if 0 <= x < n then 1 else 0
    ensures |q| <= n
    decreases n
  {
    if n == 0 {
      if q != [] { CntIn(q, q[0]); }
    } else {
      var r := Without(q, n - 1);
      forall x
        ensures Cnt(r, x) <= if 0 <= x < n - 1 then 1 else 0
      {
        CntIn(q, n - 1);
        if n - 1 in q { CntWithout(q, n - 1, x); }
        assert Cnt(q, x) <= if 0 <= x < n then 1 else 0;
        assert Cnt(q, n - 1) <= 1;
      }
      Pigeonhole(r, n - 1);
    }
  }

  lemma {:induction false} CntDistinct<T>(q: seq<T>, x: T)
    requires forall i, j | 0 <= i < j < |q| :: q[i] != q[j]
    ensures Cnt(q, x) <= 1
  {
    if q != [] {
      CntDistinct(q[1..], x);
      CntIn(q[1..], x);
    }
  }

  /** A list that has nothing more often than another one is no longer. */
  lemma {:induction false} CntBounds<T(!new)>(q: seq<T>, p: seq<T>)
    requires forall x: T :: Cnt(q, x) <= Cnt(p, x)
    ensures |q| <= |p|
  {
    if q != [] {
      var y, r := q[0], q[1..];
      CntIn(p, y);
      forall x ensures Cnt(r, x) <= Cnt(Without(p, y), x) {
        CntWithout(p, y, x);
        CntFront(q, x);
        assert Cnt(q, x) <= Cnt(p, x);
      }
      CntBounds(r, Without(p, y));
    }
  }
}
