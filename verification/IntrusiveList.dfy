/** Lists threaded through one `next` link per slot, the way every list of the engine is:
    what a head, the links and the sequence of slots on the list have to do with each other. */
module IntrusiveList {
  import opened EngineCore

  function First(s: seq<Addr>): Addr {
    if s == [] then NIL else s[0]
  }

  function LastOf(s: seq<Addr>): Addr {
    if s == [] then NIL else s[|s| - 1]
  }

  function Succ(s: seq<Addr>, i: nat): Addr {
    if i + 1 < |s| then s[i + 1] else NIL
  }

  ghost predicate Within(n: nat, s: seq<Addr>) {
    forall i | 0 <= i < |s| :: 0 <= s[i] < n
  }

  ghost predicate Distinct(s: seq<Addr>) {
    forall i, j | 0 <= i < j < |s| :: s[i] != s[j]
  }

  ghost predicate Follows(next: seq<Addr>, s: seq<Addr>, i: nat)
    requires Within(|next|, s) && i < |s|
  {
    next[s[i]] == Succ(s, i)
  }

  /** From head the links lead through exactly the slots of s and end there. */
  ghost predicate Linked(next: seq<Addr>, head: Addr, s: seq<Addr>) {
    && Within(|next|, s) && Distinct(s)
    && head == First(s)
    && forall i: nat | i < |s| :: Follows(next, s, i)
  }

  lemma Empty(next: seq<Addr>, head: Addr, s: seq<Addr>)
    requires Linked(next, head, s)
    ensures head == NIL <==> s == []
    ensures LastOf(s) == NIL <==> s == []
  {
  }

  /** Links of slots off the list may change. */
  lemma Elsewhere(next: seq<Addr>, head: Addr, s: seq<Addr>, a: Addr, v: Addr)
    requires Linked(next, head, s) && a !in s && 0 <= a < |next|
    ensures Linked(next[a := v], head, s)
  {
    var m := next[a := v];
    forall i: nat | i < |s| ensures Follows(m, s, i) { assert Follows(next, s, i); }
  }

  lemma Popped(next: seq<Addr>, head: Addr, s: seq<Addr>)
    requires Linked(next, head, s) && s != []
    ensures 0 <= head < |next| && head == s[0] && Linked(next, next[head], s[1..])
    ensures s[0] !in s[1..]
    ensures next[head] == NIL <==> s[1..] == []
    ensures s[1..] != [] ==> LastOf(s[1..]) == LastOf(s)
  {
    assert Follows(next, s, 0);
    var t := s[1..];
    forall i: nat | i < |t| ensures Follows(next, t, i) { assert Follows(next, s, i + 1); }
  }

  lemma Pushed(next: seq<Addr>, head: Addr, s: seq<Addr>, a: Addr)
    requires Linked(next, head, s) && a !in s && 0 <= a < |next|
    ensures Linked(next[a := head], a, [a] + s)
  {
    Elsewhere(next, head, s, a, head);
    var m, t := next[a := head], [a] + s;
    forall i: nat | i < |t| ensures Follows(m, t, i) {
      if i > 0 { assert Follows(m, s, i - 1); }
    }
  }

  /** Appending one list to another: the last link of the first now leads to the second. */
  lemma Appended(next: seq<Addr>, head: Addr, s: seq<Addr>, t: seq<Addr>)
    requires Linked(next, head, s) && Linked(next, First(t), t) && s != [] && t != []
    requires forall x | x in s :: x !in t
    ensures 0 <= LastOf(s) < |next| && Linked(next[LastOf(s) := First(t)], head, s + t)
  {
    var m, u := next[LastOf(s) := First(t)], s + t;
    assert LastOf(s) in s;
    forall i, j | 0 <= i < j < |u| ensures u[i] != u[j] {
      if i < |s| <= j { assert s[i] in s && t[j - |s|] in t; }
    }
    forall i: nat | i < |u| ensures Follows(m, u, i) {
      if i < |s| {
        assert Follows(next, s, i);
      } else {
        assert t[i - |s|] in t;
        assert Follows(next, t, i - |s|);
      }
    }
  }

  /** A single slot whose link is null is a list. */
  lemma Single(next: seq<Addr>, a: Addr)
    requires 0 <= a < |next| && next[a] == NIL
    ensures Linked(next, a, [a])
  {
  }

  function Cut(s: seq<Addr>, i: nat): seq<Addr>
    requires i < |s|
  {
    s[..i] + s[i + 1..]
  }

  /** Unlinking the front. */
  lemma CutFront(next: seq<Addr>, head: Addr, s: seq<Addr>)
    requires Linked(next, head, s) && s != []
    ensures 0 <= s[0] < |next| && Linked(next, next[s[0]], Cut(s, 0))
  {
    Popped(next, head, s);
    assert Cut(s, 0) == s[1..];
  }

  /** Unlinking the slot behind another one. */
  lemma CutInside(next: seq<Addr>, head: Addr, s: seq<Addr>, i: nat)
    requires Linked(next, head, s) && 0 < i < |s|
    ensures 0 <= s[i - 1] < |next| && 0 <= s[i] < |next|
    ensures Linked(next[s[i - 1] := next[s[i]]], head, Cut(s, i))
  {
    var t, m := Cut(s, i), next[s[i - 1] := next[s[i]]];
    assert Follows(next, s, i) && Follows(next, s, i - 1);
    forall j: nat | j < |t| ensures Follows(m, t, j) {
      assert Follows(next, s, if j < i then j else j + 1);
    }
  }
}
