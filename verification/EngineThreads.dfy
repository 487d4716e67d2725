/** How the engine's lists lie in the one link array: every slot is on at most one of them, so
    one `next` link per slot threads them all. */
module EngineThreads {
  import opened Lists
  import opened EngineCore
  import opened IntrusiveList

  /** How often slot x is on a list or in waiting[]. */
  function Listed(c: Core, x: Addr): nat {
    Idle(c, x) + Cnt(c.queue, x) + Cnt(c.wq, x) + Cnt(c.waiting, x)
  }

  ghost predicate Apart(c: Core) {
    forall x :: Listed(c, x) <= if 0 <= x < |c.ops| then 1 else 0
  }

  /** A slot in somebody's hand. */
  ghost predicate Loose(c: Core, a: Addr) {
    0 <= a < |c.ops| && Listed(c, a) == 0
  }

  predicate Nowhere(c: Core, a: Addr) {
    a !in c.free && a !in c.backlog && a !in c.queue && a !in c.wq && a !in c.waiting
  }

  lemma LooseNowhere(c: Core, a: Addr)
    requires Listed(c, a) == 0
    ensures Nowhere(c, a)
  {
    CntIn(c.free, a);
    CntIn(c.backlog, a);
    CntIn(c.queue, a);
    CntIn(c.wq, a);
    CntIn(c.waiting, a);
  }

  lemma CntDistinctList(s: seq<Addr>, n: nat)
    requires forall x :: Cnt(s, x) <= if 0 <= x < n then 1 else 0
    ensures Within(n, s) && Distinct(s)
  {
    forall i | 0 <= i < |s| ensures 0 <= s[i] < n { CntIn(s, s[i]); }
    forall i, j | 0 <= i < j < |s| ensures s[i] != s[j] {
      if s[i] == s[j] { CntOnce(s, s[i], i, j); }
    }
  }

  lemma WaitingDistinct(c: Core)
    requires Apart(c)
    ensures Within(|c.ops|, c.waiting) && Distinct(c.waiting)
  {
    forall x ensures Cnt(c.waiting, x) <= if 0 <= x < |c.ops| then 1 else 0 {
      assert Listed(c, x) <= if 0 <= x < |c.ops| then 1 else 0;
    }
    CntDistinctList(c.waiting, |c.ops|);
  }

  /** The heads and tails the ring keeps. */
  datatype Heads = Heads(free: Addr, queue: Addr, queueTail: Addr, wq: Addr, wqTail: Addr,
                         backlog: Addr, backlogTail: Addr)

  ghost predicate Threaded(next: seq<Addr>, h: Heads, c: Core) {
    && Linked(next, h.free, c.free)
    && Linked(next, h.queue, c.queue) && h.queueTail == LastOf(c.queue)
    && Linked(next, h.wq, c.wq) && h.wqTail == LastOf(c.wq)
    && Linked(next, h.backlog, c.backlog) && h.backlogTail == LastOf(c.backlog)
  }

  /** The link of a slot in somebody's hand is written. */
  lemma ThreadedLoose(next: seq<Addr>, h: Heads, c: Core, a: Addr, v: Addr)
    requires Threaded(next, h, c) && Loose(c, a) && |next| == |c.ops|
    ensures Threaded(next[a := v], h, c)
  {
    LooseNowhere(c, a);
    Elsewhere(next, h.free, c.free, a, v);
    Elsewhere(next, h.queue, c.queue, a, v);
    Elsewhere(next, h.wq, c.wq, a, v);
    Elsewhere(next, h.backlog, c.backlog, a, v);
  }

  ghost predicate SameLists(c: Core, d: Core) {
    && d.free == c.free && d.queue == c.queue && d.waiting == c.waiting && d.wq == c.wq
    && d.backlog == c.backlog && |d.ops| == |c.ops|
  }

  lemma ApartSame(c: Core, d: Core)
    requires Apart(c) && SameLists(c, d)
    ensures Apart(d) && forall a :: Loose(c, a) ==> Loose(d, a)
  {
    forall x ensures Listed(d, x) == Listed(c, x) { }
  }

  // ---- what the steps do to the lists ------------------------------------

  /** One slot joins a list, or leaves one. */
  lemma OneMoved(c: Core, d: Core, a: Addr, k: int)
    requires Apart(c) && |d.ops| == |c.ops| && (k == 1 ==> Loose(c, a)) && (k == 1 || k == -1)
    requires forall x :: Listed(d, x) == Listed(c, x) + if x == a then k else 0
    ensures Apart(d) && (k == -1 ==> Loose(d, a))
  {
    forall x ensures Listed(d, x) <= if 0 <= x < |d.ops| then 1 else 0 {
      assert Listed(c, x) <= if 0 <= x < |c.ops| then 1 else 0;
    }
    assert Listed(c, a) <= if 0 <= a < |c.ops| then 1 else 0;
    assert Listed(d, a) == Listed(c, a) + k;
  }

  lemma ReleaseListed(c: Core, a: Addr)
    requires Apart(c) && Loose(c, a)
    ensures Apart(Release(c, a))
  {
    var d := Release(c, a);
    forall x ensures Listed(d, x) == Listed(c, x) + if x == a then 1 else 0 { CntCons(a, c.free, x); }
    OneMoved(c, d, a, 1);
  }

  lemma ReleaseThreaded(next: seq<Addr>, h: Heads, c: Core, a: Addr)
    requires Threaded(next, h, c) && Loose(c, a) && |next| == |c.ops|
    ensures Threaded(next[a := h.free], h.(free := a), Release(c, a))
  {
    LooseNowhere(c, a);
    ThreadedLoose(next, h, c, a, h.free);
    Pushed(next, h.free, c.free, a);
  }

  lemma AllocListed(c: Core)
    requires Apart(c) && c.free != []
    ensures Apart(Alloc(c)) && Loose(Alloc(c), c.free[0])
  {
    OneMoved(c, Alloc(c), c.free[0], -1);
  }

  lemma AllocThreaded(next: seq<Addr>, h: Heads, c: Core, v: Addr)
    requires Threaded(next, h, c) && Apart(c) && c.free != [] && |next| == |c.ops|
    ensures var a := c.free[0];
      && a == h.free && 0 <= a < |next|
      && Threaded(next[a := v], h.(free := next[a]), Alloc(c))
  {
    Popped(next, h.free, c.free);
    AllocListed(c);
    ThreadedLoose(next, h.(free := next[c.free[0]]), Alloc(c), c.free[0], v);
  }

  lemma BacklogListed(c: Core, a: Addr, res: int)
    requires Apart(c) && Loose(c, a)
    ensures Apart(Backlog(c, a, res))
  {
    var d := Backlog(c, a, res);
    forall x ensures Listed(d, x) == Listed(c, x) + if x == a then 1 else 0 {
      CntSnoc(c.backlog, a, x);
    }
    OneMoved(c, d, a, 1);
  }

  /** A list takes a slot at its tail: the old tail's link, or else the head, leads to it. */
  lemma Tailed(next: seq<Addr>, head: Addr, s: seq<Addr>, a: Addr)
    requires Linked(next, head, s) && a !in s && 0 <= a < |next| && next[a] == NIL
    ensures s == [] ==> Linked(next, a, s + [a])
    ensures s != [] ==> 0 <= LastOf(s) < |next| && Linked(next[LastOf(s) := a], head, s + [a])
    ensures LastOf(s + [a]) == a
  {
    Single(next, a);
    if s == [] { assert s + [a] == [a]; } else { Appended(next, head, s, [a]); }
  }

  /** The links after slot a joined the list whose last slot is `tail`. */
  function Linking(next: seq<Addr>, tail: Addr, a: Addr): seq<Addr> {
    if 0 <= tail < |next| then next[tail := a] else next
  }

  /** Writing the link of a slot on one list leaves the other lists alone. */
  lemma OffOthers(c: Core, x: Addr)
    requires Apart(c)
    ensures x in c.free ==> x !in c.backlog && x !in c.queue && x !in c.wq
    ensures x in c.backlog ==> x !in c.free && x !in c.queue && x !in c.wq
    ensures x in c.queue ==> x !in c.free && x !in c.backlog && x !in c.wq
    ensures x in c.wq ==> x !in c.free && x !in c.backlog && x !in c.queue
    ensures x in c.waiting ==> x !in c.free && x !in c.backlog && x !in c.queue && x !in c.wq
  {
    CntIn(c.free, x);
    CntIn(c.backlog, x);
    CntIn(c.queue, x);
    CntIn(c.wq, x);
    CntIn(c.waiting, x);
    assert Listed(c, x) <= if 0 <= x < |c.ops| then 1 else 0;
  }

  lemma BacklogThreaded(next: seq<Addr>, h: Heads, c: Core, a: Addr, res: int)
    requires Threaded(next, h, c) && Apart(c) && Loose(c, a) && |next| == |c.ops| && next[a] == NIL
    ensures Threaded(Linking(next, h.backlogTail, a),
                     h.(backlog := if h.backlogTail == NIL then a else h.backlog, backlogTail := a),
                     Backlog(c, a, res))
  {
    LooseNowhere(c, a);
    Empty(next, h.backlog, c.backlog);
    Tailed(next, h.backlog, c.backlog, a);
    if c.backlog != [] {
      var t := LastOf(c.backlog);
      assert t in c.backlog;
      OffOthers(c, t);
      Elsewhere(next, h.free, c.free, t, a);
      Elsewhere(next, h.queue, c.queue, t, a);
      Elsewhere(next, h.wq, c.wq, t, a);
    }
  }

  lemma HandToWorkerListed(c: Core, a: Addr)
    requires Apart(c) && Loose(c, a)
    ensures Apart(HandToWorker(c, a))
  {
    var d := HandToWorker(c, a);
    forall x ensures Listed(d, x) == Listed(c, x) + if x == a then 1 else 0 { CntSnoc(c.wq, a, x); }
    OneMoved(c, d, a, 1);
  }

  lemma HandToWorkerThreaded(next: seq<Addr>, h: Heads, c: Core, a: Addr)
    requires Threaded(next, h, c) && Apart(c) && Loose(c, a) && |next| == |c.ops| && next[a] == NIL
    ensures Threaded(Linking(next, h.wqTail, a),
                     h.(wq := if h.wqTail == NIL then a else h.wq, wqTail := a), HandToWorker(c, a))
  {
    LooseNowhere(c, a);
    Empty(next, h.wq, c.wq);
    Tailed(next, h.wq, c.wq, a);
    if c.wq != [] {
      var t := LastOf(c.wq);
      assert t in c.wq;
      OffOthers(c, t);
      Elsewhere(next, h.free, c.free, t, a);
      Elsewhere(next, h.queue, c.queue, t, a);
      Elsewhere(next, h.backlog, c.backlog, t, a);
    }
  }

  // ---- taking from the front ---------------------------------------------

  function TailAfter(head: Addr, tail: Addr): Addr {
    if head == NIL then NIL else tail
  }

  lemma PopListed(c: Core)
    requires Apart(c) && c.queue != []
    ensures Apart(Pop(c)) && Loose(Pop(c), c.queue[0])
  {
    OneMoved(c, Pop(c), c.queue[0], -1);
  }

  lemma PopThreaded(next: seq<Addr>, h: Heads, c: Core)
    requires Threaded(next, h, c) && c.queue != []
    ensures 0 <= h.queue < |next| && h.queue == c.queue[0]
    ensures var n := next[h.queue];
      Threaded(next, h.(queue := n, queueTail := TailAfter(n, h.queueTail)), Pop(c))
  {
    Popped(next, h.queue, c.queue);
  }

  lemma TakeListed(c: Core)
    requires Apart(c) && c.wq != []
    ensures Apart(WorkerTake(c)) && Loose(WorkerTake(c), c.wq[0])
  {
    OneMoved(c, WorkerTake(c), c.wq[0], -1);
  }

  lemma TakeThreaded(next: seq<Addr>, h: Heads, c: Core)
    requires Threaded(next, h, c) && c.wq != []
    ensures 0 <= h.wq < |next| && h.wq == c.wq[0]
    ensures var n := next[h.wq];
      Threaded(next, h.(wq := n, wqTail := TailAfter(n, h.wqTail)), WorkerTake(c))
  {
    Popped(next, h.wq, c.wq);
  }

  /** The backlog gives up its front; the slot is then in nobody's list. */
  function Unbacklog(c: Core): Core
    requires c.backlog != []
  {
    c.(backlog := c.backlog[1..])
  }

  lemma UnbacklogListed(c: Core)
    requires Apart(c) && c.backlog != []
    ensures Apart(Unbacklog(c)) && Loose(Unbacklog(c), c.backlog[0])
  {
    OneMoved(c, Unbacklog(c), c.backlog[0], -1);
  }

  lemma UnbacklogThreaded(next: seq<Addr>, h: Heads, c: Core)
    requires Threaded(next, h, c) && c.backlog != []
    ensures 0 <= h.backlog < |next| && h.backlog == c.backlog[0]
    ensures var n := next[h.backlog];
      Threaded(next, h.(backlog := n, backlogTail := TailAfter(n, h.backlogTail)), Unbacklog(c))
  {
    Popped(next, h.backlog, c.backlog);
  }

  // ---- waiting[] ---------------------------------------------------------

  /** Each parked op knows its place. */
  ghost predicate Slotted(slots: seq<int>, w: seq<Addr>) {
    forall i | 0 <= i < |w| :: 0 <= w[i] < |slots| && slots[w[i]] == i
  }

  lemma ParkListed(c: Core, a: Addr)
    requires Apart(c) && Loose(c, a)
    ensures Apart(Park(c, a))
  {
    var d := Park(c, a);
    forall x ensures Listed(d, x) == Listed(c, x) + if x == a then 1 else 0 { CntSnoc(c.waiting, a, x); }
    OneMoved(c, d, a, 1);
  }

  lemma UnparkListed(c: Core, a: Addr)
    requires Apart(c) && a in c.waiting
    ensures Apart(Unpark(c, a)) && Loose(Unpark(c, a), a)
  {
    var d := Unpark(c, a);
    var i := IndexOf(c.waiting, a);
    forall x ensures Listed(c, x) == Listed(d, x) + if x == a then 1 else 0 { CntSwapRemove(c.waiting, i, x); }
    OneMoved(c, d, a, -1);
  }

  /** The pool bounds the parked ops: a slot in hand always has room in waiting[]. */
  lemma ParkFits(c: Core, a: Addr)
    requires Apart(c) && Loose(c, a)
    ensures |c.waiting| < |c.ops|
  {
    var d := Park(c, a);
    ParkListed(c, a);
    forall x ensures Cnt(d.waiting, x) <= if 0 <= x < |c.ops| then 1 else 0 {
      assert Listed(d, x) <= if 0 <= x < |d.ops| then 1 else 0;
    }
    Pigeonhole(d.waiting, |c.ops|);
  }

  // ---- completions -------------------------------------------------------

  predicate Drained(c: Core) {
    c.backlog == [] || !Room(c)
  }

  lemma DrainEnd(c: Core)
    requires Drained(c) && c.moves == []
    ensures Drain(c) == c
  {
  }

  /** What a completion does to the lists, it does to the free list and the backlog alone. */
  lemma DrainLoose(c: Core, a: Addr)
    requires Loose(c, a)
    ensures Loose(Drain(c), a)
  {
    DrainFacts(c);
    DrainIdle(c, a);
  }

  // ---- a batch of submissions --------------------------------------------

  /** Ops in hand, threaded among themselves. */
  ghost predicate Batched(next: seq<Addr>, c: Core, head: Addr, tail: Addr, batch: seq<Addr>) {
    && Linked(next, head, batch) && tail == LastOf(batch)
    && forall j | 0 <= j < |batch| :: Loose(c, batch[j])
  }

  lemma BatchGrows(next: seq<Addr>, c: Core, head: Addr, tail: Addr, batch: seq<Addr>, d: Core)
    requires Batched(next, c, head, tail, batch) && |next| == |c.ops|
    requires Apart(c) && c.free != [] && d.free == c.free[1..] && SameLists(c.(free := d.free), d)
    ensures var a := c.free[0];
      && 0 <= a < |next|
      && Batched(Linking(next[a := NIL], tail, a), d, if head == NIL then a else head, a, batch + [a])
  {
    AllocListed(c);
    var a, m := c.free[0], next[c.free[0] := NIL];
    ApartSame(Alloc(c), d);
    Empty(next, head, batch);
    assert Listed(c, a) > 0;
    Elsewhere(next, head, batch, a, NIL);
    Tailed(m, head, batch, a);
    forall j | 0 <= j < |batch + [a]| ensures Loose(d, (batch + [a])[j]) {
      if j < |batch| { assert Loose(c, batch[j]); assert Listed(d, batch[j]) <= Listed(c, batch[j]); }
    }
  }

  lemma EnqueueListed(c: Core, d: Core, batch: seq<Addr>)
    requires Apart(c) && Distinct(batch) && forall j | 0 <= j < |batch| :: Loose(c, batch[j])
    requires d == c.(queue := c.queue + batch)
    ensures Apart(d)
  {
    forall x ensures Listed(d, x) <= if 0 <= x < |d.ops| then 1 else 0 {
      CntConcat(c.queue, batch, x);
      CntDistinct(batch, x);
      CntIn(batch, x);
      assert Listed(c, x) <= if 0 <= x < |c.ops| then 1 else 0;
    }
  }

  lemma EnqueueThreaded(next: seq<Addr>, h: Heads, c: Core, d: Core, head: Addr, tail: Addr, batch: seq<Addr>)
    requires Threaded(next, h, c) && Apart(c) && |next| == |c.ops|
    requires Batched(next, c, head, tail, batch) && batch != []
    requires d == c.(queue := c.queue + batch)
    ensures Threaded(Linking(next, h.queueTail, head),
                     h.(queue := if h.queueTail == NIL then head else h.queue, queueTail := tail), d)
  {
    Empty(next, h.queue, c.queue);
    forall x | x in c.queue ensures x !in batch { CntIn(c.queue, x); }
    if c.queue == [] {
      assert c.queue + batch == batch;
    } else {
      var t := LastOf(c.queue);
      assert t in c.queue;
      OffOthers(c, t);
      Appended(next, h.queue, c.queue, batch);
      Elsewhere(next, h.free, c.free, t, head);
      Elsewhere(next, h.wq, c.wq, t, head);
      Elsewhere(next, h.backlog, c.backlog, t, head);
    }
  }
}