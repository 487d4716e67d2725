/** Cancelling by name: the three scans of cancel_matching and what they leave behind
    (src/engine_posix.c:924-1006). */
module EngineCancel {
  import opened Lists
  import opened EngineCore
  import opened IntrusiveList
  import opened EngineThreads

  datatype Where = InWaiting | InQueue | AtWorker

  function ListOf(c: Core, w: Where): seq<Addr> {
    match w
    case InWaiting => c.waiting
    case InQueue => c.queue
    case AtWorker => c.wq
  }

  /** waiting[] closes the gap with its last op, the linked lists close it in order. */
  function Removed(w: Where, s: seq<Addr>, i: nat): (r: seq<Addr>)
    requires i < |s|
    ensures |r| == |s| - 1
  {
    if w == InWaiting then SwapRemove(s, i) else Cut(s, i)
  }

  function WithList(c: Core, w: Where, s: seq<Addr>): Core {
    match w
    case InWaiting => c.(waiting := s)
    case InQueue => c.(queue := s)
    case AtWorker => c.(wq := s)
  }

  function TakeOut(c: Core, w: Where, i: nat): Core
    requires i < |ListOf(c, w)|
  {
    WithList(c, w, Removed(w, ListOf(c, w), i))
  }

  function CancelAt(c: Core, w: Where, i: nat): Core
    requires i < |ListOf(c, w)|
  {
    CancelTarget(TakeOut(c, w, i), ListOf(c, w)[i])
  }

  datatype Scan = Scan(core: Core, count: nat)

  /** One list from place i on; without ALL the first match ends the scan. */
  function ScanFrom(c: Core, cancel: Sqe, all: bool, w: Where, i: nat): Scan
    decreases |ListOf(c, w)| - i
  {
    if i >= |ListOf(c, w)| then Scan(c, 0)
    else if !Matches(c, cancel, ListOf(c, w)[i]) then ScanFrom(c, cancel, all, w, i + 1)
    else
      var d := CancelAt(c, w, i);
      if !all then Scan(d, 1)
      else
        CancelAtFrame(c, w, i);
        var r := ScanFrom(d, cancel, all, w, i);
        Scan(r.core, r.count + 1)
  }

  predicate IsAll(cancel: Sqe) {
    cancel.opcode == AsyncCancel && cancel.cancelAll
  }

  datatype Cancelled = Cancelled(core: Core, res: int)

  /** No list has a match; what remains is whatever the worker holds. */
  function NoneFound(c: Core): int {
    if c.blocking != NIL && c.blockedDone == NIL then -EALREADY else -ENOENT
  }

  function CancelMatching(c: Core, cancel: Sqe): Cancelled {
    var all := IsAll(cancel);
    var p := ScanFrom(c, cancel, all, InWaiting, 0);
    if p.count > 0 && !all then Cancelled(p.core, 0)
    else
      var q := ScanFrom(p.core, cancel, all, InQueue, 0);
      if q.count > 0 && !all then Cancelled(q.core, 0)
      else
        var w := ScanFrom(q.core, cancel, all, AtWorker, 0);
        if w.count > 0 && !all then Cancelled(w.core, 0)
        else
          var n := p.count + q.count + w.count;
          Cancelled(w.core, if n > 0 then n else NoneFound(w.core))
  }

  // ---- frames ------------------------------------------------------------

  /** No submission entry is rewritten. */
  ghost predicate SameSqes(c: Core, d: Core) {
    |d.ops| == |c.ops| && forall x :: OpAt(d, x).sqe == OpAt(c, x).sqe
  }

  lemma PostLeaves(c: Core, a: Addr, res: int)
    ensures SameSubmission(c, Post(c, a, res)) && SameSqes(c, Post(c, a, res))
  {
    PostFrame(c, a, res);
  }

  lemma CancelAtFrame(c: Core, w: Where, i: nat)
    requires i < |ListOf(c, w)|
    ensures SameSqes(c, CancelAt(c, w, i))
    ensures ListOf(CancelAt(c, w, i), w) == Removed(w, ListOf(c, w), i)
    ensures forall v | v != w :: ListOf(CancelAt(c, w, i), v) == ListOf(c, v)
  {
    var d := TakeOut(c, w, i);
    var t := ListOf(c, w)[i];
    PostLeaves(CancelStanding(d, t), t, -ECANCELED);
  }

  /** What the scan leaves alone. */
  lemma {:induction false} ScanFrame(c: Core, cancel: Sqe, all: bool, w: Where, i: nat)
    ensures var r := ScanFrom(c, cancel, all, w, i).core;
      SameSqes(c, r) && (forall v | v != w :: ListOf(r, v) == ListOf(c, v)) && |ListOf(r, w)| <= |ListOf(c, w)|
    decreases |ListOf(c, w)| - i
  {
    if i < |ListOf(c, w)| {
      if !Matches(c, cancel, ListOf(c, w)[i]) {
        ScanFrame(c, cancel, all, w, i + 1);
      } else {
        CancelAtFrame(c, w, i);
        if all { ScanFrame(CancelAt(c, w, i), cancel, all, w, i); }
      }
    }
  }

  // ---- with ALL ----------------------------------------------------------

  lemma RemovedCnt(w: Where, s: seq<Addr>, i: nat, x: Addr)
    requires i < |s|
    ensures Cnt(s, x) == Cnt(Removed(w, s, i), x) + if x == s[i] then 1 else 0
  {
    if w == InWaiting {
      CntSwapRemove(s, i, x);
    } else {
      assert s == s[..i] + ([s[i]] + s[i + 1..]);
      CntMiddle(s[..i], s[i], s[i + 1..], x);
      CntConcat(s[..i], s[i + 1..], x);
    }
  }

  ghost predicate NoneBefore(c: Core, cancel: Sqe, s: seq<Addr>, i: nat) {
    i <= |s| && forall j | 0 <= j < i :: !Matches(c, cancel, s[j])
  }

  /** With ALL, exactly the matches are gone, every other op is where it was counted, and the
      count is their number. */
  lemma {:induction false} ScanAll(c: Core, cancel: Sqe, w: Where, i: nat, x: Addr)
    requires NoneBefore(c, cancel, ListOf(c, w), i)
    ensures var r := ScanFrom(c, cancel, true, w, i);
      && Cnt(ListOf(r.core, w), x) == (if Matches(c, cancel, x) then 0 else Cnt(ListOf(c, w), x))
      && r.count == |ListOf(c, w)| - |ListOf(r.core, w)|
    decreases |ListOf(c, w)| - i
  {
    var s := ListOf(c, w);
    if i >= |s| {
      CntIn(s, x);
    } else if !Matches(c, cancel, s[i]) {
      ScanAll(c, cancel, w, i + 1, x);
    } else {
      var d := CancelAt(c, w, i);
      CancelAtFrame(c, w, i);
      RemovedCnt(w, s, i, x);
      assert Matches(d, cancel, x) == Matches(c, cancel, x);
      ScanAll(d, cancel, w, i, x);
    }
  }

  function Survivors(c: Core, cancel: Sqe, s: seq<Addr>): seq<Addr> {
    if s == [] then [] else (if Matches(c, cancel, s[0]) then [] else [s[0]]) + Survivors(c, cancel, s[1..])
  }

  lemma {:induction false} SurvivorsSame(c: Core, d: Core, cancel: Sqe, s: seq<Addr>)
    requires SameSqes(c, d)
    ensures Survivors(d, cancel, s) == Survivors(c, cancel, s)
  {
    if s != [] { SurvivorsSame(c, d, cancel, s[1..]); }
  }

  lemma SurvivorsStep(c: Core, cancel: Sqe, s: seq<Addr>, i: nat)
    requires i < |s|
    ensures Survivors(c, cancel, s[i..])
         == (if Matches(c, cancel, s[i]) then [] else [s[i]]) + Survivors(c, cancel, s[i + 1..])
  {
    assert s[i..][1..] == s[i + 1..];
  }

  lemma KeepOne(s: seq<Addr>, i: nat, t: seq<Addr>)
    requires i < |s|
    ensures s[..i + 1] + t == s[..i] + ([s[i]] + t)
  {
  }

  /** The linked lists keep their survivors in order. */
  lemma {:induction false} ScanOrder(c: Core, cancel: Sqe, w: Where, i: nat)
    requires w != InWaiting && i <= |ListOf(c, w)|
    ensures ListOf(ScanFrom(c, cancel, true, w, i).core, w)
         == ListOf(c, w)[..i] + Survivors(c, cancel, ListOf(c, w)[i..])
    decreases |ListOf(c, w)| - i
  {
    var s := ListOf(c, w);
    if i < |s| {
      SurvivorsStep(c, cancel, s, i);
      if !Matches(c, cancel, s[i]) {
        ScanOrder(c, cancel, w, i + 1);
        KeepOne(s, i, Survivors(c, cancel, s[i + 1..]));
      } else {
        ScanOrderMatch(c, cancel, w, i);
      }
    }
  }

  lemma {:induction false} ScanOrderMatch(c: Core, cancel: Sqe, w: Where, i: nat)
    requires w != InWaiting && i < |ListOf(c, w)| && Matches(c, cancel, ListOf(c, w)[i])
    ensures ListOf(ScanFrom(c, cancel, true, w, i).core, w)
         == ListOf(c, w)[..i] + Survivors(c, cancel, ListOf(c, w)[i + 1..])
    decreases |ListOf(c, w)| - i, 0
  {
    var s, d := ListOf(c, w), CancelAt(c, w, i);
    CancelAtFrame(c, w, i);
    CutParts(s, i);
    ScanOrder(d, cancel, w, i);
    SurvivorsSame(c, d, cancel, s[i + 1..]);
  }

  lemma CutParts(s: seq<Addr>, i: nat)
    requires i < |s|
    ensures Cut(s, i)[..i] == s[..i] && Cut(s, i)[i..] == s[i + 1..]
  {
  }

  /** One scan: its own list loses the matches, in order if it is linked, and the others stay. */
  lemma ScanList(c: Core, cancel: Sqe, w: Where, x: Addr)
    ensures var r := ScanFrom(c, cancel, true, w, 0).core;
      && SameSqes(c, r) && (forall v | v != w :: ListOf(r, v) == ListOf(c, v))
      && Cnt(ListOf(r, w), x) == (if Matches(c, cancel, x) then 0 else Cnt(ListOf(c, w), x))
      && (w != InWaiting ==> ListOf(r, w) == Survivors(c, cancel, ListOf(c, w)))
  {
    ScanAll(c, cancel, w, 0, x);
    ScanFrame(c, cancel, true, w, 0);
    if w != InWaiting {
      ScanOrder(c, cancel, w, 0);
      assert ListOf(c, w)[0..] == ListOf(c, w);
    }
  }

  /** ASYNC_CANCEL with CANCEL_ALL: afterwards nothing parked, queued or at the worker matches,
      everything else is still there, queues in order, and the answer is the number cancelled. */
  lemma CancelAllExact(c: Core, cancel: Sqe, x: Addr)
    requires IsAll(cancel)
    ensures var r := CancelMatching(c, cancel);
      && (forall w :: Cnt(ListOf(r.core, w), x) == if Matches(c, cancel, x) then 0 else Cnt(ListOf(c, w), x))
      && r.core.queue == Survivors(c, cancel, c.queue) && r.core.wq == Survivors(c, cancel, c.wq)
  {
    var p := ScanFrom(c, cancel, true, InWaiting, 0).core;
    var q := ScanFrom(p, cancel, true, InQueue, 0).core;
    var r := ScanFrom(q, cancel, true, AtWorker, 0).core;
    ScanList(c, cancel, InWaiting, x);
    ScanList(p, cancel, InQueue, x);
    ScanList(q, cancel, AtWorker, x);
    assert CancelMatching(c, cancel).core == r;
    SurvivorsSame(c, p, cancel, c.queue);
    SurvivorsSame(c, q, cancel, c.wq);
    assert ListOf(r, InWaiting) == ListOf(p, InWaiting) && ListOf(r, InQueue) == ListOf(q, InQueue);
    assert ListOf(p, InQueue) == ListOf(c, InQueue) && ListOf(q, AtWorker) == ListOf(c, AtWorker);
    forall w: Where ensures Cnt(ListOf(r, w), x) == if Matches(c, cancel, x) then 0 else Cnt(ListOf(c, w), x) {
      match w
      case InWaiting =>
      case InQueue =>
      case AtWorker =>
    }
  }

  function Len3(c: Core): nat {
    |c.waiting| + |c.queue| + |c.wq|
  }

  lemma CancelAllCount(c: Core, cancel: Sqe)
    requires IsAll(cancel)
    ensures var r := CancelMatching(c, cancel);
      r.res == if Len3(r.core) < Len3(c) then Len3(c) - Len3(r.core) else NoneFound(r.core)
  {
    var p := ScanFrom(c, cancel, true, InWaiting, 0);
    var q := ScanFrom(p.core, cancel, true, InQueue, 0);
    ScanAll(c, cancel, InWaiting, 0, NIL);
    ScanFrame(c, cancel, true, InWaiting, 0);
    ScanAll(p.core, cancel, InQueue, 0, NIL);
    ScanFrame(p.core, cancel, true, InQueue, 0);
    ScanAll(q.core, cancel, AtWorker, 0, NIL);
    ScanFrame(q.core, cancel, true, AtWorker, 0);
  }

  // ---- without ALL -------------------------------------------------------

  ghost predicate FirstMatch(c: Core, cancel: Sqe, w: Where, k: nat) {
    && k < |ListOf(c, w)|
    && Matches(c, cancel, ListOf(c, w)[k])
    && NoneBefore(c, cancel, ListOf(c, w), k)
  }

  ghost predicate NoMatch(c: Core, cancel: Sqe, w: Where) {
    NoneBefore(c, cancel, ListOf(c, w), |ListOf(c, w)|)
  }

  lemma {:induction false} ScanOne(c: Core, cancel: Sqe, w: Where, i: nat)
    requires NoneBefore(c, cancel, ListOf(c, w), i)
    ensures var r := ScanFrom(c, cancel, false, w, i);
      if NoMatch(c, cancel, w) then r == Scan(c, 0)
      else exists k :: FirstMatch(c, cancel, w, k) && r == Scan(CancelAt(c, w, k), 1)
    decreases |ListOf(c, w)| - i
  {
    var s := ListOf(c, w);
    if i < |s| {
      if Matches(c, cancel, s[i]) {
        assert FirstMatch(c, cancel, w, i);
      } else {
        ScanOne(c, cancel, w, i + 1);
      }
    }
  }

  /** No earlier list held a match. */
  ghost predicate InTurn(c: Core, cancel: Sqe, w: Where) {
    && (w != InWaiting ==> NoMatch(c, cancel, InWaiting))
    && (w == AtWorker ==> NoMatch(c, cancel, InQueue))
  }

  /** Without ALL, the first match is cancelled: among the parked ops, else the queued ones,
      else the worker's; the answer is then 0. With no match nothing changes, and the answer
      is an error. */
  lemma CancelOneExact(c: Core, cancel: Sqe)
    requires !IsAll(cancel)
    ensures var r := CancelMatching(c, cancel);
      if NoMatch(c, cancel, InWaiting) && NoMatch(c, cancel, InQueue) && NoMatch(c, cancel, AtWorker)
      then r == Cancelled(c, NoneFound(c))
      else r.res == 0 && exists w, k ::
        FirstMatch(c, cancel, w, k) && InTurn(c, cancel, w) && r.core == CancelAt(c, w, k)
  {
    ScanOne(c, cancel, InWaiting, 0);
    ScanOne(c, cancel, InQueue, 0);
    ScanOne(c, cancel, AtWorker, 0);
  }

  // ---- nothing found -----------------------------------------------------

  lemma {:induction false} ScanFinds(c: Core, cancel: Sqe, all: bool, w: Where, i: nat)
    requires NoneBefore(c, cancel, ListOf(c, w), i)
    ensures ScanFrom(c, cancel, all, w, i).count > 0 <==> !NoMatch(c, cancel, w)
    ensures NoMatch(c, cancel, w) ==> ScanFrom(c, cancel, all, w, i).core == c
    decreases |ListOf(c, w)| - i
  {
    if i < |ListOf(c, w)| && !Matches(c, cancel, ListOf(c, w)[i]) {
      ScanFinds(c, cancel, all, w, i + 1);
    }
  }

  lemma NoMatchSame(c: Core, d: Core, cancel: Sqe, w: Where)
    requires SameSqes(c, d) && ListOf(d, w) == ListOf(c, w)
    ensures NoMatch(d, cancel, w) <==> NoMatch(c, cancel, w)
  {
    assert forall j | 0 <= j < |ListOf(c, w)| ::
        Matches(d, cancel, ListOf(c, w)[j]) == Matches(c, cancel, ListOf(c, w)[j]);
  }

  /** The answer is an error exactly when no parked, queued or waiting-for-the-worker op matched,
      and then nothing happened. */
  lemma CancelFails(c: Core, cancel: Sqe)
    ensures var r := CancelMatching(c, cancel);
      && (r.res < 0 <==> forall w :: NoMatch(c, cancel, w))
      && (r.res < 0 ==> r == Cancelled(c, NoneFound(c)))
  {
    var all := IsAll(cancel);
    var p := ScanFrom(c, cancel, all, InWaiting, 0);
    var q := ScanFrom(p.core, cancel, all, InQueue, 0);
    ScanFinds(c, cancel, all, InWaiting, 0);
    ScanFrame(c, cancel, all, InWaiting, 0);
    ScanFinds(p.core, cancel, all, InQueue, 0);
    ScanFrame(p.core, cancel, all, InQueue, 0);
    ScanFinds(q.core, cancel, all, AtWorker, 0);
    NoMatchSame(c, p.core, cancel, InQueue);
    NoMatchSame(c, q.core, cancel, AtWorker);
    assert (forall w :: NoMatch(c, cancel, w)) <==>
      NoMatch(c, cancel, InWaiting) && NoMatch(c, cancel, InQueue) && NoMatch(c, cancel, AtWorker);
  }

  // ---- lists stay apart --------------------------------------------------

  lemma TakeOutListed(c: Core, w: Where, i: nat)
    requires Apart(c) && i < |ListOf(c, w)|
    ensures Apart(TakeOut(c, w, i)) && Loose(TakeOut(c, w, i), ListOf(c, w)[i])
  {
    var d, t := TakeOut(c, w, i), ListOf(c, w)[i];
    forall x ensures Listed(d, x) == Listed(c, x) + if x == t then -1 else 0 {
      RemovedCnt(w, ListOf(c, w), i, x);
    }
    OneMoved(c, d, t, -1);
  }

  /** The link or head that led to the i-th slot now leads past it. */
  function Bypassed(next: seq<Addr>, prev: Addr, t: Addr): seq<Addr> {
    if 0 <= prev < |next| && 0 <= t < |next| then next[prev := next[t]] else next
  }

  function HeadOf(h: Heads, w: Where): Addr {
    if w == InQueue then h.queue else h.wq
  }

  function TailOf(h: Heads, w: Where): Addr {
    if w == InQueue then h.queueTail else h.wqTail
  }

  function WithEnds(h: Heads, w: Where, head: Addr, tail: Addr): Heads {
    if w == InQueue then h.(queue := head, queueTail := tail) else h.(wq := head, wqTail := tail)
  }

  function Prev(s: seq<Addr>, i: nat): Addr
    requires i <= |s|
  {
    if i == 0 then NIL else s[i - 1]
  }

  function At(s: seq<Addr>, i: nat): Addr {
    if i < |s| then s[i] else NIL
  }

  lemma WithinList(c: Core, w: Where, i: nat)
    requires Apart(c) && i < |ListOf(c, w)|
    ensures 0 <= ListOf(c, w)[i] < |c.ops|
  {
    var x := ListOf(c, w)[i];
    CntIn(ListOf(c, w), x);
    assert Listed(c, x) <= if 0 <= x < |c.ops| then 1 else 0;
  }

  lemma CutLinked(next: seq<Addr>, head: Addr, s: seq<Addr>, i: nat)
    requires Linked(next, head, s) && i < |s|
    ensures 0 <= s[i] < |next|
    ensures Linked(Bypassed(next, Prev(s, i), s[i]), if i == 0 then next[s[i]] else head, Cut(s, i))
    ensures s[i] != LastOf(s) ==> LastOf(Cut(s, i)) == LastOf(s)
  {
    if i == 0 { CutFront(next, head, s); } else { CutInside(next, head, s, i); }
  }

  lemma CutThreaded(next: seq<Addr>, h: Heads, c: Core, w: Where, i: nat)
    requires Threaded(next, h, c) && Apart(c) && |next| == |c.ops|
    requires w != InWaiting && i < |ListOf(c, w)|
    ensures var s := ListOf(c, w);
      && 0 <= s[i] < |next|
      && Threaded(Bypassed(next, Prev(s, i), s[i]),
                  WithEnds(h, w, if i == 0 then next[s[i]] else HeadOf(h, w), LastOf(Cut(s, i))),
                  TakeOut(c, w, i))
  {
    var s := ListOf(c, w);
    CutLinked(next, HeadOf(h, w), s, i);
    if i > 0 {
      var x, v := s[i - 1], next[s[i]];
      assert x in s;
      OffOthers(c, x);
      Elsewhere(next, h.free, c.free, x, v);
      Elsewhere(next, h.backlog, c.backlog, x, v);
      if w == InQueue { Elsewhere(next, h.wq, c.wq, x, v); } else { Elsewhere(next, h.queue, c.queue, x, v); }
    }
  }

  lemma UnparkAt(c: Core, i: nat)
    requires Apart(c) && i < |c.waiting|
    ensures Unpark(c, c.waiting[i]) == TakeOut(c, InWaiting, i)
  {
    WaitingDistinct(c);
    assert IndexOf(c.waiting, c.waiting[i]) == i;
  }

  lemma ScanHit(c: Core, cancel: Sqe, all: bool, w: Where, i: nat)
    requires i < |ListOf(c, w)| && Matches(c, cancel, ListOf(c, w)[i])
    ensures var d := CancelAt(c, w, i);
      ScanFrom(c, cancel, all, w, i) == if all then More(1, ScanFrom(d, cancel, all, w, i)) else Scan(d, 1)
  {
  }

  lemma ScanMiss(c: Core, cancel: Sqe, all: bool, w: Where, i: nat)
    requires i < |ListOf(c, w)| && !Matches(c, cancel, ListOf(c, w)[i])
    ensures ScanFrom(c, cancel, all, w, i) == ScanFrom(c, cancel, all, w, i + 1)
  {
  }

  lemma ListedNotNil(c: Core, w: Where, i: nat)
    requires Apart(c) && i < |ListOf(c, w)|
    ensures ListOf(c, w)[i] != NIL
  {
    CntIn(ListOf(c, w), ListOf(c, w)[i]);
    assert Listed(c, ListOf(c, w)[i]) > 0;
  }

  lemma ScanEnd(c: Core, cancel: Sqe, all: bool, w: Where, i: nat)
    requires Apart(c) && i <= |ListOf(c, w)| && At(ListOf(c, w), i) == NIL
    ensures ScanFrom(c, cancel, all, w, i) == Scan(c, 0)
  {
    if i < |ListOf(c, w)| {
      ListedNotNil(c, w, i);
    }
  }

  /** k cancelled already, the rest of the scan to come. */
  function More(k: nat, r: Scan): Scan {
    Scan(r.core, k + r.count)
  }
}
