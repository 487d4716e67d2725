/** The dispatch backend's knock: a semaphore that is signalled on transitions only, and the chain
    of descriptors that came ready, shared between handlers and the waiting submitter
    (src/engine_dispatch.c). Every action is one locked section or one semaphore operation. */
module Dispatch {
  import opened Lists
  import opened Readiness
  import IntrusiveList
  import EngineSystem
  import EngineOwnership

  /** A finished op and its answer. */
  datatype Result = Result(op: int, res: int)

  /** A descriptor: its waiters, and the sides a handler reported and nobody answered yet. */
  datatype Slot = Slot(sides: Sides, rdHit: bool, wrHit: bool)

  const ZEROED := Slot(Sides([], []), false, false)

  /** The submitter: not waiting, holding the token it took from the semaphore, or about to
      signal because something was left behind the door. */
  datatype Door = Away | Token | MustSignal

  /** `owed` counts the signals that were decided on under the lock and not yet given; `flying`
      the ops out on a queue. */
  datatype Dsp = Dsp(slots: seq<Slot>, chain: seq<int>, done: seq<Result>, knocked: bool,
                     sem: nat, owed: nat, door: Door, waiting: seq<Waiter>, flying: seq<int>, pool: nat)

  // ---- the locked sections -----------------------------------------------

  function Knock(s: Dsp): Dsp {
    if s.knocked then s else s.(knocked := true, owed := s.owed + 1)
  }

  function SlotAt(s: Dsp, fd: int): Slot {
    if 0 <= fd < |s.slots| then s.slots[fd] else ZEROED
  }

  function SetSlot(s: Dsp, fd: int, slot: Slot): Dsp {
    if 0 <= fd < |s.slots| then s.(slots := s.slots[fd := slot]) else s
  }

  function Hit(slot: Slot, writing: bool): Slot {
    if writing then slot.(wrHit := true) else slot.(rdHit := true)
  }

  /** What a handler does under the lock. */
  function ReportHit(s: Dsp, fd: int, writing: bool): Dsp {
    if 0 <= fd < |s.slots| then
      Knock(SetSlot(s, fd, Hit(s.slots[fd], writing)).(chain := if fd in s.chain then s.chain else [fd] + s.chain))
    else s
  }

  function Land(s: Dsp, d: Result): Dsp
    requires d.op in s.flying
  {
    Knock(s.(done := if |s.done| < s.pool then s.done + [d] else s.done, flying := Without(s.flying, d.op)))
  }

  /** The waiters of the sides that were hit. */
  function HitReport(fd: int, slot: Slot): Report {
    Report(fd, Ev(slot.rdHit, slot.wrHit, false), false)
  }

  function Waiters(slot: Slot): seq<Waiter> {
    Handed(slot.sides, HitReport(0, slot))
  }

  /** The first descriptor of the chain is answered for. */
  function Cleared(s: Dsp): Dsp
    requires s.chain != []
  {
    SetSlot(s, s.chain[0], SlotAt(s, s.chain[0]).(rdHit := false, wrHit := false)).(chain := s.chain[1..])
  }

  datatype Walked = Walked(state: Dsp, ready: seq<Waiter>)

  /** Down the chain while the waiters fit; whoever does not fit stays on it, its hits intact. */
  function Walk(s: Dsp, ready: seq<Waiter>): Walked
    decreases |s.chain|
  {
    if s.chain == [] || |ready| + |Waiters(SlotAt(s, s.chain[0]))| > s.pool then Walked(s, ready)
    else
      Walk(Cleared(s), ready + Waiters(SlotAt(s, s.chain[0])))
  }

  function Min(a: nat, b: nat): nat { if a < b then a else b }

  /** The answers out of done[], last one first. */
  function Popped(done: seq<Result>, n: nat): (r: seq<Result>)
    requires n <= |done|
    ensures |r| == n
    ensures forall k | 0 <= k < n :: r[k] == done[|done| - 1 - k]
  {
    seq(n, k requires 0 <= k < n => done[|done| - 1 - k])
  }

  predicate Left(s: Dsp) { s.chain != [] || s.done != [] }

  /** A wait that leaves anything behind keeps the door open and owes a signal. */
  function Shut(s: Dsp): Dsp {
    if Left(s) then s.(door := MustSignal) else s.(door := Away, knocked := false)
  }

  datatype Collected = Collected(state: Dsp, out: seq<Result>, ready: seq<Waiter>)

  function Collect(s: Dsp, max: nat): Collected {
    var n := Min(|s.done|, max);
    var t := s.(done := s.done[..|s.done| - n]);
    var w := if n < max then Walk(t, []) else Walked(t, []);
    Collected(Shut(w.state), Popped(s.done, n), w.ready)
  }

  // ---- the machine -------------------------------------------------------

  datatype Action =
    | Heard(fd: int, writing: bool)
    | Signal
    | Poke
    | Fly(op: int)
    | Landed(d: Result)
    | TakeToken
    | CollectAll(max: nat)
    | SignalBack
    | Park(w: Waiter)
    | Unpark(i: nat)
    | Forget(fd: int)
    | Grow(n: nat)

  function ParkedOps(waiting: seq<Waiter>): (r: seq<int>)
    ensures |r| == |waiting|
  {
    seq(|waiting|, i requires 0 <= i < |waiting| => waiting[i].op)
  }

  function DoneOps(done: seq<Result>): (r: seq<int>)
    ensures |r| == |done|
  {
    seq(|done|, i requires 0 <= i < |done| => done[i].op)
  }

  /** How often the backend has op x: parked, out on a queue, or answered and not collected. */
  function Uses(s: Dsp, x: int): nat {
    Cnt(ParkedOps(s.waiting), x) + Cnt(s.flying, x) + Cnt(DoneOps(s.done), x)
  }

  /** Op x comes from the pool and the backend does not have it. */
  predicate Spare(s: Dsp, x: int) {
    0 <= x < s.pool && Uses(s, x) == 0
  }

  /** The engine parks and sends out only what it has in hand. The submitter parks and forgets only
      while it is not waiting, and forgets only descriptors nobody is parked on. */
  ghost predicate Enabled(s: Dsp, a: Action) {
    match a
    case Heard(_, _) => true
    case Signal => s.owed > 0
    case Poke => true
    case Fly(op) => s.door.Away? && Spare(s, op)
    case Landed(d) => d.op in s.flying
    case TakeToken => s.door.Away? && s.sem > 0
    case CollectAll(max) => s.door.Token? && max == s.pool
    case SignalBack => s.door.MustSignal?
    case Park(w) => s.door.Away? && 0 <= w.fd < |s.slots| && Spare(s, w.op)
    case Unpark(i) => s.door.Away? && i < |s.waiting|
    case Forget(fd) => s.door.Away? && Unused(SlotAt(s, fd).sides)
    case Grow(n) => n >= |s.slots|
  }

  function Apply(s: Dsp, a: Action): Dsp
    requires Enabled(s, a)
  {
    match a
    case Heard(fd, writing) => ReportHit(s, fd, writing)
    case Signal => s.(owed := s.owed - 1, sem := s.sem + 1)
    case Poke => Knock(s)
    case Fly(op) => s.(flying := s.flying + [op])
    case Landed(d) => Land(s, d)
    case TakeToken => s.(sem := s.sem - 1, door := Token)
    case CollectAll(max) => Collect(s, max).state
    case SignalBack => s.(sem := s.sem + 1, door := Away)
    case Park(w) =>
      SetSlot(s, w.fd, SlotAt(s, w.fd).(sides := Join(SlotAt(s, w.fd).sides, w))).(waiting := s.waiting + [w])
    case Unpark(i) =>
      var w := s.waiting[i];
      SetSlot(s, w.fd, SlotAt(s, w.fd).(sides := Leave(SlotAt(s, w.fd).sides, w))).(waiting := SwapRemove(s.waiting, i))
    case Forget(fd) => SetSlot(s, fd, ZEROED)
    case Grow(n) => s.(slots := s.slots + seq(n - |s.slots|, i => ZEROED))
  }

  // ---- the invariant -----------------------------------------------------

  function Held(door: Door): nat { if door.Away? then 0 else 1 }

  /** Semaphore, signals owed and the token in hand add up to one while the door is knocked at,
      and to none otherwise; and whatever is behind the door has knocked. */
  ghost predicate Knocks(s: Dsp) {
    && s.sem + s.owed + Held(s.door) == (if s.knocked then 1 else 0)
    && (Left(s) ==> s.knocked)
  }

  /** The chain names each descriptor once, and every one with an unanswered hit. */
  ghost predicate Chained(s: Dsp) {
    && IntrusiveList.Distinct(s.chain) && IntrusiveList.Within(|s.slots|, s.chain)
    && (forall fd | 0 <= fd < |s.slots| && (s.slots[fd].rdHit || s.slots[fd].wrHit) :: fd in s.chain)
  }

  ghost function Index(s: Dsp): int -> Sides {
    (fd: int) => SlotAt(s, fd).sides
  }

  /** The backend has no op twice. */
  ghost predicate Owned(s: Dsp) {
    forall x :: Uses(s, x) <= if 0 <= x < s.pool then 1 else 0
  }

  ghost predicate Inv(s: Dsp) {
    && Knocks(s) && Chained(s) && Indexed(s.waiting, Index(s)) && Owned(s)
    && (forall i | 0 <= i < |s.waiting| :: 0 <= s.waiting[i].fd < |s.slots|)
  }

  // ---- the pool ----------------------------------------------------------

  /** So it never has more than the pool. */
  lemma BusyFits(s: Dsp)
    requires Owned(s)
    ensures |s.waiting| + |s.flying| + |s.done| <= s.pool
  {
    var parked, done := ParkedOps(s.waiting), DoneOps(s.done);
    forall x ensures Cnt(parked + (s.flying + done), x) <= if 0 <= x < s.pool then 1 else 0 {
      CntConcat(parked, s.flying + done, x);
      CntConcat(s.flying, done, x);
      assert Uses(s, x) <= if 0 <= x < s.pool then 1 else 0;
    }
    Pigeonhole(parked + (s.flying + done), s.pool);
  }

  /** What the engine's submitter holds is spare: the backend has only ops that are parked, handed
      away or answered, and the op in hand is none of these. */
  lemma HeldIsSpare(s: Dsp, e: EngineSystem.System)
    requires EngineOwnership.Partition(e) && (e.pc.Holding? || e.pc.Retry?) && s.pool == |e.core.ops|
    requires forall x :: Uses(s, x) + EngineOwnership.HandCnt(e.pc, x) <= EngineOwnership.LiveCnt(e, x)
    ensures Spare(s, e.pc.op)
  {
    var a := e.pc.op;
    assert EngineOwnership.HandCnt(e.pc, a) > 0;
    assert Uses(s, a) + EngineOwnership.HandCnt(e.pc, a) <= EngineOwnership.LiveCnt(e, a);
    assert EngineOwnership.Places(e, a) == if 0 <= a < |e.core.ops| then 1 else 0;
  }

  ghost predicate SameOps(s: Dsp, t: Dsp) {
    t.waiting == s.waiting && t.flying == s.flying && t.done == s.done && t.pool == s.pool
  }

  lemma SameOwned(s: Dsp, t: Dsp)
    requires Owned(s) && SameOps(s, t)
    ensures Owned(t)
  {
    forall x ensures Uses(t, x) == Uses(s, x) { }
  }

  lemma FlyOwned(s: Dsp, op: int)
    requires Owned(s) && Spare(s, op)
    ensures Owned(s.(flying := s.flying + [op]))
  {
    forall x ensures Uses(s.(flying := s.flying + [op]), x) == Uses(s, x) + if x == op then 1 else 0 {
      CntSnoc(s.flying, op, x);
    }
  }

  lemma LandOwned(s: Dsp, d: Result)
    requires Owned(s) && d.op in s.flying
    ensures Owned(Land(s, d)) && Land(s, d).done == s.done + [d]
  {
    BusyFits(s);
    forall x ensures Uses(Land(s, d), x) == Uses(s, x) {
      CntWithout(s.flying, d.op, x);
      assert DoneOps(s.done + [d]) == DoneOps(s.done) + [d.op];
      CntSnoc(DoneOps(s.done), d.op, x);
    }
  }

  /** Some answers left. */
  lemma LessOwned(s: Dsp, t: Dsp, k: nat)
    requires Owned(s) && k <= |s.done|
    requires t.waiting == s.waiting && t.flying == s.flying && t.done == s.done[..k] && t.pool == s.pool
    ensures Owned(t)
  {
    assert DoneOps(s.done) == DoneOps(t.done) + DoneOps(s.done[k..]);
    forall x ensures Uses(t, x) <= Uses(s, x) { CntConcat(DoneOps(t.done), DoneOps(s.done[k..]), x); }
  }

  lemma ParkOwned(s: Dsp, t: Dsp, w: Waiter)
    requires Owned(s) && Spare(s, w.op)
    requires t.waiting == s.waiting + [w] && t.flying == s.flying && t.done == s.done && t.pool == s.pool
    ensures Owned(t)
  {
    assert ParkedOps(t.waiting) == ParkedOps(s.waiting) + [w.op];
    forall x ensures Uses(t, x) == Uses(s, x) + if x == w.op then 1 else 0 {
      CntSnoc(ParkedOps(s.waiting), w.op, x);
    }
  }

  lemma UnparkOwned(s: Dsp, t: Dsp, i: nat)
    requires Owned(s) && i < |s.waiting|
    requires t.waiting == SwapRemove(s.waiting, i) && t.flying == s.flying && t.done == s.done && t.pool == s.pool
    ensures Owned(t)
  {
    assert ParkedOps(t.waiting) == SwapRemove(ParkedOps(s.waiting), i);
    forall x ensures Uses(t, x) <= Uses(s, x) { CntSwapRemove(ParkedOps(s.waiting), i, x); }
  }

  // ---- the walk ----------------------------------------------------------

  function HitReports(s: Dsp): (r: seq<Report>)
    ensures |r| == |s.chain|
    ensures forall i | 0 <= i < |r| :: r[i] == HitReport(s.chain[i], SlotAt(s, s.chain[i]))
  {
    seq(|s.chain|, i requires 0 <= i < |s.chain| => HitReport(s.chain[i], SlotAt(s, s.chain[i])))
  }

  ghost predicate SameSides(s: Dsp, t: Dsp) {
    |t.slots| == |s.slots| && forall fd :: SlotAt(t, fd).sides == SlotAt(s, fd).sides
  }

  lemma ClearedFacts(s: Dsp)
    requires Chained(s) && s.chain != []
    ensures Chained(Cleared(s)) && HitReports(Cleared(s)) == HitReports(s)[1..]
    ensures SameSides(s, Cleared(s))
  {
    var t, a := Cleared(s), s.chain[0];
    forall fd | 0 <= fd < |t.slots| && (t.slots[fd].rdHit || t.slots[fd].wrHit) ensures fd in t.chain {
      assert fd != a && fd in s.chain;
      var i :| 0 <= i < |s.chain| && s.chain[i] == fd;
      assert t.chain[i - 1] == fd;
    }
  }

  lemma HandOverSame(f: int -> Sides, g: int -> Sides, reports: seq<Report>)
    requires forall fd :: f(fd) == g(fd)
    ensures HandOver(f, reports) == HandOver(g, reports)
  {
  }

  /** The walk only takes descriptors off the chain and clears their hits. */
  lemma {:induction false} WalkFrame(s: Dsp, ready: seq<Waiter>)
    requires Chained(s)
    ensures var t := Walk(s, ready).state;
      Chained(t) && SameSides(s, t) && t == s.(slots := t.slots, chain := t.chain)
    decreases |s.chain|
  {
    if s.chain != [] {
      ClearedFacts(s);
      WalkFrame(Cleared(s), ready + Waiters(SlotAt(s, s.chain[0])));
    }
  }

  lemma HandOverFirst(s: Dsp)
    requires Chained(s) && s.chain != []
    ensures HandOver(Index(s), HitReports(s))
         == Waiters(SlotAt(s, s.chain[0])) + HandOver(Index(Cleared(s)), HitReports(Cleared(s)))
  {
    ClearedFacts(s);
    HandOverSame(Index(s), Index(Cleared(s)), HitReports(Cleared(s)));
  }

  lemma Regroup(a: seq<Waiter>, b: seq<Waiter>, c: seq<Waiter>)
    ensures (a + b) + c == a + (b + c) && |b + c| == |b| + |c|
  {
  }

  /** When the waiters of everything on the chain fit, the walk empties it and hands them all over. */
  lemma {:induction false} WalkAll(s: Dsp, ready: seq<Waiter>)
    requires Chained(s) && |ready| + |HandOver(Index(s), HitReports(s))| <= s.pool
    ensures var w := Walk(s, ready);
      w.state.chain == [] && w.ready == ready + HandOver(Index(s), HitReports(s))
    decreases |s.chain|
  {
    if s.chain != [] {
      var t, more := Cleared(s), Waiters(SlotAt(s, s.chain[0]));
      var rest := HandOver(Index(t), HitReports(t));
      ClearedFacts(s);
      HandOverFirst(s);
      WalkAll(t, ready + more);
      Regroup(ready, more, rest);
    }
  }

  lemma ChainFits(s: Dsp)
    requires Inv(s)
    ensures OnePerSide(HitReports(s)) && |HandOver(Index(s), HitReports(s))| <= |s.waiting|
  {
    HandOverFits(s.waiting, Index(s), HitReports(s));
  }

  /** The break for want of room is never taken: a wait that has room for one more answer empties
      the chain, clears no hit without handing over every waiter of its side, and leaves the door
      shut. */
  lemma CollectEmpties(s: Dsp)
    requires Inv(s) && |s.done| < s.pool
    ensures var c := Collect(s, s.pool);
      && c.ready == HandOver(Index(s), HitReports(s)) && |c.ready| + |c.out| <= s.pool
      && c.state == s.(slots := c.state.slots, chain := [], done := [], door := Away, knocked := false)
      && Chained(c.state) && SameSides(s, c.state)
  {
    var t := s.(done := []);
    assert s.done[..0] == [];
    ChainFits(s);
    BusyFits(s);
    HandOverSame(Index(s), Index(t), HitReports(t));
    assert HitReports(t) == HitReports(s);
    WalkAll(t, []);
    WalkFrame(t, []);
    assert SameSides(s, t);
    assert forall fd :: SlotAt(Walk(t, []).state, fd).sides == SlotAt(s, fd).sides;
  }

  /** When answers alone fill the room, the chain is left for the next wait. */
  lemma CollectFull(s: Dsp)
    requires Inv(s) && |s.done| >= s.pool
    ensures Collect(s, s.pool).state == Shut(s.(done := []))
  {
    BusyFits(s);
    assert s.done[..|s.done| - s.pool] == [];
  }

  // ---- every action keeps the invariant ----------------------------------

  lemma IndexKept(s: Dsp, t: Dsp)
    requires Indexed(s.waiting, Index(s)) && t.waiting == s.waiting
    requires SameSides(s, t) || forall fd :: SlotAt(t, fd).sides == SlotAt(s, fd).sides
    ensures Indexed(t.waiting, Index(t))
  {
    forall fd: int, w: Waiter ensures IndexAt(t.waiting, fd, Index(t)(fd), w) {
      assert IndexAt(s.waiting, fd, Index(s)(fd), w);
    }
  }

  lemma ReportInv(s: Dsp, fd: int, writing: bool)
    requires Inv(s)
    ensures Inv(ReportHit(s, fd, writing))
  {
    var t := ReportHit(s, fd, writing);
    IndexKept(s, t);
    SameOwned(s, t);
    if 0 <= fd < |s.slots| {
      forall g | 0 <= g < |t.slots| && (t.slots[g].rdHit || t.slots[g].wrHit) ensures g in t.chain {
        if g != fd { assert g in s.chain; }
      }
    }
  }

  lemma CollectInv(s: Dsp)
    requires Inv(s) && s.door.Token?
    ensures Inv(Collect(s, s.pool).state)
  {
    var t := Collect(s, s.pool).state;
    if |s.done| < s.pool { CollectEmpties(s); } else { CollectFull(s); }
    IndexKept(s, t);
    assert s.done[..0] == [];
    LessOwned(s, t, 0);
  }

  lemma ParkInv(s: Dsp, w: Waiter)
    requires Inv(s) && Enabled(s, Park(w))
    ensures Inv(Apply(s, Park(w)))
  {
    var t := Apply(s, Park(w));
    JoinTable(s.waiting, w, Index(s), Index(t));
    ParkOwned(s, t, w);
  }

  lemma UnparkInv(s: Dsp, i: nat)
    requires Inv(s) && Enabled(s, Unpark(i))
    ensures Inv(Apply(s, Unpark(i)))
  {
    var t := Apply(s, Unpark(i));
    LeaveTable(s.waiting, i, Index(s), Index(t));
    UnparkOwned(s, t, i);
  }

  lemma LandInv(s: Dsp, d: Result)
    requires Inv(s) && d.op in s.flying
    ensures Inv(Land(s, d))
  {
    LandOwned(s, d);
    IndexKept(s, Land(s, d));
  }

  lemma InvKept(s: Dsp, a: Action)
    requires Inv(s) && Enabled(s, a)
    ensures Inv(Apply(s, a))
  {
    match a
    case Heard(fd, writing) => ReportInv(s, fd, writing);
    case Fly(op) => FlyOwned(s, op); IndexKept(s, Apply(s, a));
    case Landed(d) => LandInv(s, d);
    case CollectAll(max) => CollectInv(s);
    case Park(w) => ParkInv(s, w);
    case Unpark(i) => UnparkInv(s, i);
    case Forget(fd) =>
      assert SlotAt(s, fd).sides == Sides([], []);
      IndexKept(s, Apply(s, a));
      SameOwned(s, Apply(s, a));
    case _ =>
      IndexKept(s, Apply(s, a));
      SameOwned(s, Apply(s, a));
  }

  // ---- runs --------------------------------------------------------------

  ghost predicate ValidRun(s: Dsp, acts: seq<Action>)
    decreases |acts|
  {
    acts == [] || (Enabled(s, acts[0]) && ValidRun(Apply(s, acts[0]), acts[1..]))
  }

  ghost function Run(s: Dsp, acts: seq<Action>): Dsp
    requires ValidRun(s, acts)
    decreases |acts|
  {
    if acts == [] then s else Run(Apply(s, acts[0]), acts[1..])
  }

  lemma {:induction false} InvAlways(s: Dsp, acts: seq<Action>)
    requires Inv(s) && ValidRun(s, acts)
    ensures Inv(Run(s, acts))
    decreases |acts|
  {
    if acts != [] {
      InvKept(s, acts[0]);
      InvAlways(Apply(s, acts[0]), acts[1..]);
    }
  }

  function Opened(pool: nat): Dsp {
    Dsp([], [], [], false, 0, 0, Away, [], [], pool)
  }

  lemma OpenedInv(pool: nat)
    ensures Inv(Opened(pool))
  {
  }

  // ---- what it gives -----------------------------------------------------

  /** No event is lost: while anything is unanswered, exactly one wakeup is stored, owed, or in the
      submitter's hand. */
  lemma NoLostWakeup(s: Dsp)
    requires Inv(s)
    requires s.done != [] || exists fd :: SlotAt(s, fd).rdHit || SlotAt(s, fd).wrHit
    ensures s.sem + s.owed + Held(s.door) == 1
  {
    if s.done == [] {
      var fd :| SlotAt(s, fd).rdHit || SlotAt(s, fd).wrHit;
      assert fd in s.chain;
    }
  }

  /** No surplus wakeup is stored: a wait that answered everything leaves none behind, and never
      more than one is. */
  lemma NoSurplusWakeup(s: Dsp)
    requires Inv(s) && s.door.Token? && |s.done| < s.pool
    ensures var t := Collect(s, s.pool).state; t.sem == 0 && t.owed == 0
    ensures s.sem == 0 && s.owed == 0
  {
    CollectEmpties(s);
    CollectInv(s);
  }

  /** The guard against a full done[] never drops a completion. */
  lemma NothingDropped(s: Dsp, d: Result)
    requires Inv(s) && d.op in s.flying
    ensures Land(s, d).done == s.done + [d]
  {
    BusyFits(s);
  }

  /** Every answer a wait takes out of done[] is handed out, as often as it was there, up to the room
      there is. */
  lemma AnswersHandedOut(s: Dsp, max: nat)
    ensures var c := Collect(s, max);
      && multiset(c.out) + multiset(c.state.done) == multiset(s.done)
      && |c.out| == if |s.done| < max then |s.done| else max
  {
    var n := Min(|s.done|, max);
    WalkDone(s.(done := s.done[..|s.done| - n]), []);
    PoppedAll(s.done, n);
  }

  lemma {:induction false} WalkDone(s: Dsp, ready: seq<Waiter>)
    ensures Walk(s, ready).state.done == s.done
    decreases |s.chain|
  {
    if s.chain != [] && |ready| + |Waiters(SlotAt(s, s.chain[0]))| <= s.pool {
      WalkDone(Cleared(s), ready + Waiters(SlotAt(s, s.chain[0])));
    }
  }

  lemma {:induction false} PoppedAll(done: seq<Result>, n: nat)
    requires n <= |done|
    ensures multiset(Popped(done, n)) + multiset(done[..|done| - n]) == multiset(done)
    decreases n
  {
    if n == 0 {
      assert done[..|done|] == done;
    } else {
      PoppedAll(done, n - 1);
      var k := |done| - n;
      assert Popped(done, n) == Popped(done, n - 1) + [done[k]];
      assert done[..k + 1] == done[..k] + [done[k]];
    }
  }

  /** What landed in a run, and what its waits handed out. */
  ghost function LandedIn(acts: seq<Action>): seq<Result> {
    if acts == [] then [] else (if acts[0].Landed? then [acts[0].d] else []) + LandedIn(acts[1..])
  }

  ghost function HandedIn(s: Dsp, acts: seq<Action>): seq<Result>
    requires ValidRun(s, acts)
    decreases |acts|
  {
    if acts == [] then []
    else (if acts[0].CollectAll? then Collect(s, acts[0].max).out else []) + HandedIn(Apply(s, acts[0]), acts[1..])
  }

  lemma DoneStep(s: Dsp, a: Action)
    requires Inv(s) && Enabled(s, a)
    ensures multiset(s.done) + (if a.Landed? then multiset{a.d} else multiset{})
         == multiset(Apply(s, a).done) + multiset(if a.CollectAll? then Collect(s, a.max).out else [])
  {
    if a.CollectAll? {
      AnswersHandedOut(s, a.max);
    } else if a.Landed? {
      NothingDropped(s, a.d);
    } else {
      assert Apply(s, a).done == s.done;
    }
  }

  /** Over every interleaving: what landed, with what stood in done[] before, is what the waits handed
      out with what stands there still, each answer as often. */
  lemma {:induction false} AnswersConserved(s: Dsp, acts: seq<Action>)
    requires Inv(s) && ValidRun(s, acts)
    ensures multiset(s.done) + multiset(LandedIn(acts)) == multiset(HandedIn(s, acts)) + multiset(Run(s, acts).done)
    decreases |acts|
  {
    if acts != [] {
      var a, t, rest := acts[0], Apply(s, acts[0]), acts[1..];
      DoneStep(s, a);
      InvKept(s, a);
      AnswersConserved(t, rest);
      var landed: seq<Result> := if a.Landed? then [a.d] else [];
      var out: seq<Result> := if a.CollectAll? then Collect(s, a.max).out else [];
      assert multiset(landed) == if a.Landed? then multiset{a.d} else multiset{};
      Balance(multiset(s.done), multiset(landed), multiset(t.done), multiset(out),
              multiset(LandedIn(rest)), multiset(HandedIn(t, rest)), multiset(Run(t, rest).done));
      assert multiset(LandedIn(acts)) == multiset(landed) + multiset(LandedIn(rest));
      assert multiset(HandedIn(s, acts)) == multiset(out) + multiset(HandedIn(t, rest));
    }
  }

  lemma Balance(a: multiset<Result>, x: multiset<Result>, b: multiset<Result>, o: multiset<Result>,
                l: multiset<Result>, h: multiset<Result>, d: multiset<Result>)
    requires a + x == b + o && b + l == h + d
    ensures a + (x + l) == (o + h) + d
  {
    assert a + (x + l) == (a + x) + l == (b + l) + o;
  }

  /** A report marks its own side of its own descriptor and no other. */
  lemma ReportMarks(s: Dsp, fd: int, writing: bool)
    requires 0 <= fd < |s.slots|
    ensures var t := ReportHit(s, fd, writing);
      && |t.slots| == |s.slots| && t.slots[fd].sides == s.slots[fd].sides
      && t.slots[fd].rdHit == (s.slots[fd].rdHit || !writing) && t.slots[fd].wrHit == (s.slots[fd].wrHit || writing)
      && forall g | 0 <= g < |s.slots| && g != fd :: t.slots[g] == s.slots[g]
  {
  }

  // ---- the code, on the index-linked chain -------------------------------

  class Chains {
    const slots: array<Slot>
    const queued: array<bool>
    const next: array<int>
    var head: int
    var done: seq<Result>
    var knocked: bool
    var sem: nat
    var owed: nat
    var door: Door
    var waiting: seq<Waiter>
    var live: nat
    const pool: nat
    ghost var chain: seq<int>
    ghost var flying: seq<int>

    ghost function State(): Dsp
      reads this, slots
    {
      Dsp(slots[..], chain, done, knocked, sem, owed, door, waiting, flying, pool)
    }

    /** The links lead through exactly the chain, a descriptor is marked as queued exactly when it is
        on it, and the counter of ops out counts them. */
    ghost predicate Valid()
      reads this, slots, queued, next
    {
      && slots.Length == queued.Length == next.Length && live == |flying|
      && IntrusiveList.Linked(next[..], head, chain)
      && forall fd | 0 <= fd < queued.Length :: queued[fd] == (fd in chain)
    }

    constructor (n: nat, pool: nat)
      ensures Valid() && fresh(slots) && fresh(queued) && fresh(next)
      ensures State() == Opened(pool).(slots := seq(n, i => ZEROED))
    {
      slots := new Slot[n](_ => ZEROED);
      queued := new bool[n](_ => false);
      next := new int[n](_ => -1);
      head, done, knocked, sem, owed, door := -1, [], false, 0, 0, Away;
      waiting, live, this.pool, chain, flying := [], 0, pool, [], [];
    }

    method KnockLocked()
      requires Valid()
      modifies this`knocked, this`owed
      ensures Valid() && State() == Knock(old(State()))
    {
      if !knocked { knocked, owed := true, owed + 1; }
    }

    method ReportFd(fd: int, writing: bool)
      requires Valid()
      modifies this, slots, queued, next
      ensures Valid() && State() == ReportHit(old(State()), fd, writing)
    {
      if fd < 0 || fd >= slots.Length { return; }
      ghost var s, n := State(), next[..];
      slots[fd] := Hit(slots[fd], writing);
      if !queued[fd] {
        IntrusiveList.Pushed(n, head, chain, fd);
        queued[fd] := true;
        next[fd] := head;
        head := fd;
        chain := [fd] + chain;
        assert next[..] == n[fd := old(head)];
      }
      assert slots[..] == s.slots[fd := Hit(s.slots[fd], writing)];
      KnockLocked();
    }

    method LandOp(d: Result)
      requires Valid() && d.op in flying
      modifies this`done, this`live, this`flying, this`knocked, this`owed
      ensures Valid() && State() == Land(old(State()), d)
    {
      if |done| < pool { done := done + [d]; }
      live := live - 1;
      flying := Without(flying, d.op);
      KnockLocked();
    }

    method PopDone(max: nat) returns (out: seq<Result>)
      requires Valid()
      modifies this`done
      ensures Valid()
      ensures var n := Min(|old(done)|, max);
        out == Popped(old(done), n) && State() == old(State()).(done := old(done)[..|old(done)| - n])
    {
      out := [];
      var left: nat := |done|;
      while left > 0 && |out| < max
        invariant left + |out| == |done| && |out| <= max
        invariant forall k | 0 <= k < |out| :: out[k] == done[|done| - 1 - k]
        decreases left
      {
        left := left - 1;
        out := out + [done[left]];
      }
      done := done[..left];
    }

    /** The front of the chain: its hits cleared, its mark and link reset. */
    method Dequeue()
      requires Valid() && head >= 0
      modifies this`head, this`chain, slots, queued, next
      ensures Valid() && old(chain) != [] && State() == Cleared(old(State()))
    {
      ghost var s, n, c := State(), next[..], chain;
      IntrusiveList.Popped(n, head, chain);
      var i := head;
      slots[i] := slots[i].(rdHit := false, wrHit := false);
      head := next[i];
      chain := chain[1..];
      IntrusiveList.Elsewhere(n, head, chain, i, -1);
      next[i] := -1;
      queued[i] := false;
      assert next[..] == n[i := -1];
      assert c == [i] + chain;
      assert slots[..] == s.slots[i := s.slots[i].(rdHit := false, wrHit := false)];
    }

    method WalkChain() returns (ready: seq<Waiter>)
      requires Valid()
      modifies this`head, this`chain, slots, queued, next
      ensures Valid() && Walked(State(), ready) == Walk(old(State()), [])
    {
      ready := [];
      ghost var goal := Walk(State(), []);
      while head >= 0
        invariant Valid() && goal == Walk(State(), ready)
        decreases |chain|
      {
        IntrusiveList.Empty(next[..], head, chain);
        assert head == chain[0];
        var more := Waiters(slots[head]);
        if |ready| + |more| > pool { return; }
        Dequeue();
        ready := ready + more;
      }
      IntrusiveList.Empty(next[..], head, chain);
    }

    method CollectReady(max: nat) returns (out: seq<Result>, ready: seq<Waiter>)
      requires Valid() && door.Token?
      modifies this, slots, queued, next
      ensures Valid() && Collected(State(), out, ready) == Collect(old(State()), max)
      ensures multiset(out) + multiset(done) == multiset(old(done))
    {
      AnswersHandedOut(State(), max);
      out := PopDone(max);
      ready := [];
      if |out| < max { ready := WalkChain(); }
      ShutDoor();
    }

    method ShutDoor()
      requires Valid()
      modifies this`door, this`knocked
      ensures Valid() && State() == Shut(old(State()))
    {
      IntrusiveList.Empty(next[..], head, chain);
      if head >= 0 || |done| > 0 { door := MustSignal; } else { door, knocked := Away, false; }
    }
  }
}
