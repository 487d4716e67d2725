/** The kqueue backend: one knote for each direction, armed flags that are trusted only while
    somebody waits (src/engine_kqueue.c). The kernel's knotes are part of the state; what the
    kernel answers, and descriptors closing and their numbers coming back, are inputs. */
module KqueueBackend {
  import opened Lists
  import opened Readiness

  /** Something for the read filter and for the write filter. */
  datatype Pair = Pair(rd: bool, wr: bool)

  function Get(p: Pair, writing: bool): bool { if writing then p.wr else p.rd }

  function Put(p: Pair, writing: bool, v: bool): Pair { if writing then p.(wr := v) else p.(rd := v) }

  /** One descriptor: the armed flags, its waiters, and the knotes the kernel has. */
  datatype Desc = Desc(armed: Pair, sides: Sides, knotes: Pair)

  datatype Armed = Armed(desc: Desc, ok: bool)

  // ---- one descriptor ----------------------------------------------------

  /** EV_ADD, and if it fails the knote deleted and added again. */
  function AddKnote(knotes: Pair, writing: bool, no1: bool, no2: bool): (Pair, bool) {
    if !no1 then (Put(knotes, writing, true), true)
    else if !no2 then (Put(knotes, writing, true), true)
    else (Put(knotes, writing, false), false)
  }

  function Arm(d: Desc, w: Waiter, no1: bool, no2: bool): Armed {
    var armed := if Unused(d.sides) then Pair(false, false) else d.armed;
    if Get(armed, w.want.wr) then Armed(d.(armed := armed, sides := Join(d.sides, w)), true)
    else
      var (knotes, ok) := AddKnote(d.knotes, w.want.wr, no1, no2);
      if ok then Armed(Desc(Put(armed, w.want.wr, true), Join(d.sides, w), knotes), true)
      else Armed(Desc(armed, d.sides, knotes), false)
  }

  function Disarm(d: Desc, w: Waiter): Desc {
    d.(sides := Leave(d.sides, w))
  }

  function Side(s: Sides, writing: bool): seq<Waiter> {
    if writing then s.outs else s.ins
  }

  /** An event that finds no waiter deletes its knote. */
  function Event(d: Desc, writing: bool): Desc {
    if Side(d.sides, writing) != [] then d
    else d.(armed := Put(d.armed, writing, false), knotes := Put(d.knotes, writing, false))
  }

  function Forget(d: Desc): Desc {
    d.(armed := Pair(false, false), sides := Sides([], []))
  }

  // ---- no lost wakeup ----------------------------------------------------

  /** While anybody waits, an armed flag means a knote, and a side with waiters is armed. */
  ghost predicate Sane(d: Desc) {
    !Unused(d.sides) ==>
      forall writing :: (Get(d.armed, writing) ==> Get(d.knotes, writing))
                     && (Side(d.sides, writing) != [] ==> Get(d.armed, writing))
  }

  /** Whoever waits has the knote of its direction, and is handed over when it fires. */
  lemma NoLostWakeup(d: Desc, w: Waiter)
    requires Sane(d) && w in Side(d.sides, w.want.wr)
    ensures Get(d.knotes, w.want.wr)
    ensures w in Handed(d.sides, Fired(w.fd, w.want.wr))
  {
    assert Side(d.sides, w.want.wr) != [];
  }

  function Fired(fd: int, writing: bool): Report {
    Report(fd, if writing then WRITE else READ, false)
  }

  datatype Step =
    | DoArm(w: Waiter, no1: bool, no2: bool)
    | DoDisarm(w: Waiter)
    | DoEvent(writing: bool)
    | DoForget
    | Environment(knotes: Pair)

  /** A descriptor closes, and its number comes back, only while nobody waits on it. Whatever the
      kernel answers is fair. */
  predicate Fair(d: Desc, s: Step) {
    s.DoForget? || s.Environment? ==> Unused(d.sides)
  }

  function Apply(d: Desc, s: Step): Desc {
    match s
    case DoArm(w, no1, no2) => Arm(d, w, no1, no2).desc
    case DoDisarm(w) => Disarm(d, w)
    case DoEvent(writing) => Event(d, writing)
    case DoForget => Forget(d)
    case Environment(k) => d.(knotes := k)
  }

  predicate FairRun(d: Desc, steps: seq<Step>)
    decreases |steps|
  {
    steps == [] || (Fair(d, steps[0]) && FairRun(Apply(d, steps[0]), steps[1..]))
  }

  function Run(d: Desc, steps: seq<Step>): Desc
    decreases |steps|
  {
    if steps == [] then d else Run(Apply(d, steps[0]), steps[1..])
  }

  lemma ArmSane(d: Desc, w: Waiter, no1: bool, no2: bool)
    requires Sane(d)
    ensures Sane(Arm(d, w, no1, no2).desc)
  {
    var a := Arm(d, w, no1, no2).desc;
    if !Unused(d.sides) {
      assert Get(d.armed, true) ==> Get(d.knotes, true);
      assert Get(d.armed, false) ==> Get(d.knotes, false);
      assert Side(d.sides, w.want.wr) != [] ==> Get(d.armed, w.want.wr);
    }
    forall writing ensures Side(a.sides, writing) == if a.sides != d.sides && writing == w.want.wr
        then [w] + Side(d.sides, writing) else Side(d.sides, writing) { }
  }

  lemma DisarmSane(d: Desc, w: Waiter)
    requires Sane(d)
    ensures Sane(Disarm(d, w))
  {
    var e := Disarm(d, w);
    forall writing ensures Side(d.sides, writing) == [] ==> Side(e.sides, writing) == [] { }
  }

  lemma EventSane(d: Desc, writing: bool)
    requires Sane(d)
    ensures Sane(Event(d, writing))
  {
    var e := Event(d, writing);
    forall v ensures Side(e.sides, v) == Side(d.sides, v) { }
    if !Unused(d.sides) {
      forall v ensures (Get(e.armed, v) ==> Get(e.knotes, v)) && (Side(e.sides, v) != [] ==> Get(e.armed, v)) {
        assert Get(d.armed, v) ==> Get(d.knotes, v);
      }
    }
  }

  /** An event that finds no waiter on its side takes the knote of that side from the kernel, and no
      other; one that finds a waiter takes none. */
  lemma EventDeletes(d: Desc, writing: bool)
    ensures var e, side := Event(d, writing), if writing then d.sides.outs else d.sides.ins;
      && e.sides == d.sides
      && (side != [] ==> e == d)
      && (side == [] && writing ==>
            !e.knotes.wr && !e.armed.wr && e.knotes.rd == d.knotes.rd && e.armed.rd == d.armed.rd)
      && (side == [] && !writing ==>
            !e.knotes.rd && !e.armed.rd && e.knotes.wr == d.knotes.wr && e.armed.wr == d.armed.wr)
  {
  }

  /** Arming asks for the op's own direction: the knote of the other one is left as it is. Whoever
      cannot be told of has no knote left and joins no side. */
  lemma ArmAsks(d: Desc, w: Waiter, no1: bool, no2: bool)
    requires Sane(d)
    ensures var a := Arm(d, w, no1, no2);
      && (if w.want.wr then a.desc.knotes.rd == d.knotes.rd else a.desc.knotes.wr == d.knotes.wr)
      && (if w.want.wr then a.desc.knotes.wr else a.desc.knotes.rd) == a.ok
      && (a.ok ==> a.desc.sides == if w.want.wr then Sides(d.sides.ins, [w] + d.sides.outs)
                                   else Sides([w] + d.sides.ins, d.sides.outs))
      && (!a.ok ==> a.desc.sides == d.sides && no1 && no2)
  {
    if !Unused(d.sides) {
      assert Get(d.armed, true) ==> Get(d.knotes, true);
      assert Get(d.armed, false) ==> Get(d.knotes, false);
    }
  }

  /** Over every run, whatever the kernel refuses, whoever waits on the descriptor has its knote. */
  lemma {:induction false} SaneAlways(d: Desc, steps: seq<Step>)
    requires Sane(d) && FairRun(d, steps)
    ensures Sane(Run(d, steps))
    decreases |steps|
  {
    if steps != [] {
      match steps[0] {
        case DoArm(w, no1, no2) => ArmSane(d, w, no1, no2);
        case DoDisarm(w) => DisarmSane(d, w);
        case DoEvent(writing) => EventSane(d, writing);
        case DoForget =>
        case Environment(_) =>
      }
      SaneAlways(Apply(d, steps[0]), steps[1..]);
    }
  }

  // ---- the backend -------------------------------------------------------

  datatype Slot = Slot(armed: Pair, sides: Sides)

  const ZEROED := Slot(Pair(false, false), Sides([], []))

  /** One knote that fired. */
  datatype Kevent = Kevent(fd: int, writing: bool)

  function Reports(evs: seq<Kevent>): (r: seq<Report>)
    ensures |r| == |evs|
    ensures forall i | 0 <= i < |evs| :: r[i] == Fired(evs[i].fd, evs[i].writing)
  {
    seq(|evs|, i requires 0 <= i < |evs| => Fired(evs[i].fd, evs[i].writing))
  }

  lemma ReportsApart(evs: seq<Kevent>)
    requires forall i, j | 0 <= i < j < |evs| :: evs[i] != evs[j]
    ensures OnePerSide(Reports(evs))
  {
  }

  /** One more event: its waiters join, and they still fit. */
  lemma OneMore(waiting: seq<Waiter>, index: int -> Sides, all: seq<Report>, i: nat)
    requires Indexed(waiting, index) && OnePerSide(all) && i < |all|
    ensures HandOver(index, all[..i + 1]) == HandOver(index, all[..i]) + Handed(index(all[i].fd), all[i])
    ensures |HandOver(index, all[..i + 1])| <= |waiting|
  {
    assert all[..i + 1] == all[..i] + [all[i]];
    HandOverSnoc(index, all[..i], all[i]);
    HandOverFits(waiting, index, all[..i + 1]);
  }

  /** What the knotes that fired for one descriptor do to it, one after the other. */
  function EventsOn(d: Desc, fd: int, evs: seq<Kevent>): Desc {
    if evs == [] then d
    else
      var e, last := EventsOn(d, fd, evs[..|evs| - 1]), evs[|evs| - 1];
      if last.fd == fd then Event(e, last.writing) else e
  }

  class Backend {
    var fds: array<Slot>
    var waiting: seq<Waiter>
    const pool: nat
    var knotes: map<int, Pair>

    ghost function SlotAt(fd: int): Slot
      reads this, fds
    {
      if 0 <= fd < fds.Length then fds[fd] else ZEROED
    }

    function KnotesAt(fd: int): Pair
      reads this
    {
      if fd in knotes then knotes[fd] else Pair(false, false)
    }

    ghost function DescAt(fd: int): Desc
      reads this, fds
    {
      Desc(SlotAt(fd).armed, SlotAt(fd).sides, KnotesAt(fd))
    }

    ghost function Index(): int -> Sides
      reads this, fds
    {
      var table := fds[..];
      (fd: int) => if 0 <= fd < |table| then table[fd].sides else Sides([], [])
    }

    ghost function Descs(): int -> Desc
      reads this, fds
    {
      var table, k := fds[..], knotes;
      (fd: int) => var slot := if 0 <= fd < |table| then table[fd] else ZEROED;
                   Desc(slot.armed, slot.sides, if fd in k then k[fd] else Pair(false, false))
    }

    lemma TableIs()
      ensures forall fd :: Descs()(fd) == DescAt(fd) && Index()(fd) == DescAt(fd).sides == SlotAt(fd).sides
    {
    }

    ghost predicate Parked()
      reads this
    {
      && (forall w :: Cnt(waiting, w) <= 1)
      && (forall i | 0 <= i < |waiting| :: waiting[i].fd >= 0)
      && |waiting| <= pool
    }

    /** The sides are waiting[] divided up, no op is parked twice, and of every descriptor whoever
        waits on it has its knote. */
    ghost predicate Valid()
      reads this, fds
    {
      Indexed(waiting, Index()) && Parked() && forall fd :: Sane(DescAt(fd))
    }

    /** One descriptor took a step, all others stay. */
    lemma StepSane(was: int -> Desc, fd: int, s: Step)
      requires (forall g :: Sane(was(g))) && Fair(was(fd), s)
      requires DescAt(fd) == Apply(was(fd), s) && forall g | g != fd :: DescAt(g) == was(g)
      ensures forall g :: Sane(DescAt(g))
    {
      SaneAlways(was(fd), [s]);
      assert Run(was(fd), [s]) == Apply(was(fd), s) by { assert [s][1..] == []; }
    }

    /** Nobody who is parked is forgotten: it has the knote of its direction, and when that fires it
        is handed over. */
    lemma NoneForgotten(w: Waiter)
      requires Valid() && w in waiting
      ensures Get(KnotesAt(w.fd), w.want.wr)
      ensures w in Handed(SlotAt(w.fd).sides, Fired(w.fd, w.want.wr))
    {
      TableIs();
      assert IndexAt(waiting, w.fd, Index()(w.fd), w);
      CntIn(waiting, w);
      CntIn(SideOf(SlotAt(w.fd).sides, w), w);
      NoLostWakeup(DescAt(w.fd), w);
    }

    constructor (pool: nat)
      ensures Valid() && fresh(fds) && this.pool == pool && waiting == []
      ensures forall fd :: DescAt(fd) == Desc(Pair(false, false), Sides([], []), Pair(false, false))
    {
      fds := new Slot[0];
      waiting := [];
      knotes := map[];
      this.pool := pool;
    }

    method Reach(fd: nat)
      modifies this`fds
      ensures fd < fds.Length && (fds == old(fds) || fresh(fds))
      ensures forall g :: SlotAt(g) == old(SlotAt(g)) && DescAt(g) == old(DescAt(g))
    {
      if fd < fds.Length { return; }
      var want := if fds.Length > 0 then fds.Length else 64;
      while want <= fd
        invariant want > 0 && want >= fds.Length
        decreases fd - want
      {
        want := want * 2;
      }
      var was := fds;
      var grown := new Slot[want](i requires 0 <= i < want reads this, was
                                => if i < was.Length then was[i] else ZEROED);
      fds := grown;
    }

    /** EV_ADD; on failure the knote is deleted first and added again. */
    method AddKnoteFor(fd: int, writing: bool, no1: bool, no2: bool) returns (ok: bool)
      modifies this`knotes
      ensures (KnotesAt(fd), ok) == AddKnote(old(KnotesAt(fd)), writing, no1, no2)
      ensures forall g | g != fd :: KnotesAt(g) == old(KnotesAt(g))
    {
      if !no1 {
        knotes := knotes[fd := Put(KnotesAt(fd), writing, true)];
        return true;
      }
      knotes := knotes[fd := Put(KnotesAt(fd), writing, false)];
      if !no2 {
        knotes := knotes[fd := Put(KnotesAt(fd), writing, true)];
        return true;
      }
      return false;
    }

    method ArmFd(w: Waiter, no1: bool, no2: bool) returns (ok: bool)
      requires 0 <= w.fd < fds.Length
      modifies this`knotes, fds
      ensures Armed(DescAt(w.fd), ok) == Arm(old(DescAt(w.fd)), w, no1, no2)
      ensures forall g | g != w.fd :: DescAt(g) == old(DescAt(g))
    {
      var slot := fds[w.fd];
      var armed := if Unused(slot.sides) then Pair(false, false) else slot.armed;
      var joined := Join(slot.sides, w);
      if Get(armed, w.want.wr) {
        fds[w.fd] := Slot(armed, joined);
        return true;
      }
      ok := AddKnoteFor(w.fd, w.want.wr, no1, no2);
      fds[w.fd] := if ok then Slot(Put(armed, w.want.wr, true), joined) else Slot(armed, slot.sides);
    }

    method Park(w: Waiter, no1: bool, no2: bool) returns (ok: bool)
      requires Valid() && Cnt(waiting, w) == 0 && |waiting| < pool
      modifies this`fds, this`waiting, this`knotes, fds
      ensures Valid() && (fds == old(fds) || fresh(fds))
      ensures waiting == old(waiting) + (if ok then [w] else [])
      ensures w.fd < 0 ==> !ok && forall g :: DescAt(g) == old(DescAt(g))
      ensures w.fd >= 0 ==> Armed(DescAt(w.fd), ok) == Arm(old(DescAt(w.fd)), w, no1, no2)
      ensures w.fd >= 0 ==> forall g | g != w.fd :: DescAt(g) == old(DescAt(g))
    {
      ghost var was := Descs();
      TableIs();
      if w.fd < 0 { return false; }
      Reach(w.fd);
      ok := ArmFd(w, no1, no2);
      if ok { waiting := waiting + [w]; }
      StepSane(was, w.fd, DoArm(w, no1, no2));
      Rejoined(old(waiting), w, ok, was);
    }

    lemma Rejoined(q: seq<Waiter>, w: Waiter, ok: bool, was: int -> Desc)
      requires Indexed(q, g => was(g).sides) && waiting == if ok then q + [w] else q
      requires DescAt(w.fd).sides == (if ok then Join(was(w.fd).sides, w) else was(w.fd).sides)
      requires forall g | g != w.fd :: DescAt(g) == was(g)
      requires Cnt(q, w) == 0 && (forall x :: Cnt(q, x) <= 1) && |q| < pool && w.fd >= 0
      requires forall i | 0 <= i < |q| :: q[i].fd >= 0
      ensures Indexed(waiting, Index()) && Parked()
    {
      TableIs();
      if ok { JoinTable(q, w, g => was(g).sides, Index()); } else { SameTable(q, g => was(g).sides, Index()); }
      forall x ensures Cnt(waiting, x) <= 1 { CntSnoc(q, w, x); }
    }

    /** disarm: one waiter fewer, the knotes untouched. */
    method Unpark(i: nat)
      requires Valid() && i < |waiting|
      modifies this`fds, this`waiting, fds
      ensures Valid() && (fds == old(fds) || fresh(fds))
      ensures waiting == SwapRemove(old(waiting), i)
      ensures var w := old(waiting)[i];
        && DescAt(w.fd) == Disarm(old(DescAt(w.fd)), w)
        && forall g | g != w.fd :: DescAt(g) == old(DescAt(g))
    {
      ghost var was := Descs();
      TableIs();
      var w := waiting[i];
      Reach(w.fd);
      fds[w.fd] := fds[w.fd].(sides := Leave(fds[w.fd].sides, w));
      waiting := SwapRemove(waiting, i);
      assert DescAt(w.fd) == Disarm(was(w.fd), w);
      StepSane(was, w.fd, DoDisarm(w));
      Left(old(waiting), i, was);
    }

    lemma Left(q: seq<Waiter>, i: nat, was: int -> Desc)
      requires i < |q| <= pool && Indexed(q, g => was(g).sides) && waiting == SwapRemove(q, i)
      requires DescAt(q[i].fd).sides == Leave(was(q[i].fd).sides, q[i])
      requires forall g | g != q[i].fd :: DescAt(g) == was(g)
      requires (forall x :: Cnt(q, x) <= 1) && forall i | 0 <= i < |q| :: q[i].fd >= 0
      ensures Indexed(waiting, Index()) && Parked()
    {
      TableIs();
      LeaveTable(q, i, g => was(g).sides, Index());
      forall x ensures Cnt(waiting, x) <= 1 { CntSwapRemove(q, i, x); }
    }

    /** Nothing was parked or unparked. */
    lemma Resided(was: int -> Sides)
      requires Indexed(waiting, was) && Parked() && forall g :: SlotAt(g).sides == was(g)
      ensures Indexed(waiting, Index())
    {
      TableIs();
      SameTable(waiting, was, Index());
    }

    /** The descriptor is closing; nobody may be parked on it. */
    method ForgetFd(fd: int)
      requires Valid() && Unused(SlotAt(fd).sides)
      modifies this`fds, fds
      ensures Valid() && (fds == old(fds) || fresh(fds))
      ensures fd >= 0 ==> DescAt(fd) == Desc(Pair(false, false), Sides([], []), old(DescAt(fd)).knotes)
      ensures forall g | g != fd :: DescAt(g) == old(DescAt(g))
    {
      ghost var was := Descs();
      ghost var index := Index();
      TableIs();
      if fd < 0 { return; }
      Reach(fd);
      fds[fd] := ZEROED;
      assert old(SlotAt(fd)).sides == Sides([], []);
      assert forall g | g != fd :: DescAt(g) == was(g);
      Resided(index);
      StepSane(was, fd, DoForget);
    }

    /** The world: a descriptor nobody waits on is closed, and its knotes with it, or names another
        file now. */
    method Reuse(fd: int, k: Pair)
      requires Valid() && Unused(SlotAt(fd).sides)
      modifies this`knotes
      ensures Valid() && DescAt(fd) == old(DescAt(fd)).(knotes := k)
      ensures forall g | g != fd :: DescAt(g) == old(DescAt(g))
    {
      ghost var was := Descs();
      ghost var index := Index();
      TableIs();
      knotes := knotes[fd := k];
      Resided(index);
      StepSane(was, fd, Environment(k));
    }

    method DropKnote(fd: int, writing: bool)
      requires 0 <= fd < fds.Length
      modifies this`knotes, fds
      ensures var d := old(DescAt(fd));
        DescAt(fd) == d.(armed := Put(d.armed, writing, false), knotes := Put(d.knotes, writing, false))
      ensures forall g | g != fd :: DescAt(g) == old(DescAt(g))
    {
      knotes := knotes[fd := Put(KnotesAt(fd), writing, false)];
      fds[fd] := fds[fd].(armed := Put(fds[fd].armed, writing, false));
    }

    lemma SidesStay(was: int -> Desc, fd: int, writing: bool)
      requires DescAt(fd) == Event(was(fd), writing) && forall g | g != fd :: DescAt(g) == was(g)
      ensures forall g :: SlotAt(g).sides == was(g).sides
    {
      forall g ensures SlotAt(g).sides == was(g).sides { assert DescAt(g).sides == SlotAt(g).sides; }
    }

    method HandleEvent(fd: int, writing: bool, ready: seq<Waiter>) returns (more: seq<Waiter>)
      requires Valid() && |ready| + |Side(SlotAt(fd).sides, writing)| <= pool && fd >= 0
      modifies this`fds, this`knotes, fds
      ensures Valid() && (fds == old(fds) || fresh(fds))
      ensures more == ready + Side(old(SlotAt(fd)).sides, writing)
      ensures DescAt(fd) == Event(old(DescAt(fd)), writing)
      ensures forall g | g != fd :: DescAt(g) == old(DescAt(g))
      ensures forall g :: SlotAt(g).sides == old(SlotAt(g)).sides
    {
      ghost var was := Descs();
      ghost var index := Index();
      TableIs();
      Reach(fd);
      more := TakeSide(Side(fds[fd].sides, writing), ready, pool);
      if |more| == |ready| { DropKnote(fd, writing); }
      assert DescAt(fd) == Event(was(fd), writing);
      SidesStay(was, fd, writing);
      Resided(index);
      StepSane(was, fd, DoEvent(writing));
    }

    /** Everything known after the first i knotes that fired: the sides are what they were, and each
        descriptor is what they made of it. */
    ghost predicate Handled(evs: seq<Kevent>, i: nat, was: int -> Desc, ready: seq<Waiter>)
      reads this, fds
    {
      && i <= |evs| && Valid()
      && ready == HandOver(g => was(g).sides, Reports(evs)[..i])
      && forall g :: DescAt(g) == EventsOn(was(g), g, evs[..i])
    }

    method HandleNext(evs: seq<Kevent>, i: nat, ghost was: int -> Desc, ready: seq<Waiter>) returns (more: seq<Waiter>)
      requires Handled(evs, i, was, ready) && i < |evs| && evs[i].fd >= 0
      requires OnePerSide(Reports(evs)) && Indexed(waiting, g => was(g).sides)
      modifies this`fds, this`knotes, fds
      ensures Handled(evs, i + 1, was, more) && (fds == old(fds) || fresh(fds))
    {
      assert evs[..i + 1][..i] == evs[..i];
      OneMore(waiting, g => was(g).sides, Reports(evs), i);
      SidesKept(was(evs[i].fd), evs[i].fd, evs[..i]);
      assert DescAt(evs[i].fd).sides == SlotAt(evs[i].fd).sides;
      more := HandleEvent(evs[i].fd, evs[i].writing, ready);
    }

    /** What a wait hands to the retry: the waiters of every knote that fired, none of them cut off
        by the size of ready[]. */
    method WaitReady(evs: seq<Kevent>, ghost was: int -> Desc) returns (ready: seq<Waiter>)
      requires Valid() && (forall i, j | 0 <= i < j < |evs| :: evs[i] != evs[j])
      requires forall k | 0 <= k < |evs| :: evs[k].fd >= 0
      requires forall g :: was(g) == DescAt(g)
      modifies this`fds, this`knotes, fds
      ensures Valid() && (fds == old(fds) || fresh(fds))
      ensures ready == HandOver(g => was(g).sides, Reports(evs)) && OnePerSide(Reports(evs))
      ensures forall g :: DescAt(g) == EventsOn(was(g), g, evs)
    {
      TableIs();
      SameTable(waiting, Index(), g => was(g).sides);
      ReportsApart(evs);
      ready := [];
      var i := 0;
      while i < |evs|
        invariant Handled(evs, i, was, ready) && waiting == old(waiting) && (fds == old(fds) || fresh(fds))
      {
        ready := HandleNext(evs, i, was, ready);
        i := i + 1;
      }
      assert Reports(evs)[..i] == Reports(evs) && evs[..i] == evs;
    }
  }

  lemma {:induction false} SidesKept(d: Desc, fd: int, evs: seq<Kevent>)
    ensures EventsOn(d, fd, evs).sides == d.sides
  {
    if evs != [] { SidesKept(d, fd, evs[..|evs| - 1]); }
  }
}
