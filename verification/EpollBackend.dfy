/** The epoll backend: waiters by descriptor, and a cached interest that is trusted only while
    somebody waits (src/engine_epoll.c). The kernel's set is part of the state; what the kernel
    answers, and descriptors closing and their numbers coming back, are inputs. */
module EpollBackend {
  import opened Lists
  import opened Readiness

  /** The kernel's registration of the file now behind a descriptor. */
  datatype Reg = Absent | Present(ev: Ev)

  datatype Call = Add | Mod

  /** epoll_ctl's answer: done, EEXIST, ENOENT, or any other errno. */
  datatype Err = Ok | Exists | NoEntry | Refused

  datatype CtlResult = CtlResult(reg: Reg, err: Err)

  function Ctl(k: Reg, call: Call, ev: Ev, refused: bool): CtlResult {
    if refused then CtlResult(k, Refused)
    else if call == Add && k.Present? then CtlResult(k, Exists)
    else if call == Mod && k.Absent? then CtlResult(k, NoEntry)
    else CtlResult(Present(ev), Ok)
  }

  /** One descriptor: the cached interest, its waiters, and the kernel's side of it. */
  datatype Desc = Desc(interest: Ev, sides: Sides, kernel: Reg)

  datatype Armed = Armed(desc: Desc, ok: bool)

  // ---- one descriptor ----------------------------------------------------

  function Other(call: Call): Call {
    if call == Add then Mod else Add
  }

  /** Adds or modifies, and does the other where the kernel knows better. */
  function Register(k: Reg, first: Call, ev: Ev, no1: bool, no2: bool): CtlResult {
    var a := Ctl(k, first, ev, no1);
    if a.err == Exists || a.err == NoEntry then Ctl(a.reg, Other(first), ev, no2) else a
  }

  function Arm(d: Desc, w: Waiter, no1: bool, no2: bool): Armed {
    var idle := Unused(d.sides);
    var e := d.(sides := Join(d.sides, w));
    if !idle && d.interest != NOTHING && Within(w.want, d.interest) then Armed(e, true)
    else
      var was := if idle then NOTHING else d.interest;
      var merged := Or(was, w.want);
      var a := Register(d.kernel, if was == NOTHING then Add else Mod, merged, no1, no2);
      if a.err == Ok then Armed(e.(interest := merged, kernel := a.reg), true)
      else Armed(d.(interest := NOTHING, kernel := a.reg), false)
  }

  function Disarm(d: Desc, w: Waiter): Desc {
    d.(sides := Leave(d.sides, w))
  }

  /** The reported directions that no waiter is on. */
  function Unwanted(d: Desc, r: Report): Ev {
    if r.broken && Unused(d.sides) then d.interest
    else Ev(r.ev.rd && d.sides.ins == [], r.ev.wr && d.sides.outs == [], r.ev.rd && d.sides.ins == [])
  }

  function Quiet(d: Desc, unwanted: Ev, no: bool): Desc {
    var left := Minus(d.interest, unwanted);
    if left == NOTHING then d.(interest := NOTHING, kernel := Absent)
    else
      var a := Ctl(d.kernel, Mod, left, no);
      if a.err == Ok then d.(interest := left, kernel := a.reg) else d
  }

  function Event(d: Desc, r: Report, no: bool): Desc {
    var u := Unwanted(d, r);
    if u == NOTHING then d else Quiet(d, u, no)
  }

  function Forget(d: Desc): Desc {
    d.(interest := NOTHING, sides := Sides([], []))
  }

  // ---- what keeps a wakeup from being lost -------------------------------

  ghost predicate Parked(d: Desc, w: Waiter) {
    w in d.sides.ins || w in d.sides.outs
  }

  /** While anybody waits, the cache says what the kernel says, and that covers what everybody
      waits for. */
  ghost predicate Sane(d: Desc) {
    && (!Unused(d.sides) ==> d.kernel == Present(d.interest))
    && (forall w | Parked(d, w) :: Within(w.want, d.interest))
  }

  /** Every waiter asks for one side alone and sits on it. */
  ghost predicate Sorted(d: Desc) {
    && (forall w | w in d.sides.ins :: OneSided(w) && !w.want.wr)
    && (forall w | w in d.sides.outs :: OneSided(w) && w.want.wr)
  }

  /** A parked op whose direction is ready is handed over by what a level-triggered kernel
      reports: no wakeup is lost. */
  lemma NoLostWakeup(d: Desc, w: Waiter, level: Ev)
    requires Sane(d) && Sorted(d) && Parked(d, w)
    requires if w.want.wr then level.wr else w.want.rd && level.rd
    ensures d.kernel.Present? && w in Handed(d.sides, Report(w.fd, And(level, d.kernel.ev), false))
  {
    assert Within(w.want, d.interest);
  }

  lemma JoinParked(d: Desc, w: Waiter, x: Waiter)
    ensures x in Join(d.sides, w).ins || x in Join(d.sides, w).outs <==> x == w || Parked(d, x)
    ensures !Unused(Join(d.sides, w))
  {
  }

  /** The kernel has the registration while somebody waits, so it is a modification and it can
      only fail by a refusal. */
  lemma ArmTaken(d: Desc, w: Waiter, no1: bool, no2: bool)
    requires Sane(d) && w.want != NOTHING && forall x | Parked(d, x) :: x.want != NOTHING
    requires !Unused(d.sides)
    ensures Arm(d, w, no1, no2).ok <==> Within(w.want, d.interest) || !no1
  {
    var x := if d.sides.ins != [] then d.sides.ins[0] else d.sides.outs[0];
    assert Parked(d, x) && Within(x.want, d.interest);
  }

  /** When arming leaves everybody registered: nobody was waiting, or the cache covers the op
      already, or the kernel does not refuse. */
  predicate Heeded(d: Desc, w: Waiter, no1: bool) {
    Unused(d.sides) || Within(w.want, d.interest) || !no1
  }

  /** Arming keeps this exactly then: a refusal with somebody parked zeroes a cache that was true. */
  lemma ArmExact(d: Desc, w: Waiter, no1: bool, no2: bool)
    requires Sane(d) && w.want != NOTHING && forall x | Parked(d, x) :: x.want != NOTHING
    ensures Sane(Arm(d, w, no1, no2).desc) <==> Heeded(d, w, no1)
  {
    var a := Arm(d, w, no1, no2);
    forall x ensures x in Join(d.sides, w).ins || x in Join(d.sides, w).outs <==> x == w || Parked(d, x) {
      JoinParked(d, w, x);
    }
    if !Unused(d.sides) { ArmTaken(d, w, no1, no2); }
    if a.ok {
      assert forall x | Parked(d, x) :: Within(x.want, d.interest);
    } else if !Unused(d.sides) {
      var x := if d.sides.ins != [] then d.sides.ins[0] else d.sides.outs[0];
      assert Parked(d, x) && Parked(a.desc, x) && !Within(x.want, NOTHING);
    }
  }

  /** What such a refusal leads to: the next op to wait for the other direction overwrites the
      registration, and the first one is never woken. */
  lemma RefusalLosesWakeup(d: Desc, x: Waiter, w: Waiter, y: Waiter, no2: bool)
    requires Sane(d) && d.sides == Sides([x], []) && x.want == READ && d.interest == READ
    requires w.want == WRITE && y.want == WRITE
    ensures var a := Arm(d, w, true, no2);
      && !a.ok
      && var b := Arm(a.desc, y, false, false);
      b.ok && Parked(b.desc, x) && b.desc.kernel == Present(WRITE)
  {
    var a := Arm(d, w, true, no2).desc;
    assert a == Desc(NOTHING, Sides([x], []), Present(READ));
  }

  lemma DisarmSane(d: Desc, w: Waiter)
    requires Sane(d)
    ensures Sane(Disarm(d, w)) && (Sorted(d) ==> Sorted(Disarm(d, w)))
  {
    forall x ensures Parked(Disarm(d, w), x) ==> Parked(d, x) { }
    forall x ensures x in Leave(d.sides, w).ins ==> x in d.sides.ins { }
    forall x ensures x in Leave(d.sides, w).outs ==> x in d.sides.outs { }
  }

  /** Whether quieting the sides nobody waits on takes a direction from somebody who does. */
  ghost predicate TakesFrom(d: Desc, r: Report, w: Waiter) {
    And(w.want, Unwanted(d, r)) != NOTHING
  }

  /** A report keeps it exactly when no waiter wants a reported direction that has nobody on its
      side, or the kernel refuses to narrow the registration. */
  lemma EventExact(d: Desc, r: Report, no: bool)
    requires Sane(d) && !Unused(d.sides) && forall x | Parked(d, x) :: x.want != NOTHING
    ensures var e := Event(d, r, no);
      Sane(e) <==>
        ((no && Minus(d.interest, Unwanted(d, r)) != NOTHING) || forall w | Parked(d, w) :: !TakesFrom(d, r, w))
  {
    var e := Event(d, r, no);
    var u := Unwanted(d, r);
    assert forall w :: Parked(e, w) == Parked(d, w);
    if e != d {
      forall w | Parked(d, w)
        ensures Within(w.want, d.interest)
        ensures Within(w.want, Minus(d.interest, u)) <==> !TakesFrom(d, r, w)
      {
      }
      var x := if d.sides.ins != [] then d.sides.ins[0] else d.sides.outs[0];
      assert Parked(d, x);
    }
  }

  /** The directions the kernel reports. */
  function Heard(k: Reg): Ev {
    if k.Present? then k.ev else NOTHING
  }

  /** What a report takes off the registration, if the kernel does as it is told: reading, and out-of-band
      data with it, when nobody waits to read; writing when nobody waits to write; everything after an
      error with nobody there at all. Nothing else goes. */
  lemma EventQuiets(d: Desc, r: Report)
    requires d.kernel == Present(d.interest)
    ensures var e, gone := Event(d, r, false), r.broken && d.sides.ins == [] && d.sides.outs == [];
      && e.sides == d.sides
      && Heard(e.kernel).rd == (d.interest.rd && !(r.ev.rd && d.sides.ins == []) && !gone)
      && Heard(e.kernel).pri == (d.interest.pri && !(r.ev.rd && d.sides.ins == []) && !gone)
      && Heard(e.kernel).wr == (d.interest.wr && !(r.ev.wr && d.sides.outs == []) && !gone)
      && Heard(e.kernel) == e.interest
  {
  }

  /** What arming asks the kernel for: what the op waits for, beside what others on the descriptor may
      still wait for, and nothing it asked for while somebody else had the number. */
  lemma ArmAsks(d: Desc, w: Waiter, no1: bool, no2: bool)
    requires Sane(d) && w.want != NOTHING
    ensures var a, idle := Arm(d, w, no1, no2), d.sides.ins == [] && d.sides.outs == [];
      && (a.ok ==>
            && a.desc.interest.rd == (w.want.rd || (!idle && d.interest.rd))
            && a.desc.interest.wr == (w.want.wr || (!idle && d.interest.wr))
            && a.desc.interest.pri == (w.want.pri || (!idle && d.interest.pri))
            && a.desc.kernel == Present(a.desc.interest)
            && a.desc.sides == if w.want.wr then Sides(d.sides.ins, [w] + d.sides.outs)
                               else Sides([w] + d.sides.ins, d.sides.outs))
      && (!a.ok ==> a.desc.sides == d.sides && a.desc.kernel == d.kernel)
  {
  }

  /** For ops that ask for one side that is always so. */
  lemma EventSane(d: Desc, r: Report, no: bool)
    requires Sane(d) && Sorted(d)
    ensures Sane(Event(d, r, no)) && Sorted(Event(d, r, no))
  {
    if !Unused(d.sides) {
      forall x | Parked(d, x) ensures x.want != NOTHING && !TakesFrom(d, r, x) { }
      EventExact(d, r, no);
    }
  }

  /** An op that asks for both directions sits on the out side: a report of the other one hands
      over nobody and takes the direction off the registration. */
  lemma BothDirectionsLoseOne(d: Desc, w: Waiter)
    requires Sane(d) && d.sides == Sides([], [w]) && w.want == Ev(true, true, false) && d.interest == w.want
    ensures var r := Report(w.fd, READ, false);
      && Handed(d.sides, r) == []
      && Event(d, r, false).kernel == Present(WRITE) && Parked(Event(d, r, false), w)
  {
  }

  /** EPOLLPRI changes neither who a report hands over nor what it quiets: whoever waits for
      out-of-band data alone is woken by an ordinary byte or an error. */
  lemma OutOfBandUnheard(d: Desc, r: Report, pri: bool, no: bool)
    ensures var s := r.(ev := r.ev.(pri := pri));
      Handed(d.sides, s) == Handed(d.sides, r) && Event(d, s, no) == Event(d, r, no)
    ensures forall w: Waiter | w.want == Ev(false, false, true) ::
      HandedBy(w, r) <==> w.fd == r.fd && (r.ev.rd || r.broken)
  {
  }

  // ---- runs --------------------------------------------------------------

  datatype Step =
    | DoArm(w: Waiter, no1: bool, no2: bool)
    | DoDisarm(w: Waiter)
    | DoEvent(r: Report, no: bool)
    | DoForget
    | Environment(kernel: Reg)

  /** Ops ask for one side; no new direction is refused while somebody waits; a descriptor closes, and its
      number comes back, only while nobody waits on it. */
  ghost predicate Fair(d: Desc, s: Step) {
    match s
    case DoArm(w, no1, _) => OneSided(w) && Heeded(d, w, no1)
    case DoDisarm(_) => true
    case DoEvent(_, _) => true
    case DoForget => Unused(d.sides)
    case Environment(_) => Unused(d.sides)
  }

  function Apply(d: Desc, s: Step): Desc {
    match s
    case DoArm(w, no1, no2) => Arm(d, w, no1, no2).desc
    case DoDisarm(w) => Disarm(d, w)
    case DoEvent(r, no) => Event(d, r, no)
    case DoForget => Forget(d)
    case Environment(k) => d.(kernel := k)
  }

  ghost predicate FairRun(d: Desc, steps: seq<Step>)
    decreases |steps|
  {
    steps == [] || (Fair(d, steps[0]) && FairRun(Apply(d, steps[0]), steps[1..]))
  }

  function Run(d: Desc, steps: seq<Step>): Desc
    decreases |steps|
  {
    if steps == [] then d else Run(Apply(d, steps[0]), steps[1..])
  }

  lemma StepSane(d: Desc, s: Step)
    requires Sane(d) && Sorted(d) && Fair(d, s)
    ensures Sane(Apply(d, s)) && Sorted(Apply(d, s))
  {
    match s
    case DoArm(w, no1, no2) =>
      forall x | Parked(d, x) ensures x.want != NOTHING { }
      ArmExact(d, w, no1, no2);
    case DoDisarm(w) => DisarmSane(d, w);
    case DoEvent(r, no) => EventSane(d, r, no);
    case DoForget =>
    case Environment(_) =>
  }

  const FRESH := Desc(NOTHING, Sides([], []), Absent)

  /** Over every fair run of arming, disarming, reports, closing and reuse, whoever waits on the
      descriptor is registered for what it waits for. */
  lemma {:induction false} SaneAlways(d: Desc, steps: seq<Step>)
    requires Sane(d) && Sorted(d) && FairRun(d, steps)
    ensures Sane(Run(d, steps)) && Sorted(Run(d, steps))
    decreases |steps|
  {
    if steps != [] {
      StepSane(d, steps[0]);
      SaneAlways(Apply(d, steps[0]), steps[1..]);
    }
  }

  /** epoll reports each descriptor once. */
  ghost predicate OnePerFd(reports: seq<Report>) {
    forall i, j | 0 <= i < j < |reports| :: reports[i].fd != reports[j].fd
  }

  /** What a wait's reports do to one descriptor; `no` says which narrowing the kernel refuses. */
  function ReportsOn(d: Desc, fd: int, reports: seq<Report>, no: seq<bool>): Desc
    requires |no| == |reports|
  {
    if reports == [] then d
    else
      var n := |reports| - 1;
      var e := ReportsOn(d, fd, reports[..n], no[..n]);
      if reports[n].fd == fd then Event(e, reports[n], no[n]) else e
  }

  lemma {:induction false} SidesKept(d: Desc, fd: int, reports: seq<Report>, no: seq<bool>)
    requires |no| == |reports|
    ensures ReportsOn(d, fd, reports, no).sides == d.sides
  {
    if reports != [] { SidesKept(d, fd, reports[..|reports| - 1], no[..|reports| - 1]); }
  }

  // ---- the backend -------------------------------------------------------

  datatype Slot = Slot(interest: Ev, sides: Sides)

  const ZEROED := Slot(NOTHING, Sides([], []))

  class Backend {
    var fds: array<Slot>
    var waiting: seq<Waiter>
    const pool: nat
    var kernel: map<int, Ev>

    ghost function SlotAt(fd: int): Slot
      reads this, fds
    {
      if 0 <= fd < fds.Length then fds[fd] else ZEROED
    }

    ghost function DescAt(fd: int): Desc
      reads this, fds
    {
      Desc(SlotAt(fd).interest, SlotAt(fd).sides, if fd in kernel then Present(kernel[fd]) else Absent)
    }

    ghost function Index(): int -> Sides
      reads this, fds
    {
      var table := fds[..];
      (fd: int) => if 0 <= fd < |table| then table[fd].sides else Sides([], [])
    }

    ghost function Descs(): int -> Desc
      reads this, fds
    {
      var table, regs := fds[..], kernel;
      (fd: int) => var slot := if 0 <= fd < |table| then table[fd] else ZEROED;
                   Desc(slot.interest, slot.sides, if fd in regs then Present(regs[fd]) else Absent)
    }

    lemma TableIs()
      ensures forall fd :: Descs()(fd) == DescAt(fd) && Index()(fd) == DescAt(fd).sides == SlotAt(fd).sides
    {
    }

    /** The sides are waiting[] divided up, and no op is parked twice. */
    ghost predicate Valid()
      reads this, fds
    {
      && Indexed(waiting, Index())
      && (forall w :: Cnt(waiting, w) <= 1)
      && (forall i | 0 <= i < |waiting| :: waiting[i].fd >= 0)
      && |waiting| <= pool
    }

    /** Of every descriptor: whoever waits on it is registered for what it waits for. */
    ghost predicate Wakeful()
      reads this, fds
    {
      forall fd :: Sane(DescAt(fd)) && Sorted(DescAt(fd))
    }

    /** One descriptor took a fair step, all others stay. */
    lemma StepWakeful(was: int -> Desc, fd: int, s: Step)
      requires (forall g :: Sane(was(g)) && Sorted(was(g))) && Fair(was(fd), s)
      requires DescAt(fd) == Apply(was(fd), s) && forall g | g != fd :: DescAt(g) == was(g)
      ensures Wakeful()
    {
      StepSane(was(fd), s);
    }

    /** Nobody who is parked is forgotten: if its direction is ready, the kernel reports it, and the
        descriptor hands it over. */
    lemma NoneForgotten(w: Waiter, level: Ev)
      requires Valid() && Wakeful() && w in waiting
      requires if w.want.wr then level.wr else w.want.rd && level.rd
      ensures DescAt(w.fd).kernel.Present?
      ensures w in Handed(SlotAt(w.fd).sides, Report(w.fd, And(level, DescAt(w.fd).kernel.ev), false))
    {
      TableIs();
      assert IndexAt(waiting, w.fd, Index()(w.fd), w);
      CntIn(waiting, w);
      CntIn(SideOf(SlotAt(w.fd).sides, w), w);
      NoLostWakeup(DescAt(w.fd), w, level);
    }

    constructor (pool: nat)
      ensures Valid() && fresh(fds) && this.pool == pool && waiting == []
      ensures (forall fd :: DescAt(fd) == FRESH) && Wakeful()
    {
      fds := new Slot[0];
      waiting := [];
      kernel := map[];
      this.pool := pool;
    }

    /** The table grows by doubling until it holds the descriptor. */
    method Reach(fd: nat)
      modifies this`fds
      ensures fd < fds.Length && (fds == old(fds) || fresh(fds))
      ensures forall g :: SlotAt(g) == old(SlotAt(g)) && DescAt(g) == old(DescAt(g))
    {
      if fd < fds.Length { return; }
      var want := if fds.Length > 0 then fds.Length else 64;
      while want <= fd
        invariant want > 0 && want >= fds.Length
        decreases fd - want
      {
        want := want * 2;
      }
      var was := fds;
      var grown := new Slot[want](i requires 0 <= i < want reads this, was
                                => if i < was.Length then was[i] else ZEROED);
      fds := grown;
    }

    /** epoll_ctl: what it does to the kernel's set. */
    method CtlCall(fd: int, call: Call, ev: Ev, refused: bool) returns (err: Err)
      modifies this`kernel
      ensures CtlResult(DescAt(fd).kernel, err) == Ctl(old(DescAt(fd)).kernel, call, ev, refused)
      ensures forall g | g != fd :: DescAt(g) == old(DescAt(g))
    {
      if refused { return Refused; }
      if call == Add && fd in kernel { return Exists; }
      if call == Mod && fd !in kernel { return NoEntry; }
      kernel := kernel[fd := ev];
      return Ok;
    }

    method RegisterFd(fd: int, first: Call, ev: Ev, no1: bool, no2: bool) returns (ok: bool)
      modifies this`kernel
      ensures var a := Register(old(DescAt(fd)).kernel, first, ev, no1, no2);
        DescAt(fd).kernel == a.reg && ok == (a.err == Ok)
      ensures forall g | g != fd :: DescAt(g) == old(DescAt(g))
    {
      var err := CtlCall(fd, first, ev, no1);
      if err == Exists || err == NoEntry { err := CtlCall(fd, Other(first), ev, no2); }
      return err == Ok;
    }

    method ArmFd(w: Waiter, no1: bool, no2: bool) returns (ok: bool)
      requires 0 <= w.fd < fds.Length
      modifies this`kernel, fds
      ensures Armed(DescAt(w.fd), ok) == Arm(old(DescAt(w.fd)), w, no1, no2)
      ensures forall g | g != w.fd :: DescAt(g) == old(DescAt(g))
    {
      var slot := fds[w.fd];
      var idle := Unused(slot.sides);
      var joined := Join(slot.sides, w);
      if !idle && slot.interest != NOTHING && Within(w.want, slot.interest) {
        fds[w.fd] := slot.(sides := joined);
        return true;
      }
      var was := if idle then NOTHING else slot.interest;
      ok := RegisterFd(w.fd, if was == NOTHING then Add else Mod, Or(was, w.want), no1, no2);
      fds[w.fd] := if ok then Slot(Or(was, w.want), joined) else slot.(interest := NOTHING);
    }

    /** park: the backend is armed, then the op joins waiting[]. */
    method Park(w: Waiter, no1: bool, no2: bool) returns (ok: bool)
      requires Valid() && Cnt(waiting, w) == 0 && |waiting| < pool
      modifies this`fds, this`waiting, this`kernel, fds
      ensures Valid() && (fds == old(fds) || fresh(fds))
      ensures waiting == old(waiting) + (if ok then [w] else [])
      ensures w.fd < 0 ==> !ok && forall g :: DescAt(g) == old(DescAt(g))
      ensures w.fd >= 0 ==> Armed(DescAt(w.fd), ok) == Arm(old(DescAt(w.fd)), w, no1, no2)
      ensures w.fd >= 0 ==> forall g | g != w.fd :: DescAt(g) == old(DescAt(g))
      ensures old(Wakeful() && OneSided(w) && Heeded(DescAt(w.fd), w, no1)) ==> Wakeful()
    {
      ghost var was := Descs();
      TableIs();
      if w.fd < 0 { return false; }
      Reach(w.fd);
      ok := ArmFd(w, no1, no2);
      if ok { waiting := waiting + [w]; }
      Rejoined(old(waiting), w, ok, was);
      if old(Wakeful() && OneSided(w) && Heeded(DescAt(w.fd), w, no1)) {
        StepWakeful(was, w.fd, DoArm(w, no1, no2));
      }
    }

    lemma Rejoined(q: seq<Waiter>, w: Waiter, ok: bool, was: int -> Desc)
      requires Indexed(q, g => was(g).sides) && waiting == if ok then q + [w] else q
      requires DescAt(w.fd).sides == (if ok then Join(was(w.fd).sides, w) else was(w.fd).sides)
      requires forall g | g != w.fd :: DescAt(g) == was(g)
      requires Cnt(q, w) == 0 && (forall x :: Cnt(q, x) <= 1) && |q| < pool && w.fd >= 0
      requires forall i | 0 <= i < |q| :: q[i].fd >= 0
      ensures Valid()
    {
      TableIs();
      if ok { JoinTable(q, w, g => was(g).sides, Index()); } else { SameTable(q, g => was(g).sides, Index()); }
      forall x ensures Cnt(waiting, x) <= 1 { CntSnoc(q, w, x); }
    }

    /** unpark: the op leaves waiting[], then its side; the registration stays. */
    method Unpark(i: nat)
      requires Valid() && i < |waiting|
      modifies this`fds, this`waiting, fds
      ensures Valid() && (fds == old(fds) || fresh(fds))
      ensures waiting == SwapRemove(old(waiting), i)
      ensures var w := old(waiting)[i];
        && DescAt(w.fd) == Disarm(old(DescAt(w.fd)), w)
        && forall g | g != w.fd :: DescAt(g) == old(DescAt(g))
      ensures old(Wakeful()) ==> Wakeful()
    {
      ghost var was := Descs();
      TableIs();
      var w := waiting[i];
      Reach(w.fd);
      fds[w.fd] := fds[w.fd].(sides := Leave(fds[w.fd].sides, w));
      waiting := SwapRemove(waiting, i);
      assert DescAt(w.fd) == Disarm(was(w.fd), w);
      Left(old(waiting), i, was);
      if old(Wakeful()) { StepWakeful(was, w.fd, DoDisarm(w)); }
    }

    lemma Left(q: seq<Waiter>, i: nat, was: int -> Desc)
      requires i < |q| <= pool && Indexed(q, g => was(g).sides) && waiting == SwapRemove(q, i)
      requires DescAt(q[i].fd).sides == Leave(was(q[i].fd).sides, q[i])
      requires forall g | g != q[i].fd :: DescAt(g) == was(g)
      requires (forall x :: Cnt(q, x) <= 1) && forall i | 0 <= i < |q| :: q[i].fd >= 0
      ensures Valid()
    {
      TableIs();
      LeaveTable(q, i, g => was(g).sides, Index());
      forall x ensures Cnt(waiting, x) <= 1 { CntSwapRemove(q, i, x); }
    }

    /** Nothing was parked or unparked. */
    lemma Resided(was: int -> Sides)
      requires Indexed(waiting, was) && (forall g :: SlotAt(g).sides == was(g))
      requires (forall x :: Cnt(waiting, x) <= 1) && (forall i | 0 <= i < |waiting| :: waiting[i].fd >= 0)
      requires |waiting| <= pool
      ensures Valid()
    {
      TableIs();
      SameTable(waiting, was, Index());
    }

    /** The descriptor is closing; nobody may be parked on it. */
    method ForgetFd(fd: int)
      requires Valid() && Unused(SlotAt(fd).sides)
      modifies this`fds, fds
      ensures Valid() && (fds == old(fds) || fresh(fds))
      ensures fd >= 0 ==> DescAt(fd) == Desc(NOTHING, Sides([], []), old(DescAt(fd)).kernel)
      ensures forall g | g != fd :: DescAt(g) == old(DescAt(g))
      ensures old(Wakeful()) ==> Wakeful()
    {
      ghost var was := Descs();
      ghost var index := Index();
      TableIs();
      if fd < 0 { return; }
      Reach(fd);
      fds[fd] := ZEROED;
      assert old(SlotAt(fd)).sides == Sides([], []);
      assert forall g | g != fd :: DescAt(g) == was(g);
      Resided(index);
      if old(Wakeful()) { StepWakeful(was, fd, DoForget); }
    }

    /** The world: a descriptor nobody waits on is closed, or names another file now. */
    method Reuse(fd: int, k: Reg)
      requires Valid() && Unused(SlotAt(fd).sides)
      modifies this`kernel
      ensures Valid() && DescAt(fd) == old(DescAt(fd)).(kernel := k)
      ensures forall g | g != fd :: DescAt(g) == old(DescAt(g))
      ensures old(Wakeful()) ==> Wakeful()
    {
      ghost var was := Descs();
      ghost var index := Index();
      TableIs();
      kernel := if k.Present? then kernel[fd := k.ev] else map g | g in kernel && g != fd :: kernel[g];
      Resided(index);
      if old(Wakeful()) { StepWakeful(was, fd, Environment(k)); }
    }

    // ---- the wait ----------------------------------------------------------

    method QuietFd(fd: int, unwanted: Ev, no: bool)
      requires 0 <= fd < fds.Length
      modifies this`kernel, fds
      ensures DescAt(fd) == Quiet(old(DescAt(fd)), unwanted, no)
      ensures forall g | g != fd :: DescAt(g) == old(DescAt(g))
    {
      var left := Minus(fds[fd].interest, unwanted);
      if left == NOTHING {
        kernel := map g | g in kernel && g != fd :: kernel[g];
        fds[fd] := fds[fd].(interest := NOTHING);
        return;
      }
      var err := CtlCall(fd, Mod, left, no);
      if err == Ok { fds[fd] := fds[fd].(interest := left); }
    }

    method HandleReport(r: Report, no: bool, ready: seq<Waiter>) returns (more: seq<Waiter>)
      requires Valid() && |ready| + |Handed(SlotAt(r.fd).sides, r)| <= pool
      modifies this`fds, this`kernel, fds
      ensures Valid() && (fds == old(fds) || fresh(fds))
      ensures r.fd >= 0 ==> more == ready + Handed(old(SlotAt(r.fd)).sides, r)
      ensures r.fd < 0 ==> more == ready
      ensures r.fd >= 0 ==> DescAt(r.fd) == Event(old(DescAt(r.fd)), r, no)
      ensures forall g | g != r.fd || r.fd < 0 :: DescAt(g) == old(DescAt(g))
      ensures forall g :: SlotAt(g).sides == old(SlotAt(g)).sides
      ensures old(Wakeful()) ==> Wakeful()
    {
      ghost var was := Descs();
      ghost var index := Index();
      TableIs();
      more := ready;
      if r.fd < 0 { return; }
      Reach(r.fd);
      var slot := fds[r.fd];
      more := CollectSlot(slot, r, more);
      QuietEmpty(r, no);
      SidesStay(was, r, no);
      Resided(index);
      if old(Wakeful()) { StepWakeful(was, r.fd, DoEvent(r, no)); }
    }

    lemma SidesStay(was: int -> Desc, r: Report, no: bool)
      requires DescAt(r.fd) == Event(was(r.fd), r, no) && forall g | g != r.fd :: DescAt(g) == was(g)
      ensures forall g :: SlotAt(g).sides == was(g).sides
    {
      forall g ensures SlotAt(g).sides == was(g).sides { assert DescAt(g).sides == SlotAt(g).sides; }
    }

    method CollectSlot(slot: Slot, r: Report, ready: seq<Waiter>) returns (more: seq<Waiter>)
      requires |ready| + |Handed(slot.sides, r)| <= pool
      ensures more == ready + Handed(slot.sides, r)
    {
      more := ready;
      if r.ev.rd || r.broken { more := TakeSide(slot.sides.ins, more, pool); }
      if r.ev.wr || r.broken { more := TakeSide(slot.sides.outs, more, pool); }
    }

    /** Reported directions without a waiter are taken off the registration. */
    method QuietEmpty(r: Report, no: bool)
      requires 0 <= r.fd < fds.Length
      modifies this`kernel, fds
      ensures DescAt(r.fd) == Event(old(DescAt(r.fd)), r, no)
      ensures forall g | g != r.fd :: DescAt(g) == old(DescAt(g))
    {
      var slot := fds[r.fd];
      var unwanted := Ev(r.ev.rd && slot.sides.ins == [], r.ev.wr && slot.sides.outs == [],
                         r.ev.rd && slot.sides.ins == []);
      if r.broken && Unused(slot.sides) { unwanted := slot.interest; }
      if unwanted != NOTHING { QuietFd(r.fd, unwanted, no); }
    }

    /** Everything known after the first i reports: their waiters are collected, and each descriptor
        is what they made of it. */
    ghost predicate Handled(reports: seq<Report>, no: seq<bool>, i: nat, was: int -> Desc, ready: seq<Waiter>)
      reads this, fds
    {
      && i <= |reports| == |no| && Valid()
      && ready == HandOver(g => was(g).sides, reports[..i])
      && forall g :: DescAt(g) == ReportsOn(was(g), g, reports[..i], no[..i])
    }

    lemma OneMore(reports: seq<Report>, no: seq<bool>, i: nat, was: int -> Desc, ready: seq<Waiter>)
      requires Handled(reports, no, i, was, ready) && i < |reports| && OnePerFd(reports)
      ensures ready + Handed(SlotAt(reports[i].fd).sides, reports[i]) == HandOver(g => was(g).sides, reports[..i + 1])
      ensures |ready| + |Handed(SlotAt(reports[i].fd).sides, reports[i])| <= pool
    {
      var index := (g: int) => was(g).sides;
      TableIs();
      forall g ensures Index()(g) == index(g) {
        SidesKept(was(g), g, reports[..i], no[..i]);
        assert DescAt(g).sides == SlotAt(g).sides;
      }
      SameTable(waiting, Index(), index);
      assert reports[..i + 1] == reports[..i] + [reports[i]];
      HandOverSnoc(index, reports[..i], reports[i]);
      HandOverFits(waiting, index, reports[..i + 1]);
    }

    method HandleNext(reports: seq<Report>, no: seq<bool>, i: nat, ghost was: int -> Desc, ready: seq<Waiter>)
      returns (more: seq<Waiter>)
      requires Handled(reports, no, i, was, ready) && i < |reports| && OnePerFd(reports) && reports[i].fd >= 0
      modifies this`fds, this`kernel, fds
      ensures Handled(reports, no, i + 1, was, more) && (fds == old(fds) || fresh(fds))
      ensures old(Wakeful()) ==> Wakeful()
    {
      OneMore(reports, no, i, was, ready);
      assert reports[..i + 1][..i] == reports[..i] && no[..i + 1][..i] == no[..i];
      more := HandleReport(reports[i], no[i], ready);
    }

    /** What a wait hands to the retry: the waiters of every reported descriptor, none of them cut
        off by the size of ready[]. */
    method WaitReady(reports: seq<Report>, no: seq<bool>, ghost was: int -> Desc) returns (ready: seq<Waiter>)
      requires Valid() && |no| == |reports| && OnePerFd(reports)
      requires forall k | 0 <= k < |reports| :: reports[k].fd >= 0
      requires forall g :: was(g) == DescAt(g)
      modifies this`fds, this`kernel, fds
      ensures Valid() && (fds == old(fds) || fresh(fds))
      ensures ready == HandOver(g => was(g).sides, reports)
      ensures forall g :: DescAt(g) == ReportsOn(was(g), g, reports, no)
      ensures old(Wakeful()) ==> Wakeful()
    {
      ready := [];
      var i := 0;
      while i < |reports|
        invariant Handled(reports, no, i, was, ready) && waiting == old(waiting)
        invariant (fds == old(fds) || fresh(fds)) && (old(Wakeful()) ==> Wakeful())
      {
        ready := HandleNext(reports, no, i, was, ready);
        i := i + 1;
      }
      assert reports[..i] == reports && no[..i] == no;
    }
  }
}
