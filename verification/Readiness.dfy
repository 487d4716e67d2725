/** What the readiness backends have in common: parked ops by descriptor and direction, and
    which of them a report of ready descriptors wakes (src/engine_select.c). */
module Readiness {
  import opened Lists

  /** POLLIN, POLLOUT and POLLPRI, as asked for, registered or reported. */
  datatype Ev = Ev(rd: bool, wr: bool, pri: bool)

  const NOTHING := Ev(false, false, false)
  const READ := Ev(true, false, false)
  const WRITE := Ev(false, true, false)

  function Or(a: Ev, b: Ev): Ev { Ev(a.rd || b.rd, a.wr || b.wr, a.pri || b.pri) }

  function And(a: Ev, b: Ev): Ev { Ev(a.rd && b.rd, a.wr && b.wr, a.pri && b.pri) }

  function Minus(a: Ev, b: Ev): Ev { Ev(a.rd && !b.rd, a.wr && !b.wr, a.pri && !b.pri) }

  predicate Within(a: Ev, b: Ev) { Minus(a, b) == NOTHING }

  /** A parked op: its slot in the pool, its descriptor and its wait_events. */
  datatype Waiter = Waiter(op: int, fd: int, want: Ev)

  /** It asks for writing alone, or for reading or out-of-band data alone. */
  predicate OneSided(w: Waiter) { w.want == WRITE || (!w.want.wr && w.want != NOTHING) }

  /** What a wait reports of one descriptor; an error or a hangup is `broken`. */
  datatype Report = Report(fd: int, ev: Ev, broken: bool)

  // ---- the scan ----------------------------------------------------------

  /** select reads the answer off the descriptor sets. */
  predicate Wakes(w: Waiter, r: Report) {
    w.fd == r.fd && (((w.want.rd || w.want.pri) && r.ev.rd) || (w.want.wr && r.ev.wr) || r.broken)
  }

  predicate Woken(w: Waiter, reports: seq<Report>) {
    exists r :: r in reports && Wakes(w, r)
  }

  function Scan(waiting: seq<Waiter>, reports: seq<Report>): seq<Waiter> {
    if waiting == [] then []
    else (if Woken(waiting[0], reports) then [waiting[0]] else []) + Scan(waiting[1..], reports)
  }

  lemma {:induction false} ScanCnt(waiting: seq<Waiter>, reports: seq<Report>, w: Waiter)
    ensures Cnt(Scan(waiting, reports), w) == if Woken(w, reports) then Cnt(waiting, w) else 0
  {
    if waiting != [] {
      ScanCnt(waiting[1..], reports, w);
      assert [] + Scan(waiting[1..], reports) == Scan(waiting[1..], reports);
      if Woken(waiting[0], reports) { CntCons(waiting[0], Scan(waiting[1..], reports), w); }
    }
  }

  const FD_SETSIZE := 1024

  predicate Settable(w: Waiter) { 0 <= w.fd < FD_SETSIZE }

  /** What select is asked: for each direction the descriptors some parked op waits for in it, and
      for errors all of them; a descriptor that no set can hold is passed over. */
  ghost predicate SetsFor(waiting: seq<Waiter>, rd: set<int>, wr: set<int>, ex: set<int>) {
    && (forall fd :: fd in rd <==> exists i :: 0 <= i < |waiting| && Settable(waiting[i]) && waiting[i].fd == fd
                                               && (waiting[i].want.rd || waiting[i].want.pri))
    && (forall fd :: fd in wr <==> exists i :: 0 <= i < |waiting| && Settable(waiting[i]) && waiting[i].fd == fd
                                               && waiting[i].want.wr)
    && (forall fd :: fd in ex <==> exists i :: 0 <= i < |waiting| && Settable(waiting[i]) && waiting[i].fd == fd)
  }

  method SelectSets(waiting: seq<Waiter>) returns (rd: set<int>, wr: set<int>, ex: set<int>)
    ensures SetsFor(waiting, rd, wr, ex)
  {
    rd, wr, ex := {}, {}, {};
    var i := 0;
    while i < |waiting|
      invariant i <= |waiting| && SetsFor(waiting[..i], rd, wr, ex)
    {
      var w := waiting[i];
      ghost var r0, w0, e0 := rd, wr, ex;
      if w.fd >= 0 && w.fd < FD_SETSIZE {
        if w.want.rd || w.want.pri { rd := rd + {w.fd}; }
        if w.want.wr { wr := wr + {w.fd}; }
        ex := ex + {w.fd};
      }
      SetsGrow(waiting[..i], w, r0, w0, e0, rd, wr, ex);
      assert waiting[..i + 1] == waiting[..i] + [w];
      i := i + 1;
    }
    assert waiting[..i] == waiting;
  }

  lemma SetsGrow(q: seq<Waiter>, w: Waiter, r0: set<int>, w0: set<int>, e0: set<int>,
                 rd: set<int>, wr: set<int>, ex: set<int>)
    requires SetsFor(q, r0, w0, e0)
    requires rd == r0 + (if Settable(w) && (w.want.rd || w.want.pri) then {w.fd} else {})
    requires wr == w0 + (if Settable(w) && w.want.wr then {w.fd} else {})
    requires ex == e0 + (if Settable(w) then {w.fd} else {})
    ensures SetsFor(q + [w], rd, wr, ex)
  {
    var p := q + [w];
    assert p[|q|] == w && forall i | 0 <= i < |q| :: p[i] == q[i];
  }

  /** An op is refused exactly when no wait could ask select about it: of every list of parked ops it
      is on, the sets leave its descriptor out. */
  method SelectArm(w: Waiter) returns (ok: bool)
    ensures forall waiting, rd, wr, ex | w in waiting && SetsFor(waiting, rd, wr, ex) :: ok <==> w.fd in ex
  {
    return w.fd >= 0 && w.fd < FD_SETSIZE;
  }

  /** The descriptors the answered sets report. */
  ghost predicate Reported(reports: seq<Report>, rd: set<int>, wr: set<int>, ex: set<int>) {
    && (forall fd :: fd in rd <==> exists r :: r in reports && r.fd == fd && r.ev.rd)
    && (forall fd :: fd in wr <==> exists r :: r in reports && r.fd == fd && r.ev.wr)
    && (forall fd :: fd in ex <==> exists r :: r in reports && r.fd == fd && r.broken)
  }

  lemma WokenBySets(w: Waiter, reports: seq<Report>, rd: set<int>, wr: set<int>, ex: set<int>)
    requires Reported(reports, rd, wr, ex)
    ensures Woken(w, reports)
      <==> ((w.want.rd || w.want.pri) && w.fd in rd) || (w.want.wr && w.fd in wr) || w.fd in ex
  {
  }

  lemma {:induction false} ScanSnoc(waiting: seq<Waiter>, reports: seq<Report>, w: Waiter)
    ensures Scan(waiting + [w], reports) == Scan(waiting, reports) + (if Woken(w, reports) then [w] else [])
  {
    if waiting == [] {
      assert [] + [w] == [w] && [w][1..] == [];
    } else {
      assert (waiting + [w])[1..] == waiting[1..] + [w];
      ScanSnoc(waiting[1..], reports, w);
    }
  }

  /** select walks the parked ops once. */
  method SelectScan(waiting: seq<Waiter>, ghost reports: seq<Report>, rd: set<int>, wr: set<int>, ex: set<int>)
    returns (ready: seq<Waiter>)
    requires forall i | 0 <= i < |waiting| :: Settable(waiting[i])
    requires Reported(reports, rd, wr, ex)
    ensures ready == Scan(waiting, reports)
  {
    ready := [];
    var i := 0;
    while i < |waiting|
      invariant i <= |waiting| && ready == Scan(waiting[..i], reports)
    {
      var w := waiting[i];
      WokenBySets(w, reports, rd, wr, ex);
      ScanSnoc(waiting[..i], reports, w);
      assert waiting[..i + 1] == waiting[..i] + [w];
      if ((w.want.rd || w.want.pri) && w.fd in rd) || (w.want.wr && w.fd in wr) || w.fd in ex {
        ready := ready + [w];
      }
      i := i + 1;
    }
    assert waiting[..i] == waiting;
  }

  // ---- the index ---------------------------------------------------------

  /** The waiters of one descriptor: an op that waits for writing is on the out side, every
      other one on the in side. */
  datatype Sides = Sides(ins: seq<Waiter>, outs: seq<Waiter>)

  predicate Unused(s: Sides) { s.ins == [] && s.outs == [] }

  function SideOf(s: Sides, w: Waiter): seq<Waiter> {
    if w.want.wr then s.outs else s.ins
  }

  function WithSide(s: Sides, w: Waiter, q: seq<Waiter>): Sides {
    if w.want.wr then s.(outs := q) else s.(ins := q)
  }

  function Join(s: Sides, w: Waiter): Sides { WithSide(s, w, [w] + SideOf(s, w)) }

  function Leave(s: Sides, w: Waiter): Sides { WithSide(s, w, Without(SideOf(s, w), w)) }

  /** How often w is on the sides of the descriptor fd where it belongs, and nowhere else. */
  ghost predicate IndexAt(waiting: seq<Waiter>, fd: int, s: Sides, w: Waiter) {
    && Cnt(s.ins, w) == (if w.fd == fd && !w.want.wr then Cnt(waiting, w) else 0)
    && Cnt(s.outs, w) == (if w.fd == fd && w.want.wr then Cnt(waiting, w) else 0)
  }

  /** The sides are exactly waiting[], divided by descriptor and direction. */
  ghost predicate Indexed(waiting: seq<Waiter>, index: int -> Sides) {
    forall fd: int, w: Waiter :: IndexAt(waiting, fd, index(fd), w)
  }

  lemma JoinIndexed(waiting: seq<Waiter>, w: Waiter, s: Sides)
    requires forall x :: IndexAt(waiting, w.fd, s, x)
    ensures forall x :: IndexAt(waiting + [w], w.fd, Join(s, w), x)
  {
    forall x ensures IndexAt(waiting + [w], w.fd, Join(s, w), x) {
      assert IndexAt(waiting, w.fd, s, x);
      CntSnoc(waiting, w, x);
      CntCons(w, SideOf(s, w), x);
    }
  }

  lemma LeaveIndexed(waiting: seq<Waiter>, i: nat, s: Sides)
    requires i < |waiting| && forall x :: IndexAt(waiting, waiting[i].fd, s, x)
    ensures var w := waiting[i];
      w in SideOf(s, w) && forall x :: IndexAt(SwapRemove(waiting, i), w.fd, Leave(s, w), x)
  {
    var w := waiting[i];
    assert IndexAt(waiting, w.fd, s, w);
    CntIn(waiting, w);
    CntIn(SideOf(s, w), w);
    forall x ensures IndexAt(SwapRemove(waiting, i), w.fd, Leave(s, w), x) {
      assert IndexAt(waiting, w.fd, s, x);
      CntSwapRemove(waiting, i, x);
      CntWithout(SideOf(s, w), w, x);
    }
  }

  /** One table of sides instead of another: w joined, the rest is as it was. */
  lemma JoinTable(waiting: seq<Waiter>, w: Waiter, was: int -> Sides, now: int -> Sides)
    requires Indexed(waiting, was) && now(w.fd) == Join(was(w.fd), w) && forall g | g != w.fd :: now(g) == was(g)
    ensures Indexed(waiting + [w], now)
  {
    assert forall x :: IndexAt(waiting, w.fd, was(w.fd), x);
    JoinIndexed(waiting, w, was(w.fd));
    forall fd: int, x: Waiter ensures IndexAt(waiting + [w], fd, now(fd), x) {
      assert IndexAt(waiting, fd, was(fd), x);
      CntSnoc(waiting, w, x);
    }
  }

  /** The i-th parked op left. */
  lemma LeaveTable(waiting: seq<Waiter>, i: nat, was: int -> Sides, now: int -> Sides)
    requires i < |waiting| && Indexed(waiting, was)
    requires var w := waiting[i];
      now(w.fd) == Leave(was(w.fd), w) && forall g | g != w.fd :: now(g) == was(g)
    ensures Indexed(SwapRemove(waiting, i), now)
  {
    var w := waiting[i];
    assert forall x :: IndexAt(waiting, w.fd, was(w.fd), x);
    LeaveIndexed(waiting, i, was(w.fd));
    forall fd: int, x: Waiter ensures IndexAt(SwapRemove(waiting, i), fd, now(fd), x) {
      assert IndexAt(waiting, fd, was(fd), x);
      CntSwapRemove(waiting, i, x);
    }
  }

  lemma SameTable(waiting: seq<Waiter>, was: int -> Sides, now: int -> Sides)
    requires Indexed(waiting, was) && forall g :: now(g) == was(g)
    ensures Indexed(waiting, now)
  {
    forall fd: int, x: Waiter ensures IndexAt(waiting, fd, now(fd), x) {
      assert IndexAt(waiting, fd, was(fd), x);
    }
  }

  // ---- handing over ------------------------------------------------------

  /** What one report hands over: the waiters of the sides it names. */
  function Handed(s: Sides, r: Report): seq<Waiter> {
    (if r.ev.rd || r.broken then s.ins else []) + (if r.ev.wr || r.broken then s.outs else [])
  }

  function HandOver(index: int -> Sides, reports: seq<Report>): seq<Waiter> {
    if reports == [] then [] else Handed(index(reports[0].fd), reports[0]) + HandOver(index, reports[1..])
  }

  /** No side of a descriptor is reported twice: epoll reports a descriptor once, kqueue each
      direction of it once. */
  ghost predicate OnePerSide(reports: seq<Report>) {
    forall i, j | 0 <= i < j < |reports| :: Disjoint(reports[i], reports[j])
  }

  predicate Disjoint(a: Report, b: Report) {
    a.fd != b.fd || (!((a.ev.rd || a.broken) && (b.ev.rd || b.broken)) &&
      !((a.ev.wr || a.broken) && (b.ev.wr || b.broken)))
  }

  /** Whether the report's descriptor hands w over. */
  predicate HandedBy(w: Waiter, r: Report) {
    w.fd == r.fd && ((if w.want.wr then r.ev.wr else r.ev.rd) || r.broken)
  }

  /** An op is handed over by exactly the reports that should wake it if and only if it asks for
      one side alone: one that asks for both directions sits on the out side only. */
  lemma HandedExact(w: Waiter)
    ensures (forall r :: HandedBy(w, r) == Wakes(w, r)) <==> OneSided(w)
  {
    if !OneSided(w) {
      var r := Report(w.fd, READ, false);
      assert HandedBy(w, r) != Wakes(w, r);
    }
  }

  ghost predicate HandedOver(w: Waiter, reports: seq<Report>) {
    exists r :: r in reports && HandedBy(w, r)
  }

  lemma HandedCnt(waiting: seq<Waiter>, s: Sides, r: Report, w: Waiter)
    requires IndexAt(waiting, r.fd, s, w)
    ensures Cnt(Handed(s, r), w) == if HandedBy(w, r) then Cnt(waiting, w) else 0
  {
    CntConcat(if r.ev.rd || r.broken then s.ins else [], if r.ev.wr || r.broken then s.outs else [], w);
  }

  lemma {:induction false} HandOverCnt(waiting: seq<Waiter>, index: int -> Sides, reports: seq<Report>, w: Waiter)
    requires Indexed(waiting, index) && OnePerSide(reports)
    ensures Cnt(HandOver(index, reports), w) == if HandedOver(w, reports) then Cnt(waiting, w) else 0
  {
    if reports != [] {
      var r, rest := reports[0], reports[1..];
      assert IndexAt(waiting, r.fd, index(r.fd), w);
      HandedCnt(waiting, index(r.fd), r, w);
      HandOverCnt(waiting, index, rest, w);
      CntConcat(Handed(index(r.fd), r), HandOver(index, rest), w);
      HandedSplit(w, reports);
    }
  }

  lemma HandedSplit(w: Waiter, reports: seq<Report>)
    requires reports != []
    ensures HandedOver(w, reports) <==> HandedBy(w, reports[0]) || HandedOver(w, reports[1..])
    ensures OnePerSide(reports) && HandedBy(w, reports[0]) ==> !HandedOver(w, reports[1..])
  {
    var rest := reports[1..];
    assert forall r :: r in reports <==> r == reports[0] || r in rest;
  }

  /** Handing over the waiters of the reported descriptors is the scan over everything parked:
      each op as often as the scan selects it. */
  lemma HandOverIsScan(waiting: seq<Waiter>, index: int -> Sides, reports: seq<Report>, w: Waiter)
    requires Indexed(waiting, index) && OnePerSide(reports) && OneSided(w)
    ensures Cnt(HandOver(index, reports), w) == Cnt(Scan(waiting, reports), w)
  {
    HandOverCnt(waiting, index, reports, w);
    ScanCnt(waiting, reports, w);
    HandedExact(w);
    assert HandedOver(w, reports) == Woken(w, reports);
  }

  /** No more is handed over than is parked. */
  lemma HandOverFits(waiting: seq<Waiter>, index: int -> Sides, reports: seq<Report>)
    requires Indexed(waiting, index) && OnePerSide(reports)
    ensures |HandOver(index, reports)| <= |waiting|
  {
    forall w ensures Cnt(HandOver(index, reports), w) <= Cnt(waiting, w) {
      HandOverCnt(waiting, index, reports, w);
    }
    CntBounds(HandOver(index, reports), waiting);
  }

  lemma {:induction false} HandOverSnoc(index: int -> Sides, reports: seq<Report>, r: Report)
    ensures HandOver(index, reports + [r]) == HandOver(index, reports) + Handed(index(r.fd), r)
  {
    if reports == [] {
      assert [] + [r] == [r] && [r][1..] == [];
    } else {
      var first, rest := Handed(index(reports[0].fd), reports[0]), HandOver(index, reports[1..]);
      assert (reports + [r])[1..] == reports[1..] + [r] && (reports + [r])[0] == reports[0];
      HandOverSnoc(index, reports[1..], r);
      assert first + (rest + Handed(index(r.fd), r)) == (first + rest) + Handed(index(r.fd), r);
    }
  }

  /** The waiters of one side, as far as ready[] has room. */
  method TakeSide(side: seq<Waiter>, ready: seq<Waiter>, pool: nat) returns (more: seq<Waiter>)
    requires |ready| <= pool
    ensures more == ready + side[..if |side| <= pool - |ready| then |side| else pool - |ready|]
  {
    more := ready;
    var i := 0;
    while i < |side| && |more| < pool
      invariant i <= |side| && |more| <= pool && more == ready + side[..i]
      decreases |side| - i
    {
      more := more + [side[i]];
      i := i + 1;
    }
  }
}
