/** The engine's state between two locked sections, as one value, and what every
    locked section does to it (src/slipstream_engine.c, src/engine_posix.c).

    An op is named by its slot in the pool, the way the C code names it by address;
    NIL is the null pointer. Each intrusive list of the source is the sequence of the
    slots on it; SlipRing ties these sequences to the `next` links. */
module EngineCore {
  import opened Lists

  const NIL := -1

  const EBADF := 9
  const EBUSY := 16
  const EINVAL := 22
  const ENOENT := 2
  const EALREADY := 114
  const EOPNOTSUPP := 95
  const ECANCELED := 125

  const U32 := 0x1_0000_0000

  type Addr = int

  datatype Opcode = Nop | Socket | PollAdd | PollRemove | AsyncCancel | MsgRing | Other

  /** A submission entry. `link`, `skip` and `fixedFile` are IOSQE_IO_LINK,
      IOSQE_CQE_SKIP_SUCCESS and IOSQE_FIXED_FILE; `cancelAll` and `cancelFd` are the
      two bits of cancel_flags; `addr` is the user_data a cancel aims at. */
  datatype Sqe = Sqe(opcode: Opcode, fd: int, userData: int, addr: int, link: bool, skip: bool,
                     fixedFile: bool, cancelAll: bool, cancelFd: bool)

  /** IORING_CQE_F_MORE, and IORING_CQE_F_BUFFER with its buffer id. */
  datatype CqeFlags = CqeFlags(more: bool, buffer: bool, bid: nat)

  datatype Cqe = Cqe(userData: int, res: int, flags: CqeFlags)

  /** What an op slot holds besides its link and its place in waiting[]. `res` is the
      result a backlogged op carries in the pad word of its submission entry. */
  datatype EngOp = EngOp(sqe: Sqe, stallsQueue: bool, cqeFlags: CqeFlags, res: int)

  /** The SLIP_CHAIN_ values. */
  datatype Chain = Holds | Cancels | CancelsQuietly

  /** `unread` is what stands in the CQ between the caller's head and the engine's tail.

      The engine looks at the caller's head only when it tests for room, so what the caller does
      while a locked section runs is told by how far it moves its head before each of these tests:
      `moves` says so for the tests to come. `delivered` is what it has read so far. Nothing looks
      at either. */
  datatype Core = Core(
    ops: seq<EngOp>,
    free: seq<Addr>, queue: seq<Addr>, waiting: seq<Addr>, wq: seq<Addr>, backlog: seq<Addr>,
    chainFailed: Chain, blocking: Addr, blockedDone: Addr, blockedFailed: Chain,
    unread: seq<Cqe>, entries: nat, overflow: nat,
    moves: seq<nat>, delivered: seq<Cqe>)

  function NoFlags(): CqeFlags { CqeFlags(false, false, 0) }

  function Zeroed(): EngOp {
    EngOp(Sqe(Nop, 0, 0, 0, false, false, false, false, false), false, NoFlags(), 0)
  }

  function OpAt(c: Core, a: Addr): EngOp {
    if 0 <= a < |c.ops| then c.ops[a] else Zeroed()
  }

  function SetOp(c: Core, a: Addr, op: EngOp): Core {
    if 0 <= a < |c.ops| then c.(ops := c.ops[a := op]) else c
  }

  function FailureOf(sqe: Sqe): Chain {
    if sqe.skip then CancelsQuietly else Cancels
  }

  // ---- the pool ----------------------------------------------------------

  function Alloc(c: Core): Core
    requires c.free != []
  {
    SetOp(c, c.free[0], Zeroed()).(free := c.free[1..])
  }

  function Release(c: Core, a: Addr): Core {
    c.(free := [a] + c.free)
  }

  // ---- completions -------------------------------------------------------

  /** The unsigned overflow counter, one up. */
  function Tick(n: nat): nat {
    if n + 1 == U32 then 0 else n + 1
  }

  predicate Room(c: Core) {
    |c.unread| < c.entries
  }

  function CqeOf(op: EngOp): Cqe {
    Cqe(op.sqe.userData, op.res, op.cqeFlags)
  }

  function PostCqe(c: Core, cqe: Cqe): Core {
    c.(unread := c.unread + [cqe])
  }

  /** The caller reads the k oldest completions in the CQ. */
  function Advance(c: Core, k: nat): Core
    requires k <= |c.unread|
  {
    c.(unread := c.unread[k..], delivered := c.delivered + c.unread[..k])
  }

  /** The caller moves its head, or does not, just before a test for room. */
  function Glance(c: Core): Core {
    if c.moves == [] then c
    else Advance(c.(moves := c.moves[1..]), if c.moves[0] <= |c.unread| then c.moves[0] else |c.unread|)
  }

  function DrainOne(c: Core): Core
    requires c.backlog != []
  {
    Release(PostCqe(c.(backlog := c.backlog[1..]), CqeOf(OpAt(c, c.backlog[0]))), c.backlog[0])
  }

  function Drain(c: Core): Core
    decreases |c.backlog|
  {
    if c.backlog == [] then c
    else if !Room(Glance(c)) then Glance(c)
    else Drain(DrainOne(Glance(c)))
  }

  function Backlog(c: Core, a: Addr, res: int): Core {
    SetOp(c, a, OpAt(c, a).(res := res)).(
      backlog := c.backlog + [a], overflow := Tick(c.overflow))
  }

  predicate Silent(op: EngOp, res: int) {
    res >= 0 && op.sqe.skip
  }

  /** The rest of a post once the backlog is drained and room was looked for. */
  function PostTested(d: Core, a: Addr, res: int): Core {
    if Room(d) then Release(PostCqe(d, CqeOf(OpAt(d, a).(res := res))), a)
    else Backlog(d, a, res)
  }

  function PostDrained(d: Core, a: Addr, res: int): Core {
    if Silent(OpAt(d, a), res) then Release(d, a) else PostTested(Glance(d), a, res)
  }

  function Post(c: Core, a: Addr, res: int): Core {
    PostDrained(Drain(c), a, res)
  }

  function Carrier(cqe: Cqe): EngOp {
    Zeroed().(sqe := Zeroed().sqe.(userData := cqe.userData), cqeFlags := cqe.flags)
  }

  /** The completion takes a free slot of its own to wait in. */
  function Carry(d: Core, cqe: Cqe): Core
    requires d.free != []
  {
    Backlog(SetOp(Alloc(d), d.free[0], Carrier(cqe)), d.free[0], cqe.res)
  }

  function EmitTested(d: Core, cqe: Cqe): Core {
    if Room(d) then PostCqe(d, cqe)
    else if d.free != [] then Carry(d, cqe)
    else d.(overflow := Tick(d.overflow))
  }

  function Emit(c: Core, cqe: Cqe): Core {
    EmitTested(Tested(c), cqe)
  }

  /** The backlog is drained and room looked for. */
  function Tested(c: Core): Core {
    Glance(Drain(c))
  }

  predicate EmitDropped(c: Core) {
    !Room(Tested(c)) && Tested(c).free == []
  }

  // ---- chains ------------------------------------------------------------

  /** The chain standing after an op that was just executed answers res. */
  function Standing(c: Core, a: Addr, res: int): Core {
    if res < 0 && OpAt(c, a).sqe.link then c.(chainFailed := FailureOf(OpAt(c, a).sqe)) else c
  }

  /** The chain standing after an op that had left the queue answers res. */
  function CompleteStanding(c: Core, a: Addr, res: int): Core {
    if a == c.blocking then
      var d := c.(blocking := NIL);
      if res < 0 then d.(chainFailed := FailureOf(OpAt(c, a).sqe)) else d
    else Standing(c, a, res)
  }

  function Complete(c: Core, a: Addr, res: int): Core {
    Post(CompleteStanding(c, a, res), a, res)
  }

  /** The worker's ticket, if it names the op the queue stalled on. */
  function SettleStanding(c: Core): Core {
    if c.blockedDone != NIL && c.blockedDone == c.blocking then
      var d := c.(blocking := NIL, blockedDone := NIL);
      if c.blockedFailed != Holds
      then d.(chainFailed := c.blockedFailed, blockedFailed := Holds) else d
    else c
  }

  function Settle(c: Core): Core {
    Drain(SettleStanding(c))
  }

  // ---- the queue ---------------------------------------------------------

  predicate QueueRuns(c: Core) {
    c.queue != [] && c.blocking == NIL
  }

  function Pop(c: Core): Core
    requires c.queue != []
  {
    c.(queue := c.queue[1..])
  }

  /** The front of the queue belongs to a chain that failed. */
  function CancelFront(c: Core): Core
    requires c.queue != []
  {
    var a := c.queue[0];
    var d := if c.chainFailed == CancelsQuietly then Release(Pop(c), a) else Post(Pop(c), a, -ECANCELED);
    if OpAt(c, a).sqe.link then d else d.(chainFailed := Holds)
  }

  predicate NeedsLookup(op: EngOp) {
    op.sqe.fixedFile && op.sqe.opcode != Socket && op.sqe.opcode != Nop
  }

  function Translate(c: Core, a: Addr, realfd: int): Core {
    var op := OpAt(c, a);
    if NeedsLookup(op) then SetOp(c, a, op.(sqe := op.sqe.(fd := realfd, fixedFile := false))) else c
  }

  /** An executed op that finished right there. A MSG_RING never touches the chain. */
  function AnswerStanding(c: Core, a: Addr, res: int): Core {
    if OpAt(c, a).sqe.opcode == MsgRing then c else Standing(c, a, res)
  }

  function Answer(c: Core, a: Addr, res: int): Core {
    Post(AnswerStanding(c, a, res), a, res)
  }

  function Stall(c: Core, a: Addr, linked: bool): Core {
    if linked then c.(blocking := a) else c
  }

  // ---- parking and the worker --------------------------------------------

  function Park(c: Core, a: Addr): Core {
    c.(waiting := c.waiting + [a])
  }

  function Unpark(c: Core, a: Addr): Core {
    var i := IndexOf(c.waiting, a);
    if i < |c.waiting| then c.(waiting := SwapRemove(c.waiting, i)) else c
  }

  function HandToWorker(c: Core, a: Addr): Core {
    var op := OpAt(c, a);
    SetOp(c, a, op.(stallsQueue := op.stallsQueue || op.sqe.link)).(wq := c.wq + [a])
  }

  function WorkerTake(c: Core): Core
    requires c.wq != []
  {
    c.(wq := c.wq[1..])
  }

  function Ticket(c: Core, a: Addr, res: int): Core {
    c.(blockedDone := a, blockedFailed := if res < 0 then FailureOf(OpAt(c, a).sqe) else Holds)
  }

  // ---- cancel ------------------------------------------------------------

  predicate CancelNames(cancel: Sqe, target: Sqe) {
    if cancel.opcode == PollRemove then target.opcode == PollAdd && target.userData == cancel.addr
    else if cancel.cancelFd then target.fd == cancel.fd
    else target.userData == cancel.addr
  }

  predicate Matches(c: Core, cancel: Sqe, a: Addr) {
    CancelNames(cancel, OpAt(c, a).sqe)
  }

  function CancelStanding(c: Core, a: Addr): Core {
    if a == c.blocking then c.(blocking := NIL, chainFailed := FailureOf(OpAt(c, a).sqe))
    else if OpAt(c, a).sqe.link then c.(chainFailed := FailureOf(OpAt(c, a).sqe))
    else c
  }

  function CancelTarget(c: Core, a: Addr): Core {
    Post(CancelStanding(c, a), a, -ECANCELED)
  }

  function CancelParked(c: Core, a: Addr): Core { CancelTarget(Unpark(c, a), a) }

  function CancelQueued(c: Core, a: Addr): Core { CancelTarget(c.(queue := Without(c.queue, a)), a) }

  function CancelAtWorker(c: Core, a: Addr): Core { CancelTarget(c.(wq := Without(c.wq, a)), a) }

  // ---- facts about the completion side -----------------------------------

  function CqeAt(ops: seq<EngOp>, a: Addr): Cqe {
    CqeOf(if 0 <= a < |ops| then ops[a] else Zeroed())
  }

  function Cqes(ops: seq<EngOp>, s: seq<Addr>): (r: seq<Cqe>)
    ensures |r| == |s|
    ensures forall i {:trigger r[i]} | 0 <= i < |s| :: r[i] == CqeAt(ops, s[i])
  {
    seq(|s|, i requires 0 <= i < |s| => CqeAt(ops, s[i]))
  }

  lemma CqesHead(ops: seq<EngOp>, s: seq<Addr>)
    requires s != []
    ensures Cqes(ops, s) == [CqeAt(ops, s[0])] + Cqes(ops, s[1..])
  {
  }

  /** Everything the caller will still read, oldest first. */
  function Pending(c: Core): seq<Cqe> {
    c.unread + Cqes(c.ops, c.backlog)
  }

  /** Everything the caller has read and will read, in this order. */
  function Flow(c: Core): seq<Cqe> {
    c.delivered + Pending(c)
  }

  /** How often slot x is free or backlogged: a completion moves slots between the two. */
  function Idle(c: Core, x: Addr): nat {
    Cnt(c.free, x) + Cnt(c.backlog, x)
  }

  /** Everything a completion leaves alone. */
  ghost predicate SameSubmission(c: Core, d: Core) {
    && d.queue == c.queue && d.waiting == c.waiting && d.wq == c.wq
    && d.chainFailed == c.chainFailed && d.blocking == c.blocking
    && d.blockedDone == c.blockedDone && d.blockedFailed == c.blockedFailed
    && d.entries == c.entries && |d.ops| == |c.ops|
  }

  /** The caller's reading moves nothing but its head. */
  lemma AdvanceFacts(c: Core, k: nat)
    requires k <= |c.unread|
    ensures Flow(Advance(c, k)) == Flow(c) && |Advance(c, k).unread| <= |c.unread|
  {
    var w := Cqes(c.ops, c.backlog);
    assert c.unread == c.unread[..k] + c.unread[k..];
    assert (c.delivered + c.unread[..k]) + (c.unread[k..] + w) == c.delivered + (c.unread + w);
  }

  lemma GlanceFacts(c: Core)
    ensures var d := Glance(c);
      && d == c.(unread := d.unread, moves := d.moves, delivered := d.delivered)
      && Flow(d) == Flow(c) && |d.unread| <= |c.unread|
    ensures c.moves == [] ==> Glance(c) == c
  {
    if c.moves != [] {
      var e := c.(moves := c.moves[1..]);
      assert Flow(e) == Flow(c);
      AdvanceFacts(e, if c.moves[0] <= |c.unread| then c.moves[0] else |c.unread|);
    }
  }

  lemma DrainOneFlow(c: Core)
    requires c.backlog != []
    ensures Flow(DrainOne(c)) == Flow(c)
  {
    var d := DrainOne(c);
    var a := c.backlog[0];
    CqesHead(c.ops, c.backlog);
    assert (c.unread + [CqeAt(c.ops, a)]) + Cqes(c.ops, d.backlog)
        == c.unread + ([CqeAt(c.ops, a)] + Cqes(c.ops, d.backlog));
  }

  /** Draining moves the oldest backlogged completions into the CQ until one side gives out. */
  lemma {:induction false} DrainFacts(c: Core)
    ensures SameSubmission(c, Drain(c)) && Drain(c).ops == c.ops && Drain(c).overflow == c.overflow
    ensures Flow(Drain(c)) == Flow(c)
    ensures Drain(c).backlog == [] || !Room(Drain(c))
    ensures |c.unread| <= c.entries ==> |Drain(c).unread| <= c.entries
    ensures c.moves == [] ==> Drain(c).moves == [] && Drain(c).delivered == c.delivered
    decreases |c.backlog|
  {
    if c.backlog != [] {
      var g := Glance(c);
      GlanceFacts(c);
      if Room(g) {
        DrainOneFlow(g);
        DrainFacts(DrainOne(g));
      }
    }
  }

  lemma TestedFacts(c: Core)
    ensures SameSubmission(c, Tested(c)) && Tested(c).ops == c.ops && Tested(c).overflow == c.overflow
    ensures Tested(c).free == Drain(c).free && Tested(c).backlog == Drain(c).backlog
    ensures Flow(Tested(c)) == Flow(c)
    ensures |c.unread| <= c.entries ==> |Tested(c).unread| <= c.entries
    ensures c.moves == [] ==> Tested(c) == Drain(c) && (Tested(c).backlog == [] || !Room(Tested(c)))
  {
    DrainFacts(c);
    GlanceFacts(Drain(c));
  }

  lemma {:induction false} DrainIdle(c: Core, x: Addr)
    ensures Idle(Drain(c), x) == Idle(c, x)
    decreases |c.backlog|
  {
    if c.backlog != [] && Room(Glance(c)) {
      CntCons(c.backlog[0], c.free, x);
      DrainIdle(DrainOne(Glance(c)), x);
    }
  }

  /** What Post appends for the caller to read: the completion, unless it is a silent success. */
  function Answers(op: EngOp, res: int): seq<Cqe> {
    if Silent(op, res) then [] else [Cqe(op.sqe.userData, res, op.cqeFlags)]
  }

  /** How many backlogged completions one that is accepted now comes before: the drain loop found
      the CQ full, and the caller made room before the next test. */
  function Late(c: Core): nat {
    if Room(Tested(c)) then |Tested(c).backlog| else 0
  }

  /** q with x put in front of its last n elements. */
  function Inserted<T>(q: seq<T>, n: nat, x: seq<T>): seq<T>
    requires n <= |q|
  {
    q[..|q| - n] + (x + q[|q| - n..])
  }

  lemma LateFits(c: Core)
    ensures Late(c) <= |Flow(c)|
  {
    TestedFacts(c);
  }

  /** Without a read in between nothing comes late. */
  lemma NotLate(c: Core)
    requires c.moves == []
    ensures Late(c) == 0
  {
    TestedFacts(c);
  }

  lemma InsertedLast<T>(q: seq<T>, x: seq<T>)
    ensures Inserted(q, 0, x) == q + x
  {
    assert q[|q| - 0..] == [];
  }

  lemma InsertedNothing<T>(q: seq<T>, n: nat)
    requires n <= |q|
    ensures Inserted(q, n, []) == q
  {
  }

  lemma InsertedBetween<T>(p: seq<T>, w: seq<T>, x: seq<T>)
    ensures Inserted(p + w, |w|, x) == p + (x + w)
  {
    assert (p + w)[..|p|] == p && (p + w)[|p|..] == w;
  }

  lemma NotBacklogged(c: Core, a: Addr)
    requires Idle(c, a) == 0
    ensures a !in c.backlog && a !in c.free && a !in Drain(c).backlog && a !in Drain(c).free
  {
    DrainIdle(c, a);
    CntIn(c.backlog, a);
    CntIn(c.free, a);
    CntIn(Drain(c).backlog, a);
    CntIn(Drain(c).free, a);
  }

  lemma BacklogFlow(d: Core, a: Addr, res: int)
    requires 0 <= a < |d.ops| && a !in d.backlog
    ensures Flow(Backlog(d, a, res)) == Flow(d) + [CqeOf(d.ops[a].(res := res))]
  {
    var e, cqe := Backlog(d, a, res), CqeOf(d.ops[a].(res := res));
    assert Cqes(e.ops, e.backlog) == Cqes(d.ops, d.backlog) + [cqe];
  }

  lemma Assoc<T>(p: seq<T>, q: seq<T>, w: seq<T>)
    ensures p + (q + w) == (p + q) + w
  {
  }

  /** Straight into the CQ means before all that is still backlogged. */
  lemma PostCqeFlow(d: Core, cqe: Cqe)
    ensures |d.backlog| <= |Flow(d)| && Flow(PostCqe(d, cqe)) == Inserted(Flow(d), |d.backlog|, [cqe])
  {
    var w := Cqes(d.ops, d.backlog);
    Assoc(d.delivered, d.unread, w);
    InsertedBetween(d.delivered + d.unread, w, [cqe]);
    Assoc(d.delivered, d.unread + [cqe], w);
    Assoc(d.delivered, d.unread, [cqe]);
    Assoc(d.delivered + d.unread, [cqe], w);
  }

  lemma PostTestedFacts(d: Core, a: Addr, res: int)
    requires 0 <= a < |d.ops| && a !in d.backlog
    ensures var e, n := PostTested(d, a, res), if Room(d) then |d.backlog| else 0;
      && SameSubmission(d, e)
      && n <= |Flow(d)| && Flow(e) == Inserted(Flow(d), n, [CqeOf(d.ops[a].(res := res))])
      && (|d.unread| <= d.entries ==> |e.unread| <= d.entries)
  {
    var cqe := CqeOf(d.ops[a].(res := res));
    if Room(d) {
      PostCqeFlow(d, cqe);
      assert Flow(PostTested(d, a, res)) == Flow(PostCqe(d, cqe));
    } else {
      BacklogFlow(d, a, res);
      InsertedLast(Flow(d), [cqe]);
    }
  }

  /** A final completion stands behind everything older, but for what is late. */
  lemma PostFacts(c: Core, a: Addr, res: int)
    requires 0 <= a < |c.ops| && Idle(c, a) == 0
    ensures SameSubmission(c, Post(c, a, res))
    ensures Late(c) <= |Flow(c)| && Flow(Post(c, a, res)) == Inserted(Flow(c), Late(c), Answers(c.ops[a], res))
    ensures |c.unread| <= c.entries ==> |Post(c, a, res).unread| <= c.entries
  {
    DrainFacts(c);
    TestedFacts(c);
    LateFits(c);
    NotBacklogged(c, a);
    if Silent(c.ops[a], res) {
      InsertedNothing(Flow(c), Late(c));
      assert Flow(Post(c, a, res)) == Flow(Drain(c));
    } else {
      PostTestedFacts(Tested(c), a, res);
    }
  }

  /** `overflow` counts exactly the completions that found the CQ full, on 32 bits. */
  lemma OverflowCounts(c: Core, a: Addr, res: int, cqe: Cqe)
    ensures var up := if c.overflow == 0xFFFF_FFFF then 0 else c.overflow + 1;
      && Post(c, a, res).overflow
         == (if Silent(OpAt(c, a), res) || |Tested(c).unread| < c.entries then c.overflow else up)
      && Emit(c, cqe).overflow == (if |Tested(c).unread| < c.entries then c.overflow else up)
  {
    DrainFacts(c);
    TestedFacts(c);
  }

  lemma PostFrame(c: Core, a: Addr, res: int)
    ensures SameSubmission(c, Post(c, a, res))
    ensures forall b | b != a :: OpAt(Post(c, a, res), b) == OpAt(c, b)
    ensures OpAt(Post(c, a, res), a).sqe == OpAt(c, a).sqe
  {
    DrainFacts(c);
    TestedFacts(c);
  }

  /** A final completion leaves every other slot as it is. */
  lemma PostKeeps(c: Core, a: Addr, res: int, b: Addr)
    requires b != a
    ensures OpAt(Post(c, a, res), b) == OpAt(c, b)
  {
    PostFrame(c, a, res);
  }

  lemma PostIdle(c: Core, a: Addr, res: int, x: Addr)
    ensures Idle(Post(c, a, res), x) == Idle(c, x) + if x == a then 1 else 0
  {
    DrainIdle(c, x);
    TestedFacts(c);
    CntCons(a, Drain(c).free, x);
    PostTestedIdle(Tested(c), a, res, x);
  }

  lemma PostTestedIdle(d: Core, a: Addr, res: int, x: Addr)
    ensures Idle(PostTested(d, a, res), x) == Idle(d, x) + if x == a then 1 else 0
  {
    CntCons(a, d.free, x);
    CntSnoc(d.backlog, a, x);
  }

  lemma CarryFlow(d: Core, cqe: Cqe)
    requires d.free != [] && Idle(d, d.free[0]) <= 1 && 0 <= d.free[0] < |d.ops|
    ensures Flow(Carry(d, cqe)) == Flow(d) + [cqe]
  {
    var a := d.free[0];
    CntIn(d.backlog, a);
    var e := SetOp(Alloc(d), a, Carrier(cqe));
    assert Cqes(e.ops, e.backlog) == Cqes(d.ops, d.backlog);
    BacklogFlow(e, a, cqe.res);
  }

  lemma EmitTestedFacts(d: Core, cqe: Cqe)
    requires d.free != [] ==> Idle(d, d.free[0]) <= 1 && 0 <= d.free[0] < |d.ops|
    ensures var e, n := EmitTested(d, cqe), if Room(d) then |d.backlog| else 0;
      && SameSubmission(d, e)
      && n <= |Flow(d)|
      && Flow(e) == Inserted(Flow(d), n, if !Room(d) && d.free == [] then [] else [cqe])
      && (|d.unread| <= d.entries ==> |e.unread| <= d.entries)
  {
    if Room(d) {
      PostCqeFlow(d, cqe);
    } else if d.free != [] {
      CarryFlow(d, cqe);
      InsertedLast(Flow(d), [cqe]);
    } else {
      InsertedNothing(Flow(d), 0);
    }
  }

  /** An emission stands behind everything older, but for what is late, or is dropped exactly when
      the CQ is full and the pool is empty. */
  lemma EmitFacts(c: Core, cqe: Cqe)
    requires forall x :: Idle(c, x) <= if 0 <= x < |c.ops| then 1 else 0
    ensures SameSubmission(c, Emit(c, cqe))
    ensures Late(c) <= |Flow(c)|
    ensures Flow(Emit(c, cqe)) == Inserted(Flow(c), Late(c), if EmitDropped(c) then [] else [cqe])
    ensures |c.unread| <= c.entries ==> |Emit(c, cqe).unread| <= c.entries
  {
    TestedFacts(c);
    var d := Tested(c);
    if d.free != [] { DrainIdle(c, d.free[0]); }
    EmitTestedFacts(d, cqe);
  }

  lemma CarryFrame(d: Core, cqe: Cqe)
    requires d.free != []
    ensures SameSubmission(d, Carry(d, cqe))
  {
    var e := SetOp(Alloc(d), d.free[0], Carrier(cqe));
    assert SameSubmission(d, e);
  }

  lemma EmitTestedFrame(d: Core, cqe: Cqe)
    ensures SameSubmission(d, EmitTested(d, cqe))
  {
    if !Room(d) && d.free != [] { CarryFrame(d, cqe); }
  }

  lemma EmitFrame(c: Core, cqe: Cqe)
    ensures SameSubmission(c, Emit(c, cqe))
  {
    TestedFacts(c);
    EmitTestedFrame(Tested(c), cqe);
  }

  /** An emission leaves every slot in use as it is. */
  lemma EmitKeeps(c: Core, cqe: Cqe, b: Addr)
    requires Idle(c, b) == 0
    ensures OpAt(Emit(c, cqe), b) == OpAt(c, b)
  {
    TestedFacts(c);
    NotBacklogged(c, b);
  }

  lemma EmitIdle(c: Core, cqe: Cqe, x: Addr)
    ensures Idle(Emit(c, cqe), x) == Idle(c, x)
  {
    DrainIdle(c, x);
    TestedFacts(c);
    var d := Tested(c);
    if !Room(d) && d.free != [] {
      CntSnoc(d.backlog, d.free[0], x);
    }
  }

  lemma PostMoves(c: Core, a: Addr, res: int, cqe: Cqe)
    requires c.moves == []
    ensures Post(c, a, res).moves == [] && Emit(c, cqe).moves == []
  {
    DrainFacts(c);
    TestedFacts(c);
  }
}
