/** The engine as interleaved processes: the submitter inside enter, the worker thread,
    the caller moving the CQ head, and other rings messaging this one. Every action holds
    at most one locked section of the source, so a run is a sequence of actions. The caller
    takes no lock: it moves the head between actions (AdvanceHead) and inside them, where
    Meanwhile tells how far it will before each of the coming tests for room.

    `serialOf`, `hist`, `order` and `log` are history: they record which submission a slot
    holds, what became of each submission, the order in which the queue was taken apart, and
    the completions in the order they were accepted. No action looks at them. */
module EngineSystem {
  import opened EngineCore

  datatype Done = Done(op: Addr, res: int)

  /** Where the submitter stands. Slots named here are in its hands and on no list. */
  datatype Pc =
    | Outside
    | Between
    | Intake(batch: seq<Addr>)
    | Running
    | Holding(op: Addr)
    | Handed(op: Addr, linked: bool)
    | Retrying(ready: seq<Addr>, done: seq<Done>)
    | Retry(op: Addr, ready: seq<Addr>, done: seq<Done>)
    | Completing(done: seq<Done>)

  datatype Worker = WIdle | WRunning(op: Addr) | WTicketed(op: Addr, res: int)

  datatype Fate = InFlight(at: Addr) | Ran(res: int) | ChainCancelled(how: Chain)

  datatype Entry = Entry(userData: int, link: bool, skip: bool, fate: Fate)

  /** One accepted completion. `serial` is the submission it answers, -1 for a message
      from another ring; `final` tells an op's completion from a multishot emission. */
  datatype LogItem = LogItem(serial: int, cqe: Cqe, final: bool)

  datatype System = System(
    core: Core, pc: Pc, worker: Worker,
    serialOf: seq<int>, hist: seq<Entry>, order: seq<int>, log: seq<LogItem>)

  datatype Action =
    | AdvanceHead(k: nat)
    | Meanwhile(moves: seq<nat>)
    | ForeignEmit(cqe: Cqe)
    | EnterCall
    | TakeSqe(sqe: Sqe)
    | Submit
    | QueueRests
    | CancelChained
    | Dequeue
    | Lookup(realfd: int)
    | Emission(res: int, flags: CqeFlags)
    | Finish(res: int)
    | ParkIt
    | HandOff
    | NoteStall
    | CancelParkedOne(t: Addr)
    | CancelQueuedOne(t: Addr)
    | CancelAtWorkerOne(t: Addr)
    | BeginWait(ready: seq<Addr>)
    | UnparkNext
    | RetryAnswer(res: int)
    | Repark
    | EndRetries
    | CompleteNext
    | EndComplete
    | SettleTicket
    | Leave
    | TakeWork
    | RaiseTicket(res: int)
    | PostWork(res: int)

  // ---- the machine -------------------------------------------------------

  function SerialAt(s: System, a: Addr): int {
    if 0 <= a < |s.serialOf| then s.serialOf[a] else -1
  }

  function Settled(s: System, a: Addr, fate: Fate): seq<Entry> {
    var k := SerialAt(s, a);
    if 0 <= k < |s.hist| then s.hist[k := s.hist[k].(fate := fate)] else s.hist
  }

  /** A final completion names the submission, gives its result, and says no more. */
  function Reply(op: EngOp, res: int): Cqe {
    Cqe(op.sqe.userData, res, CqeFlags(false, false, 0))
  }

  /** The final completion of the op in slot a, as the log keeps it. */
  function Final(s: System, a: Addr, res: int): seq<LogItem> {
    var op := OpAt(s.core, a);
    if Silent(op, res) then [] else [LogItem(SerialAt(s, a), Reply(op, res), true)]
  }

  function Emitted(s: System, serial: int, cqe: Cqe): System {
    s.(core := Emit(s.core, cqe),
       log := s.log + if EmitDropped(s.core) then [] else [LogItem(serial, cqe, false)])
  }

  /** The op in slot a got its answer; c is the core after posting it. */
  function Answered(s: System, c: Core, a: Addr, res: int): System {
    s.(core := c, hist := Settled(s, a, Ran(res)), log := s.log + Final(s, a, res))
  }

  predicate IsCancel(sqe: Sqe) {
    sqe.opcode == AsyncCancel || sqe.opcode == PollRemove
  }

  predicate MayPend(sqe: Sqe) {
    !IsCancel(sqe) && sqe.opcode != MsgRing
  }

  /** The submitter holds an op whose descriptor is resolved: it may be executed now. */
  predicate Executing(s: System) {
    s.pc.Holding? && !NeedsLookup(OpAt(s.core, s.pc.op))
  }

  predicate Pendable(s: System) {
    Executing(s) && MayPend(OpAt(s.core, s.pc.op).sqe)
  }

  predicate Cancelling(s: System, t: Addr) {
    Executing(s) && IsCancel(OpAt(s.core, s.pc.op).sqe) && Matches(s.core, OpAt(s.core, s.pc.op).sqe, t)
  }

  // the caller and other rings

  function DoAdvanceHead(s: System, k: nat): System
    requires k <= |s.core.unread|
  {
    s.(core := Advance(s.core, k))
  }

  // the submitter: intake

  function DoTakeSqe(s: System, sqe: Sqe): System
    requires s.pc.Intake? && s.core.free != []
  {
    var a := s.core.free[0];
    s.(core := SetOp(Alloc(s.core), a, Zeroed().(sqe := sqe)),
       pc := Intake(s.pc.batch + [a]),
       serialOf := if 0 <= a < |s.serialOf| then s.serialOf[a := |s.hist|] else s.serialOf,
       hist := s.hist + [Entry(sqe.userData, sqe.link, sqe.skip, InFlight(a))])
  }

  function DoSubmit(s: System): System
    requires s.pc.Intake?
  {
    s.(core := s.core.(queue := s.core.queue + s.pc.batch),
       pc := if s.pc.batch == [] then Between else Running)
  }

  // the submitter: the queue

  predicate CanCancelChained(s: System) {
    s.pc.Running? && QueueRuns(s.core) && s.core.chainFailed != Holds
  }

  function DoCancelChained(s: System): System
    requires CanCancelChained(s)
  {
    var a := s.core.queue[0];
    s.(core := CancelFront(s.core),
       hist := Settled(s, a, ChainCancelled(s.core.chainFailed)),
       order := s.order + [SerialAt(s, a)],
       log := s.log + if s.core.chainFailed == CancelsQuietly then [] else Final(s, a, -ECANCELED))
  }

  predicate CanDequeue(s: System) {
    s.pc.Running? && QueueRuns(s.core) && s.core.chainFailed == Holds
  }

  function DoDequeue(s: System): System
    requires CanDequeue(s)
  {
    var a := s.core.queue[0];
    s.(core := Pop(s.core), pc := Holding(a), order := s.order + [SerialAt(s, a)])
  }

  predicate CanLookup(s: System) {
    s.pc.Holding? && NeedsLookup(OpAt(s.core, s.pc.op))
  }

  function DoLookup(s: System, realfd: int): System
    requires CanLookup(s)
  {
    var a := s.pc.op;
    if realfd < 0
    then Answered(s.(pc := Running), Post(Standing(s.core, a, -EBADF), a, -EBADF), a, -EBADF)
    else s.(core := Translate(s.core, a, realfd))
  }

  predicate CanEmit(s: System) {
    s.pc.Retry? || Pendable(s)
  }

  function DoEmission(s: System, res: int, flags: CqeFlags): System
    requires CanEmit(s)
  {
    Emitted(s, SerialAt(s, s.pc.op), Cqe(OpAt(s.core, s.pc.op).sqe.userData, res, flags))
  }

  function DoFinish(s: System, res: int): System
    requires Executing(s)
  {
    Answered(s.(pc := Running), Answer(s.core, s.pc.op, res), s.pc.op, res)
  }

  function DoPark(s: System): System
    requires Pendable(s)
  {
    s.(core := Stall(Park(s.core, s.pc.op), s.pc.op, OpAt(s.core, s.pc.op).sqe.link), pc := Running)
  }

  function DoHandOff(s: System): System
    requires Pendable(s)
  {
    s.(core := HandToWorker(s.core, s.pc.op), pc := Handed(s.pc.op, OpAt(s.core, s.pc.op).sqe.link))
  }

  function DoNoteStall(s: System): System
    requires s.pc.Handed?
  {
    s.(core := Stall(s.core, s.pc.op, s.pc.linked), pc := Running)
  }

  function DoCancelParked(s: System, t: Addr): System {
    Answered(s, CancelParked(s.core, t), t, -ECANCELED)
  }

  function DoCancelQueued(s: System, t: Addr): System {
    Answered(s, CancelQueued(s.core, t), t, -ECANCELED)
  }

  function DoCancelAtWorker(s: System, t: Addr): System {
    Answered(s, CancelAtWorker(s.core, t), t, -ECANCELED)
  }

  // the submitter: the wait

  predicate CanWait(s: System, ready: seq<Addr>) {
    && s.pc.Between?
    && (forall i | 0 <= i < |ready| :: ready[i] in s.core.waiting)
    && (forall i, j | 0 <= i < j < |ready| :: ready[i] != ready[j])
  }

  function DoUnpark(s: System): System
    requires s.pc.Retrying? && s.pc.ready != []
  {
    s.(core := Unpark(s.core, s.pc.ready[0]), pc := Retry(s.pc.ready[0], s.pc.ready[1..], s.pc.done))
  }

  function DoRetryAnswer(s: System, res: int): System
    requires s.pc.Retry?
  {
    s.(pc := Retrying(s.pc.ready, s.pc.done + [Done(s.pc.op, res)]))
  }

  function DoRepark(s: System): System
    requires s.pc.Retry?
  {
    s.(core := Park(s.core, s.pc.op), pc := Retrying(s.pc.ready, s.pc.done))
  }

  function DoComplete(s: System): System
    requires s.pc.Completing? && s.pc.done != []
  {
    var d := s.pc.done[0];
    Answered(s.(pc := Completing(s.pc.done[1..])), Complete(s.core, d.op, d.res), d.op, d.res)
  }

  // the worker

  function DoTakeWork(s: System): System
    requires s.core.wq != []
  {
    s.(core := WorkerTake(s.core), worker := WRunning(s.core.wq[0]))
  }

  predicate CanRaise(s: System) {
    s.worker.WRunning? && OpAt(s.core, s.worker.op).stallsQueue
  }

  function DoRaise(s: System, res: int): System
    requires CanRaise(s)
  {
    s.(core := Ticket(s.core, s.worker.op, res), worker := WTicketed(s.worker.op, res))
  }

  predicate CanPostWork(s: System, res: int) {
    (s.worker.WRunning? && !OpAt(s.core, s.worker.op).stallsQueue)
    || (s.worker.WTicketed? && s.worker.res == res)
  }

  function DoPostWork(s: System, res: int): System
    requires CanPostWork(s, res)
  {
    Answered(s.(worker := WIdle), Post(s.core, s.worker.op, res), s.worker.op, res)
  }

  // ---- runs --------------------------------------------------------------

  predicate Enabled(s: System, act: Action) {
    match act
    case AdvanceHead(k) => k <= |s.core.unread|
    case Meanwhile(_) => true
    case ForeignEmit(_) => true
    case EnterCall => s.pc.Outside?
    case TakeSqe(_) => s.pc.Intake? && s.core.free != []
    case Submit => s.pc.Intake?
    case QueueRests => s.pc.Running? && !QueueRuns(s.core)
    case CancelChained => CanCancelChained(s)
    case Dequeue => CanDequeue(s)
    case Lookup(_) => CanLookup(s)
    case Emission(_, flags) => CanEmit(s) && flags.more
    case Finish(_) => Executing(s)
    case ParkIt => Pendable(s)
    case HandOff => Pendable(s)
    case NoteStall => s.pc.Handed?
    case CancelParkedOne(t) => Cancelling(s, t) && t in s.core.waiting
    case CancelQueuedOne(t) => Cancelling(s, t) && t in s.core.queue
    case CancelAtWorkerOne(t) => Cancelling(s, t) && t in s.core.wq
    case BeginWait(ready) => CanWait(s, ready)
    case UnparkNext => s.pc.Retrying? && s.pc.ready != []
    case RetryAnswer(_) => s.pc.Retry?
    case Repark => s.pc.Retry?
    case EndRetries => s.pc.Retrying? && s.pc.ready == []
    case CompleteNext => s.pc.Completing? && s.pc.done != []
    case EndComplete => s.pc.Completing? && s.pc.done == []
    case SettleTicket => s.pc.Between?
    case Leave => s.pc.Between?
    case TakeWork => s.worker.WIdle? && s.core.wq != []
    case RaiseTicket(_) => CanRaise(s)
    case PostWork(res) => CanPostWork(s, res)
  }

  function Apply(s: System, act: Action): System
    requires Enabled(s, act)
  {
    match act
    case AdvanceHead(k) => DoAdvanceHead(s, k)
    case Meanwhile(moves) => s.(core := s.core.(moves := moves))
    case ForeignEmit(cqe) => Emitted(s, -1, cqe)
    case EnterCall => s.(pc := Intake([]))
    case TakeSqe(sqe) => DoTakeSqe(s, sqe)
    case Submit => DoSubmit(s)
    case QueueRests => s.(pc := Between)
    case CancelChained => DoCancelChained(s)
    case Dequeue => DoDequeue(s)
    case Lookup(realfd) => DoLookup(s, realfd)
    case Emission(res, flags) => DoEmission(s, res, flags)
    case Finish(res) => DoFinish(s, res)
    case ParkIt => DoPark(s)
    case HandOff => DoHandOff(s)
    case NoteStall => DoNoteStall(s)
    case CancelParkedOne(t) => DoCancelParked(s, t)
    case CancelQueuedOne(t) => DoCancelQueued(s, t)
    case CancelAtWorkerOne(t) => DoCancelAtWorker(s, t)
    case BeginWait(ready) => s.(pc := Retrying(ready, []))
    case UnparkNext => DoUnpark(s)
    case RetryAnswer(res) => DoRetryAnswer(s, res)
    case Repark => DoRepark(s)
    case EndRetries => s.(pc := Completing(s.pc.done))
    case CompleteNext => DoComplete(s)
    case EndComplete => s.(pc := Running)
    case SettleTicket => s.(core := Settle(s.core))
    case Leave => s.(pc := Outside)
    case TakeWork => DoTakeWork(s)
    case RaiseTicket(res) => DoRaise(s, res)
    case PostWork(res) => DoPostWork(s, res)
  }

  predicate ValidRun(s: System, acts: seq<Action>)
    decreases |acts|
  {
    acts == [] || (Enabled(s, acts[0]) && ValidRun(Apply(s, acts[0]), acts[1..]))
  }

  function Run(s: System, acts: seq<Action>): System
    requires ValidRun(s, acts)
    decreases |acts|
  {
    if acts == [] then s else Run(Apply(s, acts[0]), acts[1..])
  }

  function Slots(n: nat): seq<Addr> {
    seq(n, i => i)
  }

  function Setup(n: nat): System {
    System(
      Core(seq(n, i => Zeroed()), Slots(n), [], [], [], [], Holds, NIL, NIL, Holds, [], n, 0, [], []),
      Outside, WIdle, seq(n, i => -1), [], [], [])
  }
}
