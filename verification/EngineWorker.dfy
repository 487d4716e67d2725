/** Two more things every step keeps: an op that was put off holds a real descriptor, and the worker
    answers in the order in which ops were handed to it. */
module EngineWorker {
  import opened Lists
  import opened EngineCore
  import opened EngineSystem
  import opened EngineOwnership
  import opened EngineTickets
  import opened EngineChains
  import opened EngineLog

  /** Nobody rewrites the submission of an op, but for the lookup of the one in hand. */
  lemma SqeStays(s: System, act: Action, x: Addr)
    requires Owned(s) && Enabled(s, act) && LiveCnt(s, x) > 0 && !(act.Lookup? && x == s.pc.op)
    ensures OpAt(Apply(s, act).core, x).sqe == OpAt(s.core, x).sqe
  {
    if Answering(act) {
      AnswerIs(s, act);
      PostFrame(SettledBy(s, act), AnswerOf(s, act).op, AnswerOf(s, act).res);
    } else if act.ForeignEmit? || act.Emission? {
      LiveNotIdle(s, x);
      EmitKeeps(s.core, if act.ForeignEmit? then act.cqe
                        else Cqe(OpAt(s.core, s.pc.op).sqe.userData, act.res, act.flags), x);
    } else if act.CancelChained? {
      FrontSqeStays(s.core, x);
    } else if act.Lookup? {
      PostFrame(Standing(s.core, s.pc.op, -EBADF), s.pc.op, -EBADF);
    } else if act.SettleTicket? {
      DrainFacts(SettleStanding(s.core));
    } else {
      OtherSqeStays(s, act, x);
    }
  }

  lemma FrontSqeStays(c: Core, x: Addr)
    requires c.queue != []
    ensures OpAt(CancelFront(c), x).sqe == OpAt(c, x).sqe
  {
    PostFrame(Pop(c), c.queue[0], -ECANCELED);
    assert OpAt(Post(Pop(c), c.queue[0], -ECANCELED), x).sqe == OpAt(c, x).sqe;
  }

  lemma OtherSqeStays(s: System, act: Action, x: Addr)
    requires Owned(s) && Enabled(s, act) && !Posting(act) && !act.SettleTicket? && LiveCnt(s, x) > 0
    ensures OpAt(Apply(s, act).core, x).sqe == OpAt(s.core, x).sqe
  {
    if act.TakeSqe? {
      LiveNotIdle(s, x);
      assert Cnt(s.core.free, s.core.free[0]) > 0;
    } else if act.HandOff? {
    } else {
      assert Apply(s, act).core.ops == s.core.ops;
    }
  }

  // ---- real descriptors --------------------------------------------------

  /** No fixed-file index: the descriptor was looked up, or the op has none. */
  predicate Real(sqe: Sqe) {
    !sqe.fixedFile || sqe.opcode == Socket || sqe.opcode == Nop
  }

  /** Every op that is parked, waits for the worker or is with it, or is being retried or answered. */
  ghost predicate Resolved(s: System) {
    forall x | OutCnt(s, x) > 0 && s.pc != Holding(x) :: Real(OpAt(s.core, x).sqe)
  }

  /** Only the queue puts ops out. */
  lemma OutGrows(s: System, act: Action, x: Addr)
    requires Owned(s) && Enabled(s, act)
    ensures OutCnt(Apply(s, act), x) <= OutCnt(s, x) + if act.Dequeue? && x == s.core.queue[0] then 1 else 0
  {
    if Handling(act) { HandlingOut(s, act, x); } else { PendingOut(s, act, x); }
  }

  lemma HandlingOut(s: System, act: Action, x: Addr)
    requires Owned(s) && Enabled(s, act) && Handling(act)
    ensures OutCnt(Apply(s, act), x) <= OutCnt(s, x) + if act.Dequeue? && x == s.core.queue[0] then 1 else 0
  {
    match act
    case TakeSqe(sqe) => TakeSqeShift(s, sqe, x);
    case Submit => SubmitShift(s, x);
    case CancelChained => CancelChainedShift(s, x);
    case Dequeue => DequeueShift(s, x);
    case Lookup(realfd) => LookupShift(s, realfd, x);
    case ForeignEmit(cqe) => EmittedShift(s, -1, cqe, x);
    case Emission(res, flags) =>
      EmittedShift(s, SerialAt(s, s.pc.op), Cqe(OpAt(s.core, s.pc.op).sqe.userData, res, flags), x);
    case Finish(res) => FinishShift(s, res, x);
    case ParkIt => ParkShift(s, x);
    case HandOff => HandOffShift(s, x);
    case NoteStall =>
    case CancelParkedOne(a) => CancelParkedShift(s, a, x);
    case CancelQueuedOne(a) => CancelQueuedShift(s, a, x);
    case CancelAtWorkerOne(a) => CancelAtWorkerShift(s, a, x);
  }

  lemma PendingOut(s: System, act: Action, x: Addr)
    requires Owned(s) && Enabled(s, act) && !Handling(act)
    ensures OutCnt(Apply(s, act), x) <= OutCnt(s, x)
  {
    match act
    case UnparkNext => UnparkShift(s, x);
    case RetryAnswer(res) => RetryAnswerShift(s, res, x);
    case Repark => ReparkShift(s, x);
    case CompleteNext => CompleteShift(s, x);
    case SettleTicket => SettleFrame(s.core, x);
    case TakeWork => TakeWorkShift(s, x);
    case PostWork(res) => PostWorkShift(s, res, x);
    case RaiseTicket(_) =>
    case AdvanceHead(_) =>
    case Meanwhile(_) =>
    case EnterCall =>
    case QueueRests =>
    case BeginWait(_) =>
    case EndRetries =>
    case EndComplete =>
    case Leave =>
  }

  /** An op that leaves the submitter's hand and stays out was tried, so its descriptor was looked up. */
  lemma PutOff(s: System, act: Action)
    requires Owned(s) && Enabled(s, act) && s.pc.Holding? && Apply(s, act).pc != s.pc
    requires OutCnt(Apply(s, act), s.pc.op) > 0
    ensures Executing(s)
  {
    if act.Lookup? { LookedUpIsAnswered(s, act.realfd); }
  }

  lemma LookedUpIsAnswered(s: System, realfd: int)
    requires Owned(s) && CanLookup(s)
    ensures DoLookup(s, realfd).pc == s.pc || OutCnt(DoLookup(s, realfd), s.pc.op) == 0
  {
    assert Places(s, s.pc.op) <= 1;
    LookupShift(s, realfd, s.pc.op);
  }

  lemma ResolvedKept(s: System, act: Action)
    requires Owned(s) && Resolved(s) && Enabled(s, act)
    ensures Resolved(Apply(s, act))
  {
    var t := Apply(s, act);
    forall x | OutCnt(t, x) > 0 && t.pc != Holding(x) ensures Real(OpAt(t.core, x).sqe) {
      OutGrows(s, act, x);
      assert OutCnt(s, x) > 0;
      if s.pc == Holding(x) { PutOff(s, act); }
      SqeStays(s, act, x);
    }
  }

  lemma {:induction false} ResolvedAlways(s: System, acts: seq<Action>)
    requires Owned(s) && Resolved(s) && ValidRun(s, acts)
    ensures Resolved(Run(s, acts))
    decreases |acts|
  {
    if acts != [] {
      OwnedKept(s, acts[0]);
      ResolvedKept(s, acts[0]);
      ResolvedAlways(Apply(s, acts[0]), acts[1..]);
    }
  }

  // ---- the worker's order ------------------------------------------------

  /** What the worker holds and what waits for it. */
  function AtWork(s: System): seq<Addr> {
    InHand(s) + s.core.wq
  }

  /** It stands in the order of submission. */
  ghost predicate WorkInOrder(s: System) {
    Increasing(Serials(s, AtWork(s)))
  }

  lemma AtWorkOut(s: System, i: nat)
    requires i < |AtWork(s)|
    ensures OutCnt(s, AtWork(s)[i]) > 0 && Cnt(s.core.wq, AtWork(s)[i]) + WorkCnt(s.worker, AtWork(s)[i]) > 0
  {
    CntIn(s.core.wq, AtWork(s)[i]);
  }

  lemma SameWork(s: System, t: System)
    requires WorkInOrder(s) && AtWork(t) == AtWork(s)
    requires forall i | 0 <= i < |AtWork(s)| :: SerialAt(t, AtWork(s)[i]) == SerialAt(s, AtWork(s)[i])
    ensures WorkInOrder(t)
  {
    SerialsSame(s, t, AtWork(s));
  }

  /** Op x, at work, was submitted before the one in hand. */
  lemma BeforeHeld(s: System, x: Addr)
    requires Sound(s) && s.pc.Holding? && OutCnt(s, x) > 0 && Cnt(s.core.wq, x) + WorkCnt(s.worker, x) > 0
    ensures SerialAt(s, x) < SerialAt(s, s.pc.op)
  {
    HeldFacts(s);
    HeldIsLive(s);
    assert Tracked(s, x) && Tracked(s, s.pc.op);
    OrderFacts(s);
  }

  lemma HandOffInOrder(s: System)
    requires Sound(s) && WorkInOrder(s) && Pendable(s)
    ensures WorkInOrder(DoHandOff(s))
  {
    var t, w := DoHandOff(s), AtWork(s);
    assert AtWork(t) == w + [s.pc.op];
    forall i | 0 <= i < |w| ensures Serials(t, AtWork(t))[i] == Serials(s, w)[i] < SerialAt(s, s.pc.op) {
      AtWorkOut(s, i);
      BeforeHeld(s, w[i]);
    }
    assert Serials(t, AtWork(t)) == Serials(s, w) + [SerialAt(s, s.pc.op)];
  }

  lemma TakeSqeInOrder(s: System, sqe: Sqe)
    requires Sound(s) && WorkInOrder(s) && s.pc.Intake? && s.core.free != []
    ensures WorkInOrder(DoTakeSqe(s, sqe))
  {
    var t, a := DoTakeSqe(s, sqe), s.core.free[0];
    assert Cnt(s.core.free, a) > 0 && Places(s, a) <= 1;
    forall i | 0 <= i < |AtWork(s)| ensures SerialAt(t, AtWork(s)[i]) == SerialAt(s, AtWork(s)[i]) { AtWorkOut(s, i); }
    SameWork(s, t);
  }

  lemma LessInOrder(s: System, t: System, i: nat)
    requires WorkInOrder(s) && i < |AtWork(s)| && t.serialOf == s.serialOf
    requires AtWork(t) == AtWork(s)[..i] + AtWork(s)[i + 1..]
    ensures WorkInOrder(t)
  {
    var p, q := AtWork(s), AtWork(t);
    var u, v := Serials(s, p), Serials(t, q);
    forall j, k | 0 <= j < k < |v| ensures v[j] < v[k] {
      assert q[j] == p[if j < i then j else j + 1] && q[k] == p[if k < i then k else k + 1];
      assert v[j] == u[if j < i then j else j + 1] && v[k] == u[if k < i then k else k + 1];
    }
  }

  lemma CancelInOrder(s: System, x: Addr)
    requires Sound(s) && WorkInOrder(s) && Executing(s) && x in s.core.wq
    ensures WorkInOrder(DoCancelAtWorker(s, x))
  {
    var k := IndexOf(s.core.wq, x);
    CancelledWork(s, x);
    CutBehind(InHand(s), s.core.wq, k);
    LessInOrder(s, DoCancelAtWorker(s, x), |InHand(s)| + k);
  }

  function InHand(s: System): seq<Addr> {
    if s.worker.WIdle? then [] else [s.worker.op]
  }

  lemma CancelledWork(s: System, x: Addr)
    requires x in s.core.wq
    ensures var t, k := DoCancelAtWorker(s, x), IndexOf(s.core.wq, x);
      && AtWork(t) == InHand(s) + (s.core.wq[..k] + s.core.wq[k + 1..]) && t.serialOf == s.serialOf
  {
    CancelTargetFrame(s.core.(wq := Without(s.core.wq, x)), x, x);
  }

  lemma CutBehind(p: seq<Addr>, q: seq<Addr>, k: nat)
    requires k < |q|
    ensures p + (q[..k] + q[k + 1..]) == (p + q)[..|p| + k] + (p + q)[|p| + k + 1..]
  {
    assert (p + q)[..|p| + k] == p + q[..k] && (p + q)[|p| + k + 1..] == q[k + 1..];
  }

  lemma PostInOrder(s: System, res: int)
    requires Sound(s) && WorkInOrder(s) && CanPostWork(s, res)
    ensures WorkInOrder(DoPostWork(s, res))
  {
    PostFrame(s.core, s.worker.op, res);
    assert AtWork(s)[1..] == s.core.wq;
    assert AtWork(DoPostWork(s, res)) == AtWork(s)[..0] + AtWork(s)[1..];
    LessInOrder(s, DoPostWork(s, res), 0);
  }

  lemma WorkStays(s: System, act: Action)
    requires Owned(s) && Enabled(s, act)
    requires !act.HandOff? && !act.TakeSqe? && !act.CancelAtWorkerOne? && !act.PostWork?
    ensures AtWork(Apply(s, act)) == AtWork(s) && Apply(s, act).serialOf == s.serialOf
  {
    if Answering(act) {
      AnswerWorkStays(s, act);
    } else if act.ForeignEmit? {
      EmitFrame(s.core, act.cqe);
    } else if act.Emission? {
      EmitFrame(s.core, Cqe(OpAt(s.core, s.pc.op).sqe.userData, act.res, act.flags));
    } else if act.CancelChained? {
      PostFrame(Pop(s.core), s.core.queue[0], -ECANCELED);
    } else if act.Lookup? {
      PostFrame(Standing(s.core, s.pc.op, -EBADF), s.pc.op, -EBADF);
    } else if act.SettleTicket? {
      DrainFacts(SettleStanding(s.core));
    } else {
      OtherWorkStays(s, act);
    }
  }

  lemma AnswerWorkStays(s: System, act: Action)
    requires Enabled(s, act) && Answering(act) && !act.CancelAtWorkerOne? && !act.PostWork?
    ensures AtWork(Apply(s, act)) == AtWork(s) && Apply(s, act).serialOf == s.serialOf
  {
    AnswerIs(s, act);
    PostFrame(SettledBy(s, act), AnswerOf(s, act).op, AnswerOf(s, act).res);
    assert SettledBy(s, act).wq == s.core.wq;
  }

  lemma OtherWorkStays(s: System, act: Action)
    requires Enabled(s, act) && !Posting(act) && !act.SettleTicket? && !act.HandOff? && !act.TakeSqe?
    ensures AtWork(Apply(s, act)) == AtWork(s) && Apply(s, act).serialOf == s.serialOf
  {
    if act.TakeWork? { assert s.core.wq == [s.core.wq[0]] + s.core.wq[1..]; }
  }

  lemma WorkInOrderKept(s: System, act: Action)
    requires Sound(s) && WorkInOrder(s) && Enabled(s, act)
    ensures WorkInOrder(Apply(s, act))
  {
    if act.HandOff? {
      HandOffInOrder(s);
    } else if act.TakeSqe? {
      TakeSqeInOrder(s, act.sqe);
    } else if act.CancelAtWorkerOne? {
      CancelInOrder(s, act.t);
    } else if act.PostWork? {
      PostInOrder(s, act.res);
    } else {
      WorkStays(s, act);
      SameWork(s, Apply(s, act));
    }
  }

  /** Over every run the ops that wait for the worker, and the one it holds before them, stand in the
      order of submission; so it answers them in that order. */
  lemma {:induction false} WorkInOrderAlways(s: System, acts: seq<Action>)
    requires Sound(s) && WorkInOrder(s) && ValidRun(s, acts)
    ensures WorkInOrder(Run(s, acts))
    decreases |acts|
  {
    if acts != [] {
      SoundKept(s, acts[0]);
      WorkInOrderKept(s, acts[0]);
      WorkInOrderAlways(Apply(s, acts[0]), acts[1..]);
    }
  }
}
