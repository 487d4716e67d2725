/** Ownership: in every interleaving each pool slot is in exactly one place, and each
    submission that has not been answered sits in exactly one slot. */
module EngineOwnership {
  import opened Lists
  import opened EngineCore
  import opened EngineSystem

  function DoneCnt(done: seq<Done>, x: Addr): nat {
    if done == [] then 0 else (if done[0].op == x then 1 else 0) + DoneCnt(done[1..], x)
  }

  /** How often slot x is taken off the submission ring and not yet off the queue. */
  function PendCnt(s: System, x: Addr): nat {
    Cnt(s.core.queue, x) + if s.pc.Intake? then Cnt(s.pc.batch, x) else 0
  }

  /** How often the submitter holds slot x after taking it off the queue or out of waiting[]. */
  function HandCnt(pc: Pc, x: Addr): nat {
    match pc
    case Holding(op) => if op == x then 1 else 0
    case Retrying(_, done) => DoneCnt(done, x)
    case Retry(op, _, done) => DoneCnt(done, x) + if op == x then 1 else 0
    case Completing(done) => DoneCnt(done, x)
    case _ => 0
  }

  function WorkCnt(w: Worker, x: Addr): nat {
    if w.WIdle? then 0 else if w.op == x then 1 else 0
  }

  /** How often slot x is taken off the queue and not yet answered. */
  function OutCnt(s: System, x: Addr): nat {
    Cnt(s.core.waiting, x) + Cnt(s.core.wq, x) + HandCnt(s.pc, x) + WorkCnt(s.worker, x)
  }

  function LiveCnt(s: System, x: Addr): nat {
    PendCnt(s, x) + OutCnt(s, x)
  }

  /** In how many places slot x is, over all lists and hands. */
  function Places(s: System, x: Addr): nat {
    LiveCnt(s, x) + Idle(s.core, x)
  }

  ghost predicate Partition(s: System) {
    && |s.serialOf| == |s.core.ops|
    && (forall x :: Places(s, x) == if 0 <= x < |s.core.ops| then 1 else 0)
  }

  /** The ready list names parked ops, each once: the ones not yet visited stay parked. */
  ghost predicate ReadyParked(s: System) {
    (s.pc.Retrying? || s.pc.Retry?) ==> forall x :: Cnt(s.pc.ready, x) <= Cnt(s.core.waiting, x)
  }

  ghost predicate Tracked(s: System, x: Addr) {
    var k := SerialAt(s, x);
    && 0 <= k < |s.hist|
    && s.hist[k].fate == InFlight(x)
    && s.hist[k].link == OpAt(s.core, x).sqe.link
    && s.hist[k].skip == OpAt(s.core, x).sqe.skip
    && s.hist[k].userData == OpAt(s.core, x).sqe.userData && OpAt(s.core, x).cqeFlags == NoFlags()
  }

  /** Slots in use and unanswered submissions name each other. */
  ghost predicate Tracking(s: System) {
    && (forall x | LiveCnt(s, x) > 0 :: Tracked(s, x))
    && (forall k | 0 <= k < |s.hist| && s.hist[k].fate.InFlight? ::
          LiveCnt(s, s.hist[k].fate.at) > 0 && SerialAt(s, s.hist[k].fate.at) == k)
  }

  // ---- what each action does to the places of one slot -------------------

  /** From s to t slot x moves by these amounts. */
  ghost predicate Shift(s: System, t: System, x: Addr, pend: int, out: int, idle: int) {
    && PendCnt(t, x) == PendCnt(s, x) + pend
    && OutCnt(t, x) == OutCnt(s, x) + out
    && Idle(t.core, x) == Idle(s.core, x) + idle
  }

  function One(x: Addr, a: Addr): int {
    if x == a then 1 else 0
  }

  lemma TakeSqeShift(s: System, sqe: Sqe, x: Addr)
    requires s.pc.Intake? && s.core.free != []
    ensures var d := One(x, s.core.free[0]); Shift(s, DoTakeSqe(s, sqe), x, d, 0, -d)
  {
    CntSnoc(s.pc.batch, s.core.free[0], x);
  }

  lemma SubmitShift(s: System, x: Addr)
    requires s.pc.Intake?
    ensures Shift(s, DoSubmit(s), x, 0, 0, 0)
  {
    CntConcat(s.core.queue, s.pc.batch, x);
  }

  lemma CancelChainedShift(s: System, x: Addr)
    requires CanCancelChained(s)
    ensures var d := One(x, s.core.queue[0]); Shift(s, DoCancelChained(s), x, -d, 0, d)
  {
    var c, a := s.core, s.core.queue[0];
    if c.chainFailed == CancelsQuietly {
      CntCons(a, c.free, x);
    } else {
      PostFrame(Pop(c), a, -ECANCELED);
      PostIdle(Pop(c), a, -ECANCELED, x);
    }
  }

  lemma DequeueShift(s: System, x: Addr)
    requires CanDequeue(s)
    ensures var d := One(x, s.core.queue[0]); Shift(s, DoDequeue(s), x, -d, d, 0)
  {
  }

  lemma LookupShift(s: System, realfd: int, x: Addr)
    requires CanLookup(s)
    ensures var d := if realfd < 0 then One(x, s.pc.op) else 0; Shift(s, DoLookup(s, realfd), x, 0, -d, d)
  {
    var c := Standing(s.core, s.pc.op, -EBADF);
    PostFrame(c, s.pc.op, -EBADF);
    PostIdle(c, s.pc.op, -EBADF, x);
  }

  lemma EmittedShift(s: System, serial: int, cqe: Cqe, x: Addr)
    ensures Shift(s, Emitted(s, serial, cqe), x, 0, 0, 0)
  {
    EmitFrame(s.core, cqe);
    EmitIdle(s.core, cqe, x);
  }

  lemma FinishShift(s: System, res: int, x: Addr)
    requires Executing(s)
    ensures var d := One(x, s.pc.op); Shift(s, DoFinish(s, res), x, 0, -d, d)
  {
    var c := AnswerStanding(s.core, s.pc.op, res);
    PostFrame(c, s.pc.op, res);
    PostIdle(c, s.pc.op, res, x);
  }

  lemma ParkShift(s: System, x: Addr)
    requires Pendable(s)
    ensures Shift(s, DoPark(s), x, 0, 0, 0)
  {
    CntSnoc(s.core.waiting, s.pc.op, x);
  }

  lemma HandOffShift(s: System, x: Addr)
    requires Pendable(s)
    ensures Shift(s, DoHandOff(s), x, 0, 0, 0)
  {
    CntSnoc(s.core.wq, s.pc.op, x);
  }

  lemma CancelTargetFrame(c: Core, t: Addr, x: Addr)
    ensures var d := CancelTarget(c, t);
      && d.queue == c.queue && d.waiting == c.waiting && d.wq == c.wq && |d.ops| == |c.ops|
      && Idle(d, x) == Idle(c, x) + One(x, t)
  {
    var d := CancelStanding(c, t);
    PostFrame(d, t, -ECANCELED);
    PostIdle(d, t, -ECANCELED, x);
  }

  lemma CancelParkedShift(s: System, t: Addr, x: Addr)
    requires t in s.core.waiting
    ensures var d := One(x, t); Shift(s, DoCancelParked(s, t), x, 0, -d, d)
  {
    CntSwapRemove(s.core.waiting, IndexOf(s.core.waiting, t), x);
    CancelTargetFrame(Unpark(s.core, t), t, x);
  }

  lemma CancelQueuedShift(s: System, t: Addr, x: Addr)
    requires t in s.core.queue
    ensures var d := One(x, t); Shift(s, DoCancelQueued(s, t), x, -d, 0, d)
  {
    CntWithout(s.core.queue, t, x);
    CancelTargetFrame(s.core.(queue := Without(s.core.queue, t)), t, x);
  }

  lemma CancelAtWorkerShift(s: System, t: Addr, x: Addr)
    requires t in s.core.wq
    ensures var d := One(x, t); Shift(s, DoCancelAtWorker(s, t), x, 0, -d, d)
  {
    CntWithout(s.core.wq, t, x);
    CancelTargetFrame(s.core.(wq := Without(s.core.wq, t)), t, x);
  }

  lemma UnparkShift(s: System, x: Addr)
    requires s.pc.Retrying? && s.pc.ready != [] && ReadyParked(s)
    ensures Shift(s, DoUnpark(s), x, 0, 0, 0)
  {
    var a := s.pc.ready[0];
    CntIn(s.core.waiting, a);
    assert Cnt(s.pc.ready, a) > 0;
    CntSwapRemove(s.core.waiting, IndexOf(s.core.waiting, a), x);
  }

  lemma {:induction false} DoneSnoc(done: seq<Done>, d: Done, x: Addr)
    ensures DoneCnt(done + [d], x) == DoneCnt(done, x) + One(x, d.op)
  {
    if done == [] {
      assert (done + [d])[1..] == [];
    } else {
      assert (done + [d])[1..] == done[1..] + [d];
      DoneSnoc(done[1..], d, x);
    }
  }

  lemma RetryAnswerShift(s: System, res: int, x: Addr)
    requires s.pc.Retry?
    ensures Shift(s, DoRetryAnswer(s, res), x, 0, 0, 0)
  {
    DoneSnoc(s.pc.done, Done(s.pc.op, res), x);
  }

  lemma ReparkShift(s: System, x: Addr)
    requires s.pc.Retry?
    ensures Shift(s, DoRepark(s), x, 0, 0, 0)
  {
    CntSnoc(s.core.waiting, s.pc.op, x);
  }

  lemma CompleteShift(s: System, x: Addr)
    requires s.pc.Completing? && s.pc.done != []
    ensures var d := One(x, s.pc.done[0].op); Shift(s, DoComplete(s), x, 0, -d, d)
  {
    CompleteFrame(s.core, s.pc.done[0].op, s.pc.done[0].res, x);
  }

  lemma CompleteFrame(c: Core, a: Addr, res: int, x: Addr)
    ensures var d := Complete(c, a, res);
      && d.queue == c.queue && d.waiting == c.waiting && d.wq == c.wq && |d.ops| == |c.ops|
      && Idle(d, x) == Idle(c, x) + One(x, a)
  {
    var d := CompleteStanding(c, a, res);
    PostFrame(d, a, res);
    PostIdle(d, a, res, x);
  }

  lemma SettleFrame(c: Core, x: Addr)
    ensures var d := Settle(c);
      && d.queue == c.queue && d.waiting == c.waiting && d.wq == c.wq && d.ops == c.ops
      && Idle(d, x) == Idle(c, x)
  {
    var d := SettleStanding(c);
    DrainFacts(d);
    DrainIdle(d, x);
  }

  lemma TakeWorkShift(s: System, x: Addr)
    requires s.worker.WIdle? && s.core.wq != []
    ensures Shift(s, DoTakeWork(s), x, 0, 0, 0)
  {
  }

  lemma PostWorkShift(s: System, res: int, x: Addr)
    requires CanPostWork(s, res)
    ensures var d := One(x, s.worker.op); Shift(s, DoPostWork(s, res), x, 0, -d, d)
  {
    PostFrame(s.core, s.worker.op, res);
    PostIdle(s.core, s.worker.op, res, x);
  }

  // ---- the invariant -----------------------------------------------------

  ghost predicate Owned(s: System) {
    Partition(s) && ReadyParked(s) && Tracking(s)
  }

  ghost predicate SameFlags(c: Core, d: Core, x: Addr) {
    && OpAt(d, x).sqe.link == OpAt(c, x).sqe.link && OpAt(d, x).sqe.skip == OpAt(c, x).sqe.skip
    && OpAt(d, x).sqe.userData == OpAt(c, x).sqe.userData && OpAt(d, x).cqeFlags == OpAt(c, x).cqeFlags
  }

  /** Slot x keeps its place in the count; a leaves the unanswered slots, no other does. */
  ghost predicate Moved(s: System, t: System, a: Addr, x: Addr) {
    && Places(t, x) == Places(s, x)
    && LiveCnt(s, x) == LiveCnt(t, x) + (if a == NIL then 0 else One(x, a))
    && (x != a && LiveCnt(s, x) > 0 ==> SameFlags(s.core, t.core, x))
  }

  /** The history settles the submission in slot a, if a names one, and no other. */
  ghost predicate SettlesOnly(s: System, t: System, a: Addr) {
    && t.serialOf == s.serialOf && |t.core.ops| == |s.core.ops|
    && |t.hist| == |s.hist|
    && (forall k | 0 <= k < |s.hist| && !(LiveCnt(s, a) > 0 && k == SerialAt(s, a)) :: t.hist[k] == s.hist[k])
    && (LiveCnt(s, a) > 0 ==>
          var k := SerialAt(s, a); 0 <= k < |s.hist| && !t.hist[k].fate.InFlight?)
  }

  lemma OwnedStep(s: System, t: System, a: Addr)
    requires Owned(s) && SettlesOnly(s, t, a)
    requires forall x :: Moved(s, t, a, x)
    ensures Partition(t) && Tracking(t)
  {
    forall x
      ensures Places(t, x) == if 0 <= x < |t.core.ops| then 1 else 0
      ensures LiveCnt(t, x) > 0 ==> Tracked(t, x)
    {
      assert Moved(s, t, a, x);
      assert Places(s, x) <= 1;
      if LiveCnt(t, x) > 0 {
        assert x != a && LiveCnt(s, x) > 0;
        assert Tracked(s, x);
        if LiveCnt(s, a) > 0 { assert Tracked(s, a); }
      }
    }
    forall k | 0 <= k < |t.hist| && t.hist[k].fate.InFlight?
      ensures LiveCnt(t, t.hist[k].fate.at) > 0 && SerialAt(t, t.hist[k].fate.at) == k
    {
      assert t.hist[k] == s.hist[k];
      var x := s.hist[k].fate.at;
      assert SerialAt(s, x) == k && LiveCnt(s, x) > 0;
      assert Moved(s, t, a, x);
    }
  }

  lemma LiveNotIdle(s: System, x: Addr)
    requires Partition(s) && LiveCnt(s, x) > 0
    ensures 0 <= x < |s.core.ops| && Idle(s.core, x) == 0
  {
    assert Places(s, x) == if 0 <= x < |s.core.ops| then 1 else 0;
  }

  /** Slot a, idle before, now holds the newest submission. */
  ghost predicate Grown(s: System, t: System, a: Addr, x: Addr) {
    && Places(t, x) == Places(s, x)
    && LiveCnt(t, x) == LiveCnt(s, x) + One(x, a)
    && (x == a ==> LiveCnt(s, x) == 0 && SerialAt(t, x) == |s.hist| && Tracked(t, x))
    && (x != a && LiveCnt(s, x) > 0 ==> SameFlags(s.core, t.core, x) && SerialAt(t, x) == SerialAt(s, x))
  }

  lemma OwnedGrows(s: System, t: System, a: Addr)
    requires Owned(s)
    requires |t.serialOf| == |s.serialOf| && |t.core.ops| == |s.core.ops|
    requires |t.hist| == |s.hist| + 1 && t.hist[..|s.hist|] == s.hist && t.hist[|s.hist|].fate == InFlight(a)
    requires forall x :: Grown(s, t, a, x)
    ensures Partition(t) && Tracking(t)
  {
    forall x
      ensures Places(t, x) == if 0 <= x < |t.core.ops| then 1 else 0
      ensures LiveCnt(t, x) > 0 ==> Tracked(t, x)
    {
      assert Grown(s, t, a, x);
      if x != a && LiveCnt(s, x) > 0 {
        assert Tracked(s, x);
        assert t.hist[SerialAt(s, x)] == t.hist[..|s.hist|][SerialAt(s, x)];
      }
    }
    forall k | 0 <= k < |t.hist| && t.hist[k].fate.InFlight?
      ensures LiveCnt(t, t.hist[k].fate.at) > 0 && SerialAt(t, t.hist[k].fate.at) == k
    {
      if k < |s.hist| {
        assert t.hist[k] == t.hist[..|s.hist|][k];
        assert Grown(s, t, a, s.hist[k].fate.at);
      }
      assert Grown(s, t, a, a);
    }
  }

  lemma TakeSqeGrows(s: System, sqe: Sqe, x: Addr)
    requires Owned(s) && s.pc.Intake? && s.core.free != []
    ensures Grown(s, DoTakeSqe(s, sqe), s.core.free[0], x)
  {
    var a := s.core.free[0];
    TakeSqeShift(s, sqe, x);
    assert Cnt(s.core.free, a) > 0;
    assert Places(s, a) == if 0 <= a < |s.core.ops| then 1 else 0;
  }

  lemma TakeSqeOwned(s: System, sqe: Sqe)
    requires Owned(s) && s.pc.Intake? && s.core.free != []
    ensures Owned(DoTakeSqe(s, sqe))
  {
    var t := DoTakeSqe(s, sqe);
    forall x ensures Grown(s, t, s.core.free[0], x) { TakeSqeGrows(s, sqe, x); }
    OwnedGrows(s, t, s.core.free[0]);
  }

  lemma SubmitOwned(s: System)
    requires Owned(s) && s.pc.Intake?
    ensures Owned(DoSubmit(s))
  {
    forall x ensures Moved(s, DoSubmit(s), NIL, x) { SubmitShift(s, x); }
    NilNowhere(s);
    OwnedStep(s, DoSubmit(s), NIL);
  }

  lemma NilNowhere(s: System)
    requires Partition(s)
    ensures LiveCnt(s, NIL) == 0 && Idle(s.core, NIL) == 0
  {
    assert Places(s, NIL) == if 0 <= NIL < |s.core.ops| then 1 else 0;
  }

  lemma CancelChainedOwned(s: System)
    requires Owned(s) && CanCancelChained(s)
    ensures Owned(DoCancelChained(s))
  {
    var t := DoCancelChained(s);
    var a := s.core.queue[0];
    assert LiveCnt(s, a) > 0 && Tracked(s, a) && a != NIL by {
      assert Cnt(s.core.queue, a) > 0;
      LiveNotIdle(s, a);
    }
    forall x ensures Moved(s, t, a, x) { CancelChainedShift(s, x); CancelFrontKeeps(s.core, x); }
    CancelFrontKeeps(s.core, a);
    OwnedStep(s, t, a);
  }

  lemma CancelFrontKeeps(c: Core, x: Addr)
    requires c.queue != []
    ensures |CancelFront(c).ops| == |c.ops|
    ensures x != c.queue[0] ==> SameFlags(c, CancelFront(c), x)
  {
    PostFrame(Pop(c), c.queue[0], -ECANCELED);
    if x != c.queue[0] { PostKeeps(Pop(c), c.queue[0], -ECANCELED, x); }
  }

  lemma DequeueOwned(s: System)
    requires Owned(s) && CanDequeue(s)
    ensures Owned(DoDequeue(s))
  {
    var t := DoDequeue(s);
    forall x ensures Moved(s, t, NIL, x) { DequeueShift(s, x); }
    NilNowhere(s);
    OwnedStep(s, t, NIL);
  }

  lemma HeldIsLive(s: System)
    requires Owned(s) && (s.pc.Holding? || s.pc.Retry?)
    ensures LiveCnt(s, s.pc.op) > 0 && Tracked(s, s.pc.op) && s.pc.op != NIL
    ensures 0 <= s.pc.op < |s.core.ops| && Idle(s.core, s.pc.op) == 0
  {
    LiveNotIdle(s, s.pc.op);
  }

  /** Posting the op the submitter holds, whatever its chain standing became. */
  lemma HeldAnswered(s: System, c: Core, a: Addr, res: int, x: Addr)
    requires c == s.core.(chainFailed := c.chainFailed, blocking := c.blocking)
    ensures |Post(c, a, res).ops| == |s.core.ops|
    ensures x != a ==> SameFlags(s.core, Post(c, a, res), x)
  {
    PostFrame(c, a, res);
    if x != a { PostKeeps(c, a, res, x); }
  }

  lemma LookupOwned(s: System, realfd: int)
    requires Owned(s) && CanLookup(s)
    ensures Owned(DoLookup(s, realfd))
  {
    var t := DoLookup(s, realfd);
    var a := s.pc.op;
    var c := Standing(s.core, a, -EBADF);
    HeldIsLive(s);
    var gone := if realfd < 0 then a else NIL;
    forall x ensures Moved(s, t, gone, x) {
      LookupShift(s, realfd, x);
      HeldAnswered(s, c, a, -EBADF, x);
    }
    NilNowhere(s);
    HeldAnswered(s, c, a, -EBADF, a);
    OwnedStep(s, t, gone);
  }

  lemma EmittedMoved(s: System, serial: int, cqe: Cqe, x: Addr)
    requires Owned(s)
    ensures Moved(s, Emitted(s, serial, cqe), NIL, x)
  {
    EmittedShift(s, serial, cqe, x);
    if LiveCnt(s, x) > 0 { LiveNotIdle(s, x); EmitKeeps(s.core, cqe, x); }
  }

  lemma EmittedOwned(s: System, serial: int, cqe: Cqe)
    requires Owned(s)
    ensures Owned(Emitted(s, serial, cqe))
  {
    var t := Emitted(s, serial, cqe);
    forall x ensures Moved(s, t, NIL, x) { EmittedMoved(s, serial, cqe, x); }
    NilNowhere(s);
    EmitFrame(s.core, cqe);
    OwnedStep(s, t, NIL);
  }

  lemma FinishOwned(s: System, res: int)
    requires Owned(s) && Executing(s)
    ensures Owned(DoFinish(s, res))
  {
    var t := DoFinish(s, res);
    var a := s.pc.op;
    var c := AnswerStanding(s.core, a, res);
    HeldIsLive(s);
    forall x ensures Moved(s, t, a, x) {
      FinishShift(s, res, x);
      HeldAnswered(s, c, a, res, x);
    }
    HeldAnswered(s, c, a, res, a);
    OwnedStep(s, t, a);
  }

  lemma ParkOwned(s: System)
    requires Owned(s) && Pendable(s)
    ensures Owned(DoPark(s))
  {
    forall x ensures Moved(s, DoPark(s), NIL, x) { ParkShift(s, x); }
    NilNowhere(s);
    OwnedStep(s, DoPark(s), NIL);
  }

  lemma HandOffOwned(s: System)
    requires Owned(s) && Pendable(s)
    ensures Owned(DoHandOff(s))
  {
    forall x ensures Moved(s, DoHandOff(s), NIL, x) { HandOffShift(s, x); }
    NilNowhere(s);
    OwnedStep(s, DoHandOff(s), NIL);
  }

  lemma CancelTargetKeeps(c: Core, t: Addr, x: Addr)
    ensures x != t ==> SameFlags(c, CancelTarget(c, t), x)
  {
    var d := CancelStanding(c, t);
    if x != t { PostKeeps(d, t, -ECANCELED, x); }
  }

  /** Slot t is idle now, and left the queue or what was out. */
  ghost predicate LeavesBy(s: System, u: System, t: Addr, queued: bool, x: Addr) {
    var d := One(x, t);
    Shift(s, u, x, if queued then -d else 0, if queued then 0 else -d, d)
  }

  /** A cancel takes the slot off one of the three lists; the rest is the same for each. */
  lemma CancelledOwned(s: System, u: System, c: Core, t: Addr, queued: bool)
    requires Owned(s) && s.pc.Holding? && LiveCnt(s, t) > 0 && c.ops == s.core.ops
    requires u == Answered(s, CancelTarget(c, t), t, -ECANCELED)
    requires forall x :: LeavesBy(s, u, t, queued, x)
    ensures Owned(u)
  {
    assert Tracked(s, t);
    LiveNotIdle(s, t);
    forall x ensures Moved(s, u, t, x) {
      assert LeavesBy(s, u, t, queued, x);
      CancelTargetKeeps(c, t, x);
    }
    CancelTargetFrame(c, t, t);
    OwnedStep(s, u, t);
  }

  lemma CancelParkedOwned(s: System, t: Addr)
    requires Owned(s) && s.pc.Holding? && t in s.core.waiting
    ensures Owned(DoCancelParked(s, t))
  {
    CntIn(s.core.waiting, t);
    var u := DoCancelParked(s, t);
    forall x ensures LeavesBy(s, u, t, false, x) { CancelParkedShift(s, t, x); }
    CancelledOwned(s, u, Unpark(s.core, t), t, false);
  }

  lemma CancelQueuedOwned(s: System, t: Addr)
    requires Owned(s) && s.pc.Holding? && t in s.core.queue
    ensures Owned(DoCancelQueued(s, t))
  {
    CntIn(s.core.queue, t);
    var u := DoCancelQueued(s, t);
    forall x ensures LeavesBy(s, u, t, true, x) { CancelQueuedShift(s, t, x); }
    CancelledOwned(s, u, s.core.(queue := Without(s.core.queue, t)), t, true);
  }

  lemma CancelAtWorkerOwned(s: System, t: Addr)
    requires Owned(s) && s.pc.Holding? && t in s.core.wq
    ensures Owned(DoCancelAtWorker(s, t))
  {
    CntIn(s.core.wq, t);
    var u := DoCancelAtWorker(s, t);
    forall x ensures LeavesBy(s, u, t, false, x) { CancelAtWorkerShift(s, t, x); }
    CancelledOwned(s, u, s.core.(wq := Without(s.core.wq, t)), t, false);
  }

  lemma WaitOwned(s: System, ready: seq<Addr>)
    requires Owned(s) && CanWait(s, ready)
    ensures Owned(s.(pc := Retrying(ready, [])))
  {
    var t := s.(pc := Retrying(ready, []));
    forall x ensures Moved(s, t, NIL, x) { }
    NilNowhere(s);
    OwnedStep(s, t, NIL);
    forall x ensures Cnt(ready, x) <= Cnt(s.core.waiting, x) {
      CntDistinct(ready, x);
      CntIn(ready, x);
      CntIn(s.core.waiting, x);
    }
  }

  lemma UnparkOwned(s: System)
    requires Owned(s) && s.pc.Retrying? && s.pc.ready != []
    ensures Owned(DoUnpark(s))
  {
    var t := DoUnpark(s);
    forall x ensures Moved(s, t, NIL, x) { UnparkShift(s, x); }
    NilNowhere(s);
    OwnedStep(s, t, NIL);
    var a := s.pc.ready[0];
    CntIn(s.core.waiting, a);
    assert Cnt(s.pc.ready, a) > 0;
    forall x ensures Cnt(t.pc.ready, x) <= Cnt(t.core.waiting, x) {
      CntSwapRemove(s.core.waiting, IndexOf(s.core.waiting, a), x);
    }
  }

  lemma RetryAnswerOwned(s: System, res: int)
    requires Owned(s) && s.pc.Retry?
    ensures Owned(DoRetryAnswer(s, res))
  {
    forall x ensures Moved(s, DoRetryAnswer(s, res), NIL, x) { RetryAnswerShift(s, res, x); }
    NilNowhere(s);
    OwnedStep(s, DoRetryAnswer(s, res), NIL);
  }

  lemma ReparkOwned(s: System)
    requires Owned(s) && s.pc.Retry?
    ensures Owned(DoRepark(s))
  {
    forall x ensures Moved(s, DoRepark(s), NIL, x) { ReparkShift(s, x); }
    NilNowhere(s);
    OwnedStep(s, DoRepark(s), NIL);
    forall x ensures Cnt(s.pc.ready, x) <= Cnt(DoRepark(s).core.waiting, x) {
      CntSnoc(s.core.waiting, s.pc.op, x);
    }
  }

  lemma CompleteOwned(s: System)
    requires Owned(s) && s.pc.Completing? && s.pc.done != []
    ensures Owned(DoComplete(s))
  {
    var t := DoComplete(s);
    var a, res := s.pc.done[0].op, s.pc.done[0].res;
    assert LiveCnt(s, a) > 0 by { assert DoneCnt(s.pc.done, a) > 0; }
    assert Tracked(s, a);
    LiveNotIdle(s, a);
    var c := CompleteStanding(s.core, a, res);
    forall x ensures Moved(s, t, a, x) {
      CompleteShift(s, x);
      HeldAnswered(s, c, a, res, x);
    }
    HeldAnswered(s, c, a, res, a);
    OwnedStep(s, t, a);
  }

  lemma SettleOwned(s: System)
    requires Owned(s) && s.pc.Between?
    ensures Owned(s.(core := Settle(s.core)))
  {
    var t := s.(core := Settle(s.core));
    forall x ensures Moved(s, t, NIL, x) { SettleFrame(s.core, x); }
    SettleFrame(s.core, NIL);
    NilNowhere(s);
    OwnedStep(s, t, NIL);
  }

  lemma TakeWorkOwned(s: System)
    requires Owned(s) && s.worker.WIdle? && s.core.wq != []
    ensures Owned(DoTakeWork(s))
  {
    forall x ensures Moved(s, DoTakeWork(s), NIL, x) { TakeWorkShift(s, x); }
    NilNowhere(s);
    OwnedStep(s, DoTakeWork(s), NIL);
  }

  lemma RaiseOwned(s: System, res: int)
    requires Owned(s) && CanRaise(s)
    ensures Owned(DoRaise(s, res))
  {
    forall x ensures Moved(s, DoRaise(s, res), NIL, x) { }
    NilNowhere(s);
    OwnedStep(s, DoRaise(s, res), NIL);
  }

  lemma PostWorkOwned(s: System, res: int)
    requires Owned(s) && CanPostWork(s, res)
    ensures Owned(DoPostWork(s, res))
  {
    var t := DoPostWork(s, res);
    var a := s.worker.op;
    assert Tracked(s, a);
    LiveNotIdle(s, a);
    forall x ensures Moved(s, t, a, x) {
      PostWorkShift(s, res, x);
      HeldAnswered(s, s.core, a, res, x);
    }
    HeldAnswered(s, s.core, a, res, a);
    OwnedStep(s, t, a);
    PostFrame(s.core, a, res);
  }

  /** The submitter moves on, or the caller reads: no slot moves. */
  lemma IdleStepOwned(s: System, t: System)
    requires Owned(s)
    requires t == s.(pc := t.pc,
                     core := s.core.(unread := t.core.unread, moves := t.core.moves, delivered := t.core.delivered))
    requires forall x :: PendCnt(t, x) == PendCnt(s, x) && HandCnt(t.pc, x) == HandCnt(s.pc, x)
    requires (t.pc.Retrying? || t.pc.Retry?) ==> t.pc == s.pc
    ensures Owned(t)
  {
    forall x ensures Moved(s, t, NIL, x) { assert PendCnt(t, x) == PendCnt(s, x); }
    NilNowhere(s);
    OwnedStep(s, t, NIL);
  }

  // ---- every run ---------------------------------------------------------

  lemma OwnedKept(s: System, act: Action)
    requires Owned(s) && Enabled(s, act)
    ensures Owned(Apply(s, act))
  {
    match act
    case TakeSqe(sqe) => TakeSqeOwned(s, sqe);
    case Submit => SubmitOwned(s);
    case CancelChained => CancelChainedOwned(s);
    case Dequeue => DequeueOwned(s);
    case Lookup(realfd) => LookupOwned(s, realfd);
    case ForeignEmit(cqe) => EmittedOwned(s, -1, cqe);
    case Emission(res, flags) =>
      EmittedOwned(s, SerialAt(s, s.pc.op), Cqe(OpAt(s.core, s.pc.op).sqe.userData, res, flags));
    case Finish(res) => FinishOwned(s, res);
    case ParkIt => ParkOwned(s);
    case HandOff => HandOffOwned(s);
    case CancelParkedOne(t) => CancelParkedOwned(s, t);
    case CancelQueuedOne(t) => CancelQueuedOwned(s, t);
    case CancelAtWorkerOne(t) => CancelAtWorkerOwned(s, t);
    case BeginWait(ready) => WaitOwned(s, ready);
    case UnparkNext => UnparkOwned(s);
    case RetryAnswer(res) => RetryAnswerOwned(s, res);
    case Repark => ReparkOwned(s);
    case CompleteNext => CompleteOwned(s);
    case SettleTicket => SettleOwned(s);
    case TakeWork => TakeWorkOwned(s);
    case RaiseTicket(res) => RaiseOwned(s, res);
    case PostWork(res) => PostWorkOwned(s, res);
    case AdvanceHead(_) => IdleStepOwned(s, Apply(s, act));
    case Meanwhile(_) => IdleStepOwned(s, Apply(s, act));
    case EnterCall => IdleStepOwned(s, Apply(s, act));
    case QueueRests => IdleStepOwned(s, Apply(s, act));
    case NoteStall => NoteStallOwned(s);
    case EndRetries => IdleStepOwned(s, Apply(s, act));
    case EndComplete => IdleStepOwned(s, Apply(s, act));
    case Leave => IdleStepOwned(s, Apply(s, act));
  }

  lemma NoteStallOwned(s: System)
    requires Owned(s) && s.pc.Handed?
    ensures Owned(DoNoteStall(s))
  {
    forall x ensures Moved(s, DoNoteStall(s), NIL, x) { }
    NilNowhere(s);
    OwnedStep(s, DoNoteStall(s), NIL);
  }

  lemma {:induction false} CntSlots(n: nat, x: Addr)
    ensures Cnt(Slots(n), x) == if 0 <= x < n then 1 else 0
  {
    if n > 0 {
      assert Slots(n) == Slots(n - 1) + [n - 1];
      CntSlots(n - 1, x);
      CntSnoc(Slots(n - 1), n - 1, x);
    }
  }

  lemma SetupOwned(n: nat)
    ensures Owned(Setup(n))
  {
    forall x ensures Places(Setup(n), x) == if 0 <= x < n then 1 else 0 { CntSlots(n, x); }
  }

  /** In every reachable state of every interleaving, each slot of the pool is in exactly one
      place, and slots in use and unanswered submissions name each other. */
  lemma {:induction false} OwnedAlways(s: System, acts: seq<Action>)
    requires Owned(s) && ValidRun(s, acts)
    ensures Owned(Run(s, acts))
    decreases |acts|
  {
    if acts != [] {
      OwnedKept(s, acts[0]);
      OwnedAlways(Apply(s, acts[0]), acts[1..]);
    }
  }
}
