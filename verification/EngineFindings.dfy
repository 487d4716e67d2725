/** Consequences of the invariants the source relies on without checking, and the places where
    the code keeps less than its comments promise. */
module EngineFindings {
  import opened Lists
  import opened EngineCore
  import opened EngineSystem
  import opened EngineOwnership
  import opened EngineTickets
  import opened EngineChains
  import opened EngineLog
  import opened EngineThreads
  import opened EngineCancel
  import opened EngineRefines
  import opened EngineWorker

  // ---- every run from setup ----------------------------------------------

  /** Whatever the submitter, the worker, the caller and other rings do, in whatever order, with the
      caller reading inside locked sections too: every slot is in exactly one place, the stall names
      the one linked op that is out, every submission has exactly the final completion it is owed,
      every completion carries its submission's user_data and a final one the result, ops that were
      put off hold real descriptors, the worker answers in the order of submission, and no accepted
      completion is lost, doubled or overwritten. The caller gets them in the order
      they were accepted unless a step overtakes, which takes a read inside a locked section. Chains
      obey their law without the two irregular steps, and answer in order if and only if no op posts
      its answer after it was passed, which takes a settle in the ticket window. */
  lemma EngineAlways(n: nat, acts: seq<Action>)
    requires ValidRun(Setup(n), acts)
    ensures var s := Run(Setup(n), acts);
      && Partition(s) && Ticketed(s) && ExactlyOnce(s) && EveryNamed(s) && Conserved(s)
      && Resolved(s) && WorkInOrder(s)
      && (NoneOvertakes(Setup(n), acts) ==> Fifo(s))
      && (Undisturbing(acts) ==> NoneOvertakes(Setup(n), acts))
      && (RegularRun(Setup(n), acts) ==> Chained(s))
      && (AnswersInOrder(s) <==> AllInTurn(Setup(n), acts))
      && (OutsideWindow(Setup(n), acts) ==> AllInTurn(Setup(n), acts))
  {
    SetupSound(n);
    SetupLogged(n);
    LoggedAlways(Setup(n), acts);
    LoggedNames(Run(Setup(n), acts));
    ResolvedAlways(Setup(n), acts);
    WorkInOrderAlways(Setup(n), acts);
    OrdersAlways(n, acts);
  }

  lemma LoggedNames(s: System)
    requires Logged(s)
    ensures EveryNamed(s)
  {
    assert forall p | 0 <= p < |s.log| :: ItemOk(s, s.log[p]);
  }

  lemma OrdersAlways(n: nat, acts: seq<Action>)
    requires ValidRun(Setup(n), acts)
    ensures var s := Run(Setup(n), acts);
      && Conserved(s) && (NoneOvertakes(Setup(n), acts) ==> Fifo(s))
      && (Undisturbing(acts) ==> NoneOvertakes(Setup(n), acts))
      && (RegularRun(Setup(n), acts) ==> Chained(s))
      && (AnswersInOrder(s) <==> AllInTurn(Setup(n), acts))
      && (OutsideWindow(Setup(n), acts) ==> AllInTurn(Setup(n), acts))
  {
    SetupSound(n);
    SetupLogged(n);
    FlowAlways(Setup(n), acts);
    InOrderIff(Setup(n), acts);
    if Undisturbing(acts) { AtomicNoneOvertakes(Setup(n), acts); }
    if RegularRun(Setup(n), acts) { ChainedAlways(Setup(n), acts); }
    if OutsideWindow(Setup(n), acts) { InOrderAlways(Setup(n), acts); }
  }

  /** The item names its submission. */
  ghost predicate Tells(s: System, item: LogItem) {
    0 <= item.serial < |s.hist| && Named(s.hist[item.serial], item)
  }

  /** Whatever the caller has read, can read or will find backlogged is an accepted completion: of a
      message from a ring, or of a submission it names. */
  lemma ReadTells(s: System, x: Cqe)
    requires EveryNamed(s) && Conserved(s) && x in Flow(s.core)
    ensures exists p :: 0 <= p < |s.log| && s.log[p].cqe == x && (s.log[p].serial < 0 || Tells(s, s.log[p]))
  {
    assert x in multiset(Flow(s.core)) && x in multiset(CqesOf(s.log));
    assert x in CqesOf(s.log);
    var p :| 0 <= p < |s.log| && CqesOf(s.log)[p] == x;
    assert s.log[p].cqe == x;
  }

  // ---- what the pool bounds ----------------------------------------------

  function DoneOps(done: seq<Done>): (r: seq<Addr>)
    ensures |r| == |done|
  {
    if done == [] then [] else [done[0].op] + DoneOps(done[1..])
  }

  lemma {:induction false} DoneOpsCnt(done: seq<Done>, x: Addr)
    ensures Cnt(DoneOps(done), x) == DoneCnt(done, x)
  {
    if done != [] {
      DoneOpsCnt(done[1..], x);
      CntCons(done[0].op, DoneOps(done[1..]), x);
    }
  }

  /** An op in hand always has room in waiting[]: the branch of park for a full set is never
      taken. */
  lemma ParkNeverFull(s: System)
    requires Sound(s) && (s.pc.Holding? || s.pc.Retry?)
    ensures |s.core.waiting| < |s.core.ops|
  {
    SoundApart(s);
    var a := s.pc.op;
    assert HandCnt(s.pc, a) > 0 && Places(s, a) == if 0 <= a < |s.core.ops| then 1 else 0;
    ParkFits(s.core, a);
  }

  /** The scratch arrays never run out: parked ops, ready ones among them, and answers not yet
      posted together are no more than the pool. */
  lemma DoneNeverFull(s: System)
    requires Sound(s) && (s.pc.Retrying? || s.pc.Retry?)
    ensures |s.core.waiting| + |s.pc.done| + (if s.pc.Retry? then 1 else 0) <= |s.core.ops|
  {
    var hand := if s.pc.Retry? then [s.pc.op] else [];
    var all := s.core.waiting + (DoneOps(s.pc.done) + hand);
    forall x ensures Cnt(all, x) <= if 0 <= x < |s.core.ops| then 1 else 0 {
      CntConcat(s.core.waiting, DoneOps(s.pc.done) + hand, x);
      CntConcat(DoneOps(s.pc.done), hand, x);
      DoneOpsCnt(s.pc.done, x);
      assert Places(s, x) == if 0 <= x < |s.core.ops| then 1 else 0;
    }
    Pigeonhole(all, |s.core.ops|);
  }

  /** Close finds every op: with the submitter outside and the worker joined, each is on the
      free list or on exactly one of the four lists close walks, once. */
  lemma CloseFindsAll(s: System, x: Addr)
    requires Sound(s) && s.pc.Outside? && s.worker.WIdle?
    ensures Listed(s.core, x) == if 0 <= x < |s.core.ops| then 1 else 0
  {
    assert Places(s, x) == if 0 <= x < |s.core.ops| then 1 else 0;
  }

  /** Whenever a cancel is executed the queue is not stalled, so the answer -EALREADY is never
      given. */
  lemma AlreadyNeverAnswered(s: System)
    requires Sound(s) && CancelHeld(s)
    ensures CancelMatching(s.core, OpAt(s.core, s.pc.op).sqe).res != -EALREADY
  {
    HeldFacts(s);
    CancelFails(s.core, OpAt(s.core, s.pc.op).sqe);
  }

  // ---- a completion that overtakes the backlog ---------------------------

  /** Everything a completion accepted now would come before looks like it. */
  ghost predicate LateAlike(c: Core, x: Cqe) {
    forall i | 0 <= i < |Flow(c)| && |Flow(c)| - Late(c) <= i :: Flow(c)[i] == x
  }

  /** A post, and an emission, goes behind everything older exactly when it is silent, or cannot be
      told from what it comes before (in particular when it comes before nothing, as the caller did
      not read while the section ran, or nothing was backlogged). */
  lemma OvertakingExact(c: Core, a: Addr, res: int, cqe: Cqe)
    requires 0 <= a < |c.ops| && Idle(c, a) == 0
    requires forall x :: Idle(c, x) <= if 0 <= x < |c.ops| then 1 else 0
    ensures Flow(Post(c, a, res)) == Flow(c) + Answers(c.ops[a], res)
      <==> Silent(c.ops[a], res) || LateAlike(c, Cqe(c.ops[a].sqe.userData, res, c.ops[a].cqeFlags))
    ensures !EmitDropped(c) ==> (Flow(Emit(c, cqe)) == Flow(c) + [cqe] <==> LateAlike(c, cqe))
    ensures EmitDropped(c) ==> Flow(Emit(c, cqe)) == Flow(c)
  {
    PostFacts(c, a, res);
    EmitFacts(c, cqe);
    GoesLast(c, Answers(c.ops[a], res), Cqe(c.ops[a].sqe.userData, res, c.ops[a].cqeFlags));
    GoesLast(c, if EmitDropped(c) then [] else [cqe], cqe);
  }

  /** What goes before the late ones goes last exactly when it is nothing or like all of them. */
  lemma GoesLast(c: Core, added: seq<Cqe>, x: Cqe)
    requires Late(c) <= |Flow(c)| && (added == [] || added == [x])
    ensures added == [] ==> Inserted(Flow(c), Late(c), added) == Flow(c) == Flow(c) + added
    ensures added == [x] ==> (Inserted(Flow(c), Late(c), added) == Flow(c) + added <==> LateAlike(c, x))
  {
    if added == [] { InsertedNothing(Flow(c), Late(c)); } else { InsertedExact(Flow(c), Late(c), x); }
  }

  // ---- two steps that break the chain law --------------------------------

  /** A linked MSG_RING that fails leaves its chain standing: the next member is executed. */
  lemma MsgFailureRunsNext(s: System, res: int)
    requires Sound(s) && Chained(s) && Executing(s) && res < 0
    requires OpAt(s.core, s.pc.op).sqe.opcode == MsgRing && Link(s, s.pc.op)
    requires s.core.chainFailed == Holds && s.core.queue != []
    ensures var t := Apply(s, Finish(res));
      Enabled(t, Dequeue) && !Enabled(t, CancelChained) && !Chained(t)
  {
    HeldFacts(s);
    PostFrame(s.core, s.pc.op, res);
    ChainExact(s, Finish(res));
  }

  /** Cancelling a linked op that is still queued fails whatever chain comes next: the op now at
      the front is cancelled, although its own chain did not fail. */
  lemma CancelPoisonsNext(s: System, t: Addr)
    requires Sound(s) && Chained(s) && Enabled(s, CancelQueuedOne(t)) && Link(s, t)
    requires !Link(s, s.pc.op) && |s.core.queue| > 1
    ensures var u := Apply(s, CancelQueuedOne(t));
      && !Chained(u) && Enabled(u, Finish(0))
      && Enabled(Apply(u, Finish(0)), CancelChained)
  {
    var u := Apply(s, CancelQueuedOne(t));
    ChainExact(s, CancelQueuedOne(t));
    SoundKept(s, CancelQueuedOne(t));
    CancelLeavesFailure(s, t);
    HeldFacts(u);
    PostFrame(Standing(u.core, u.pc.op, 0), u.pc.op, 0);
  }

  lemma CancelLeavesFailure(s: System, t: Addr)
    requires Sound(s) && Enabled(s, CancelQueuedOne(t)) && Link(s, t) && |s.core.queue| > 1
    ensures var u := Apply(s, CancelQueuedOne(t));
      && u.pc == s.pc && u.core.chainFailed != Holds && u.core.queue != []
      && OpAt(u.core, s.pc.op).sqe == OpAt(s.core, s.pc.op).sqe
  {
    HeldFacts(s);
    var c := s.core.(queue := Without(s.core.queue, t));
    PostLeaves(CancelStanding(c, t), t, -ECANCELED);
  }
}
