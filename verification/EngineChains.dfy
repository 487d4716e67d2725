/** Link chains over whole runs: which members execute, which are cancelled and how, and the
    order of their completions. */
module EngineChains {
  import opened Lists
  import opened EngineCore
  import opened EngineSystem
  import opened EngineOwnership
  import opened EngineTickets

  /** What became of submission k; a raised ticket already tells the result. */
  function FateOf(s: System, k: int): Fate
    requires 0 <= k < |s.hist|
  {
    match s.hist[k].fate
    case InFlight(a) => if Told(s, a) then Ran(s.worker.res) else InFlight(a)
    case f => f
  }

  /** The standing submission k leaves to the one taken off the queue after it. */
  function After(s: System, k: int): Chain
    requires 0 <= k < |s.hist|
  {
    if !s.hist[k].link then Holds
    else match FateOf(s, k)
      case InFlight(_) => Holds
      case Ran(res) => Outcome(s.hist[k], res)
      case ChainCancelled(how) => how
  }

  ghost predicate InRange(s: System) {
    forall i | 0 <= i < |s.order| :: 0 <= s.order[i] < |s.hist|
  }

  lemma OrderFacts(s: System)
    requires Ordered(s)
    ensures InRange(s) && Increasing(s.order)
  {
    assert forall i | 0 <= i < |s.order| :: s.order[i] == Stream(s)[i];
  }

  /** The standing the i-th op off the queue meets. */
  function Before(s: System, i: nat): Chain
    requires InRange(s) && i <= |s.order|
  {
    if i == 0 then Holds else After(s, s.order[i - 1])
  }

  /** The i-th op off the queue was cancelled exactly when the chain before it had failed, and
      its linked predecessor had its result by then. */
  ghost predicate LawAt(s: System, i: nat)
    requires InRange(s) && i < |s.order|
  {
    && (Before(s, i) == Holds ==> !s.hist[s.order[i]].fate.ChainCancelled?)
    && (Before(s, i) != Holds ==> s.hist[s.order[i]].fate == ChainCancelled(Before(s, i)))
    && (i > 0 && s.hist[s.order[i - 1]].link ==> !FateOf(s, s.order[i - 1]).InFlight?)
  }

  ghost predicate Lawful(s: System)
    requires InRange(s)
  {
    forall i: nat | i < |s.order| :: LawAt(s, i)
  }

  /** chain_failed is the standing the next op will meet, as far as the submitter may know it. */
  ghost predicate Current(s: System)
    requires InRange(s)
  {
    s.core.chainFailed == if StalledOn(s) != NIL then Holds else Before(s, |s.order|)
  }

  ghost predicate Chained(s: System) {
    InRange(s) && Lawful(s) && Current(s)
  }

  // ---- steps -------------------------------------------------------------

  /** Nothing the law reads changes for the ops taken off the queue so far. */
  ghost predicate SameStandings(s: System, t: System)
    requires InRange(s)
  {
    && t.order == s.order && |t.hist| >= |s.hist|
    && (forall i: nat | i < |s.order| :: SameStanding(s, t, s.order[i]))
  }

  ghost predicate SameStanding(s: System, t: System, k: int)
    requires 0 <= k < |s.hist| && |t.hist| >= |s.hist|
  {
    && t.hist[k].link == s.hist[k].link && After(t, k) == After(s, k)
    && (s.hist[k].fate.ChainCancelled? || t.hist[k].fate.ChainCancelled? ==> t.hist[k].fate == s.hist[k].fate)
    && (FateOf(t, k).InFlight? ==> FateOf(s, k).InFlight?)
  }

  lemma StandingsKept(s: System, t: System)
    requires Chained(s) && SameStandings(s, t)
    ensures InRange(t) && Lawful(t) && Before(t, |t.order|) == Before(s, |s.order|)
  {
    forall i: nat | i < |t.order| ensures LawAt(t, i) {
      assert LawAt(s, i) && SameStanding(s, t, s.order[i]);
      if i > 0 { assert SameStanding(s, t, s.order[i - 1]); }
    }
    if |s.order| > 0 { assert SameStanding(s, t, s.order[|s.order| - 1]); }
  }

  /** The common case: the history of what was taken off the queue stays as it is. */
  lemma HistKept(s: System, t: System)
    requires Chained(s) && t.order == s.order && |t.hist| >= |s.hist|
    requires forall k | 0 <= k < |s.hist| :: t.hist[k] == s.hist[k]
    requires t.worker == s.worker || (!t.worker.WTicketed? && !s.worker.WTicketed?)
    requires t.core.chainFailed == s.core.chainFailed && (StalledOn(t) == NIL <==> StalledOn(s) == NIL)
    ensures Chained(t)
  {
    forall i: nat | i < |s.order| ensures SameStanding(s, t, s.order[i]) { }
    StandingsKept(s, t);
  }

  /** An unlinked op is answered, or one that is still on the queue. */
  lemma AsideSettled(s: System, t: System, a: Addr, res: int)
    requires Sound(s) && Chained(s) && LiveCnt(s, a) > 0
    requires !Link(s, a) || PendCnt(s, a) > 0
    requires t.order == s.order && t.hist == Settled(s, a, Ran(res))
    requires t.worker == s.worker || (!t.worker.WTicketed? && !s.worker.WTicketed?)
    ensures SameStandings(s, t)
  {
    assert Tracked(s, a);
    var k := SerialAt(s, a);
    if PendCnt(s, a) > 0 { PendNotOrdered(s, a); }
    forall i: nat | i < |s.order| ensures SameStanding(s, t, s.order[i]) { }
  }

  lemma PendNotOrdered(s: System, a: Addr)
    requires Sound(s) && PendCnt(s, a) > 0
    ensures SerialAt(s, a) !in s.order && Last(s) < SerialAt(s, a)
    ensures InRange(s) && forall i | 0 <= i < |s.order| :: s.order[i] < SerialAt(s, a)
  {
    var q := PendSeq(s);
    CntConcat(s.core.queue, if s.pc.Intake? then s.pc.batch else [], a);
    CntIn(q, a);
    var i := IndexOf(q, a);
    assert Stream(s)[|s.order| + i] == SerialAt(s, a);
    forall j | 0 <= j < |s.order| ensures 0 <= s.order[j] < SerialAt(s, a) && s.order[j] < |s.hist| {
      assert s.order[j] == Stream(s)[j];
    }
    assert 0 <= SerialAt(s, a) by { assert Tracked(s, a); }
  }

  /** Only the last op off the queue changes its standing. */
  lemma LastChanges(s: System, t: System)
    requires Ordered(s) && Chained(s) && s.order != []
    requires t.order == s.order && |t.hist| == |s.hist|
    requires t.hist[Last(s)].link == s.hist[Last(s)].link
    requires !s.hist[Last(s)].fate.ChainCancelled? && !t.hist[Last(s)].fate.ChainCancelled?
    requires forall k | 0 <= k < |s.hist| && k != Last(s) :: t.hist[k] == s.hist[k] && FateOf(t, k) == FateOf(s, k)
    ensures InRange(t) && Lawful(t)
  {
    OrderFacts(s);
    forall i: nat | i < |t.order| ensures LawAt(t, i) {
      assert LawAt(s, i);
    }
  }

  /** The last op off the queue is linked and now answered: the stall or the hold ends. */
  lemma LinkedAnswered(s: System, t: System, a: Addr, res: int)
    requires Sound(s) && Chained(s) && LiveCnt(s, a) > 0 && Link(s, a) && SerialAt(s, a) == Last(s)
    requires s.order != [] && t.order == s.order && t.worker == s.worker && !Told(s, a)
    requires t.hist == Settled(s, a, Ran(res)) && StalledOn(t) == NIL
    requires t.core.chainFailed
          == if res < 0 then FailureOf(OpAt(s.core, a).sqe) else Holds
    ensures Chained(t)
  {
    assert Tracked(s, a);
    OrderFacts(s);
    forall k | 0 <= k < |s.hist| && k != Last(s) ensures t.hist[k] == s.hist[k] && FateOf(t, k) == FateOf(s, k) { }
    LastChanges(s, t);
  }

  /** The two steps that take a failure past the chain rules: a linked MSG_RING that fails, and
      a cancel that takes a linked op off the submit queue. */
  predicate Regular(s: System, act: Action) {
    match act
    case Finish(res) =>
      res >= 0 || !s.pc.Holding? || !Link(s, s.pc.op) || OpAt(s.core, s.pc.op).sqe.opcode != MsgRing
    case CancelQueuedOne(t) => !Link(s, t)
    case _ => true
  }

  lemma HeldChain(s: System)
    requires Sound(s) && Chained(s) && s.pc.Holding?
    ensures s.core.chainFailed == Before(s, |s.order|) == Holds && StalledOn(s) == NIL
    ensures LiveCnt(s, s.pc.op) > 0 && OutCnt(s, s.pc.op) == 1 && !Told(s, s.pc.op) && Tracked(s, s.pc.op)
    ensures SerialAt(s, s.pc.op) == Last(s) && s.order != []
  {
    HeldFacts(s);
    HeldIsLive(s);
    assert Places(s, s.pc.op) <= 1;
    assert Link(s, s.pc.op) ==> LinkedOut(s, s.pc.op);
    assert SerialAt(s, s.pc.op) in s.order;
  }

  lemma FinishChain(s: System, res: int)
    requires Sound(s) && Chained(s) && Executing(s)
    ensures Chained(DoFinish(s, res)) <==> Regular(s, Finish(res))
  {
    var t := DoFinish(s, res);
    var a := s.pc.op;
    HeldChain(s);
    PostFrame(AnswerStanding(s.core, a, res), a, res);
    if !Link(s, a) {
      AsideSettled(s, t, a, res);
      StandingsKept(s, t);
    } else if Regular(s, Finish(res)) {
      LinkedAnswered(s, t, a, res);
    } else {
      assert t.hist[Last(s)].fate == Ran(res) && After(t, Last(s)) != Holds;
    }
  }

  lemma LookupChain(s: System, realfd: int)
    requires Sound(s) && Chained(s) && CanLookup(s)
    ensures Chained(DoLookup(s, realfd))
  {
    var t := DoLookup(s, realfd);
    var a := s.pc.op;
    HeldChain(s);
    if realfd >= 0 {
      HistKept(s, t);
    } else {
      PostFrame(Standing(s.core, a, -EBADF), a, -EBADF);
      if Link(s, a) {
        LinkedAnswered(s, t, a, -EBADF);
      } else {
        AsideSettled(s, t, a, -EBADF);
        StandingsKept(s, t);
      }
    }
  }

  lemma PendChain(s: System, t: System)
    requires Sound(s) && Chained(s) && s.pc.Holding?
    requires t.order == s.order && t.hist == s.hist && t.worker == s.worker
    requires t.core.chainFailed == s.core.chainFailed
    requires StalledOn(t) == if Link(s, s.pc.op) then s.pc.op else NIL
    ensures Chained(t)
  {
    HeldChain(s);
    forall i: nat | i < |s.order| ensures SameStanding(s, t, s.order[i]) { }
    StandingsKept(s, t);
  }

  lemma DequeueChain(s: System)
    requires Sound(s) && Chained(s) && CanDequeue(s)
    ensures Chained(DoDequeue(s))
  {
    var t := DoDequeue(s);
    var a := s.core.queue[0];
    RunningFacts(s);
    assert Tracked(s, a);
    FrontLaw(s, t);
  }

  lemma CancelChainedChain(s: System)
    requires Sound(s) && Chained(s) && CanCancelChained(s)
    ensures Chained(DoCancelChained(s))
  {
    var t := DoCancelChained(s);
    var a := s.core.queue[0];
    RunningFacts(s);
    assert Tracked(s, a);
    CancelChainedSlot(s, NIL);
    PostFrame(Pop(s.core), a, -ECANCELED);
    FrontLaw(s, t);
  }

  /** The linked predecessor of what comes off the queue next has its result. */
  lemma PredecessorKnown(s: System)
    requires Sound(s) && InRange(s) && s.pc.Running? && QueueRuns(s.core) && s.order != []
    requires s.hist[Last(s)].link
    ensures !FateOf(s, Last(s)).InFlight?
  {
    RunningFacts(s);
    var k := Last(s);
    if s.hist[k].fate.InFlight? {
      var x := s.hist[k].fate.at;
      assert LiveCnt(s, x) > 0 && SerialAt(s, x) == k;
      assert Tracked(s, x);
      assert s.order[|s.order| - 1] == k;
      if PendCnt(s, x) > 0 { PendNotOrdered(s, x); }
      assert !LinkedOut(s, x);
    }
  }

  /** Taking one more off the queue keeps the law of the ones before it. */
  lemma PrefixLaw(s: System, t: System, k: int)
    requires Chained(s) && t.order == s.order + [k] && t.worker == s.worker && |t.hist| == |s.hist|
    requires 0 <= k < |s.hist| && forall i | 0 <= i < |s.order| :: s.order[i] < k
    requires forall j | 0 <= j < |s.hist| && j != k :: t.hist[j] == s.hist[j]
    ensures InRange(t) && Before(t, |s.order|) == Before(s, |s.order|)
    ensures forall i: nat | i < |s.order| :: LawAt(t, i)
    ensures |s.order| > 0 ==> t.hist[Last(s)] == s.hist[Last(s)] && FateOf(t, Last(s)) == FateOf(s, Last(s))
  {
    forall i: nat | i < |s.order| ensures LawAt(t, i) {
      assert LawAt(s, i);
    }
  }

  /** The op taken off the queue meets the standing of the one before it. */
  lemma FrontLaw(s: System, t: System)
    requires Sound(s) && Chained(s) && s.pc.Running? && QueueRuns(s.core)
    requires PendCnt(s, s.core.queue[0]) > 0 && Tracked(s, s.core.queue[0])
    requires t.order == s.order + [SerialAt(s, s.core.queue[0])] && t.worker == s.worker && |t.hist| == |s.hist|
    requires forall k | 0 <= k < |s.hist| && k != SerialAt(s, s.core.queue[0]) :: t.hist[k] == s.hist[k]
    requires var a, e := s.core.queue[0], t.hist[SerialAt(s, s.core.queue[0])];
      && e.link == Link(s, a) && StalledOn(t) == NIL
      && (if s.core.chainFailed == Holds then t.core.chainFailed == Holds && e.fate == InFlight(a)
          else e.fate == ChainCancelled(s.core.chainFailed)
               && t.core.chainFailed == if e.link then s.core.chainFailed else Holds)
    ensures Chained(t)
  {
    var n, a := |s.order|, s.core.queue[0];
    RunningFacts(s);
    PendNotOrdered(s, a);
    PrefixLaw(s, t, SerialAt(s, a));
    assert !Told(t, a) by { assert Places(s, a) <= 1; }
    if n > 0 && s.hist[Last(s)].link { PredecessorKnown(s); }
    assert LawAt(t, n);
  }

  lemma CompleteChain(s: System)
    requires Sound(s) && Chained(s) && s.pc.Completing? && s.pc.done != []
    ensures Chained(DoComplete(s))
  {
    var t := DoComplete(s);
    var a, res := s.pc.done[0].op, s.pc.done[0].res;
    CompleteComparesSoundly(s);
    assert Tracked(s, a) && SerialAt(s, a) in s.order;
    CompleteSlot(s, NIL);
    PostFrame(CompleteStanding(s.core, a, res), a, res);
    LiveNotIdle(s, a);
    if Link(s, a) {
      LinkedAnswered(s, t, a, res);
    } else {
      AsideSettled(s, t, a, res);
      StandingsKept(s, t);
    }
  }

  lemma CancelOutChain(s: System, c: Core, a: Addr)
    requires Sound(s) && Chained(s) && s.pc.Holding? && (a in s.core.waiting || a in s.core.wq)
    requires c == s.core.(waiting := c.waiting, wq := c.wq)
    ensures Chained(Answered(s, CancelTarget(c, a), a, -ECANCELED))
  {
    var t := Answered(s, CancelTarget(c, a), a, -ECANCELED);
    CancelFindsUnlinked(s, a);
    HeldChain(s);
    PostFrame(CancelStanding(c, a), a, -ECANCELED);
    AsideSettled(s, t, a, -ECANCELED);
    StandingsKept(s, t);
  }

  /** A cancel that takes a linked op off the submit queue leaves chain_failed to the wrong
      chain; taking an unlinked one leaves it alone. */
  lemma CancelQueuedChain(s: System, a: Addr)
    requires Sound(s) && Chained(s) && s.pc.Holding? && a in s.core.queue
    ensures Chained(DoCancelQueued(s, a)) <==> !Link(s, a)
  {
    var c := s.core.(queue := Without(s.core.queue, a));
    var t := DoCancelQueued(s, a);
    CntIn(s.core.queue, a);
    HeldFacts(s);
    LiveNotIdle(s, a);
    HeldChain(s);
    PostFrame(CancelStanding(c, a), a, -ECANCELED);
    AsideSettled(s, t, a, -ECANCELED);
    StandingsKept(s, t);
  }

  lemma SettleChain(s: System)
    requires Sound(s) && Chained(s) && s.pc.Between?
    ensures Chained(s.(core := Settle(s.core)))
  {
    var t := s.(core := Settle(s.core));
    DrainFacts(SettleStanding(s.core));
    forall i: nat | i < |s.order| ensures SameStanding(s, t, s.order[i]) { }
    StandingsKept(s, t);
    if s.core.blockedDone != NIL { SettleComparesSoundly(s); }
  }

  lemma RaiseChain(s: System, res: int)
    requires Sound(s) && Chained(s) && CanRaise(s)
    ensures Chained(DoRaise(s, res))
  {
    var t := DoRaise(s, res);
    RaiseFacts(s);
    var a := s.worker.op;
    assert Tracked(s, a) && SerialAt(s, a) in s.order;
    forall k | 0 <= k < |s.hist| && k != Last(s) ensures t.hist[k] == s.hist[k] && FateOf(t, k) == FateOf(s, k) {
      assert s.hist[k].fate.InFlight? ==> SerialAt(s, s.hist[k].fate.at) == k;
    }
    LastChanges(s, t);
  }

  lemma PostWorkChain(s: System, res: int)
    requires Sound(s) && Chained(s) && CanPostWork(s, res)
    ensures Chained(DoPostWork(s, res))
  {
    var t := DoPostWork(s, res);
    var a := s.worker.op;
    assert LiveCnt(s, a) > 0 && Tracked(s, a);
    PostFrame(s.core, a, res);
    if s.worker.WRunning? {
      assert Places(s, a) <= 1;
      AsideSettled(s, t, a, res);
    } else {
      ToldPosted(s, t);
    }
    StandingsKept(s, t);
  }

  /** The ticket has told the result already. */
  lemma ToldPosted(s: System, t: System)
    requires Sound(s) && Chained(s) && s.worker.WTicketed? && Tracked(s, s.worker.op)
    requires t.order == s.order && t.worker.WIdle? && t.hist == Settled(s, s.worker.op, Ran(s.worker.res))
    ensures SameStandings(s, t)
  {
    forall i: nat | i < |s.order| ensures SameStanding(s, t, s.order[i]) {
      if s.hist[s.order[i]].fate == InFlight(s.worker.op) { assert SerialAt(s, s.worker.op) == s.order[i]; }
    }
  }

  // ---- every run ---------------------------------------------------------

  predicate Settling(act: Action) {
    act.Lookup? || act.ParkIt? || act.HandOff? || act.Dequeue? || act.CancelChained? || act.CompleteNext?
    || act.CancelParkedOne? || act.CancelAtWorkerOne? || act.SettleTicket? || act.RaiseTicket? || act.PostWork?
  }

  lemma SettlingChain(s: System, act: Action)
    requires Sound(s) && Chained(s) && Enabled(s, act) && Settling(act)
    ensures Chained(Apply(s, act))
  {
    match act
    case Lookup(realfd) => LookupChain(s, realfd);
    case ParkIt => PendChain(s, Apply(s, act));
    case HandOff => HeldFacts(s); PendChain(s, Apply(s, act));
    case Dequeue => DequeueChain(s);
    case CancelChained => CancelChainedChain(s);
    case CompleteNext => CompleteChain(s);
    case CancelParkedOne(t) => CancelOutChain(s, Unpark(s.core, t), t);
    case CancelAtWorkerOne(t) => CancelOutChain(s, s.core.(wq := Without(s.core.wq, t)), t);
    case SettleTicket => SettleChain(s);
    case RaiseTicket(res) => RaiseChain(s, res);
    case PostWork(res) => PostWorkChain(s, res);
  }

  lemma QuietChain(s: System, act: Action)
    requires Sound(s) && Chained(s) && Enabled(s, act)
    requires !Settling(act) && !act.Finish? && !act.CancelQueuedOne? && !act.ForeignEmit? && !act.Emission?
    ensures Chained(Apply(s, act))
  {
    HistKept(s, Apply(s, act));
  }

  lemma EmissionChain(s: System, act: Action)
    requires Sound(s) && Chained(s) && Enabled(s, act) && (act.ForeignEmit? || act.Emission?)
    ensures Chained(Apply(s, act))
  {
    var cqe := if act.ForeignEmit? then act.cqe else Cqe(OpAt(s.core, s.pc.op).sqe.userData, act.res, act.flags);
    EmitFrame(s.core, cqe);
    HistKept(s, Apply(s, act));
  }

  /** One step keeps the chain law exactly when it is not one of the two irregular ones. */
  lemma ChainExact(s: System, act: Action)
    requires Sound(s) && Chained(s) && Enabled(s, act)
    ensures Chained(Apply(s, act)) <==> Regular(s, act)
  {
    if act.Finish? {
      FinishChain(s, act.res);
    } else if act.CancelQueuedOne? {
      CancelQueuedChain(s, act.t);
    } else if Settling(act) {
      SettlingChain(s, act);
    } else if act.ForeignEmit? || act.Emission? {
      EmissionChain(s, act);
    } else {
      QuietChain(s, act);
    }
  }

  predicate RegularRun(s: System, acts: seq<Action>)
    requires ValidRun(s, acts)
    decreases |acts|
  {
    acts == [] || (Regular(s, acts[0]) && RegularRun(Apply(s, acts[0]), acts[1..]))
  }

  /** Every interleaving without an irregular step obeys the chain law throughout. */
  lemma {:induction false} ChainedAlways(s: System, acts: seq<Action>)
    requires Sound(s) && Chained(s) && ValidRun(s, acts) && RegularRun(s, acts)
    ensures Chained(Run(s, acts)) && Sound(Run(s, acts))
    decreases |acts|
  {
    if acts != [] {
      ChainExact(s, acts[0]);
      SoundKept(s, acts[0]);
      ChainedAlways(Apply(s, acts[0]), acts[1..]);
    }
  }

  // ---- what the law says -------------------------------------------------

  /** The i-th and j-th op off the queue are in one chain: everything from i up to j links on. */
  ghost predicate SameChain(s: System, i: nat, j: nat)
    requires InRange(s)
  {
    i <= j < |s.order| && forall k | i <= k < j :: s.hist[s.order[k]].link
  }

  ghost predicate Executed(s: System, i: nat)
    requires InRange(s) && i < |s.order|
  {
    !s.hist[s.order[i]].fate.ChainCancelled?
  }

  /** A member of a chain was executed only if every member before it had completed without
      failing by then. */
  lemma {:induction false} ExecutedAfterSuccess(s: System, i: nat, j: nat)
    requires Chained(s) && SameChain(s, i, j) && i < j && Executed(s, j)
    ensures exists res :: FateOf(s, s.order[i]) == Ran(res) && res >= 0
    decreases j
  {
    assert LawAt(s, j);
    assert After(s, s.order[j - 1]) == Holds;
    if i == j - 1 {
      match FateOf(s, s.order[i]) {
        case Ran(res) => assert res >= 0;
        case ChainCancelled(how) => assert LawAt(s, i);
        case InFlight(_) =>
      }
    } else {
      assert LawAt(s, j - 1);
      ExecutedAfterSuccess(s, i, j - 1);
    }
  }

  /** After the first failing linked member none of the rest is executed: each is cancelled in
      the way the failing op's own flag says. */
  lemma {:induction false} FailureCancelsRest(s: System, f: nat, j: nat, res: int)
    requires Chained(s) && SameChain(s, f, j) && f < j
    requires FateOf(s, s.order[f]) == Ran(res) && res < 0
    ensures s.hist[s.order[j]].fate
         == ChainCancelled(if s.hist[s.order[f]].skip then CancelsQuietly else Cancels)
    decreases j
  {
    assert LawAt(s, j);
    if f < j - 1 {
      FailureCancelsRest(s, f, j - 1, res);
    }
  }

  /** A new chain starts clean, whatever happened to the one before it. */
  lemma NextChainUntouched(s: System, i: nat)
    requires Chained(s) && i < |s.order| && (i == 0 || !s.hist[s.order[i - 1]].link)
    ensures Executed(s, i)
  {
    assert LawAt(s, i);
  }

  /** A cancelled member always has a failing one before it in its chain. */
  lemma {:induction false} CancelledHasCause(s: System, j: nat) returns (f: nat, res: int)
    requires Chained(s) && j < |s.order| && !Executed(s, j)
    ensures f < j && SameChain(s, f, j) && FateOf(s, s.order[f]) == Ran(res) && res < 0
    decreases j
  {
    assert LawAt(s, j);
    var i := j - 1;
    match FateOf(s, s.order[i]) {
      case Ran(r) => f, res := i, r;
      case ChainCancelled(_) => f, res := CancelledHasCause(s, i);
      case InFlight(_) =>
    }
  }
}
