/** The ticket window: the worker has raised its ticket in one locked section and posts in another.
    What a settle in between leads to, and exactly when it can lead to answers out of order. */
module EngineWindow {
  import opened Lists
  import opened EngineCore
  import opened EngineSystem
  import opened EngineOwnership
  import opened EngineTickets
  import opened EngineChains
  import opened EngineLog
  import opened EngineRefines

  /** A settle keeps the queue stalled until the answer is posted exactly when it does not fall
      between the worker's ticket and the worker's completion. */
  lemma NoEarlyExact(s: System, act: Action)
    requires Sound(s) && NoEarlySettle(s) && Enabled(s, act)
    ensures NoEarlySettle(Apply(s, act)) <==> !InTicketWindow(s, act)
  {
    if InTicketWindow(s, act) {
      SettleStall(s.core);
      LiveNotIdle(s, s.worker.op);
    } else {
      NoEarlyKept(s, act);
    }
  }

  lemma SettleStall(c: Core)
    ensures Settle(c).blocking == SettleStanding(c).blocking
  {
    DrainFacts(SettleStanding(c));
  }

  /** The worker holds an answer that is not silent, of a stalled op whose ticket is up. */
  ghost predicate WindowOpen(s: System) {
    && Sound(s) && NoEarlySettle(s) && s.pc == Between && s.worker.WTicketed?
    && !Silent(OpAt(s.core, s.worker.op), s.worker.res)
  }

  /** How many ops at the front of the queue go quietly with a chain that failed. */
  function Unheard(c: Core, q: seq<Addr>, how: Chain): (k: nat)
    ensures k <= |q|
  {
    if q == [] || how != CancelsQuietly then 0
    else 1 + Unheard(c, q[1..], if OpAt(c, q[0]).sqe.link then how else Holds)
  }

  /** Some queued op will be answered aloud: it is cancelled for its chain, or its descriptor is not
      in the table, or it finishes with res and that is not a silent success. */
  predicate Speaks(c: Core, realfd: int, res: int) {
    var k := Unheard(c, c.queue, c.chainFailed);
    && k < |c.queue|
    && var op := OpAt(c, c.queue[k]);
       c.chainFailed == Cancels || (NeedsLookup(op) && realfd < 0) || !Silent(op, res)
  }

  /** The submitter runs on while the worker still holds the answer of an earlier linked op. */
  ghost predicate Behind(s: System) {
    && Sound(s) && s.pc == Running && s.core.blocking == NIL
    && s.worker.WTicketed? && Link(s, s.worker.op) && !Silent(OpAt(s.core, s.worker.op), s.worker.res)
  }

  /** The settle and an empty wait: the queue may run again. */
  function Resumed(s: System): System {
    s.(core := Settle(s.core), pc := Running)
  }

  lemma WindowSettles(s: System)
    requires WindowOpen(s)
    ensures Settle(s.core).blocking == NIL && Settle(s.core).ops == s.core.ops && Link(s, s.worker.op)
  {
    var a := s.worker.op;
    LiveNotIdle(s, a);
    assert Tracked(s, a);
    DrainFacts(SettleStanding(s.core));
    assert TicketFits(s, a, Last(s));
  }

  function ResumeActs(): seq<Action> {
    [SettleTicket] + [BeginWait([]), EndRetries, EndComplete]
  }

  lemma ResumeRun(s: System)
    requires s.pc == Between
    ensures ValidRun(s, ResumeActs()) && Run(s, ResumeActs()) == Resumed(s)
  {
    var t := Apply(s, SettleTicket);
    RunThree(t, BeginWait([]), EndRetries, EndComplete);
    assert Run(t, [BeginWait([]), EndRetries, EndComplete]) == Resumed(s);
    RunStep(s, SettleTicket, [BeginWait([]), EndRetries, EndComplete]);
  }

  lemma ResumedBehind(s: System)
    requires WindowOpen(s)
    ensures Behind(Resumed(s))
  {
    WindowSettles(s);
    ResumeRun(s);
    SoundAlways(s, ResumeActs());
  }

  /** From u to v the front of the queue was answered, and nothing happened to the worker's op. */
  ghost predicate FrontAnswered(u: System, v: System) {
    && u.core.queue != []
    && v.order == u.order + [SerialAt(u, u.core.queue[0])]
    && |v.log| == |u.log| + 1 && v.log[|u.log|].serial == SerialAt(u, u.core.queue[0])
    && WorkerAside(u, v)
  }

  ghost predicate WorkerAside(u: System, v: System) {
    && !u.worker.WIdle? && v.worker == u.worker && v.serialOf == u.serialOf
    && OpAt(v.core, u.worker.op) == OpAt(u.core, u.worker.op)
  }

  lemma FrontPasses(u: System, v: System)
    requires Behind(u) && FrontAnswered(u, v)
    ensures OutOfTurn(v, PostWork(u.worker.res)) && Enabled(v, PostWork(u.worker.res))
  {
    var a, b := u.worker.op, u.core.queue[0];
    assert Cnt(u.core.queue, b) > 0;
    PendNotOrdered(u, b);
    assert OutCnt(u, a) > 0 && SerialAt(u, a) in u.order;
    assert v.order[|u.order|] == SerialAt(u, b);
    assert Passes(v, v.log[|u.log|]);
  }

  /** The front is the worker's op's successor, not the op itself. */
  lemma FrontIsOther(u: System)
    requires Behind(u) && u.core.queue != []
    ensures u.core.queue[0] != u.worker.op && 0 <= u.core.queue[0] < |u.core.ops|
  {
    var a, b := u.worker.op, u.core.queue[0];
    assert Cnt(u.core.queue, b) > 0 && Places(u, b) <= 1;
    LiveNotIdle(u, b);
  }

  lemma CancelPasses(u: System)
    requires Behind(u) && u.core.queue != [] && u.core.chainFailed == Cancels
    ensures Enabled(u, CancelChained) && FrontAnswered(u, Apply(u, CancelChained))
  {
    FrontIsOther(u);
    PostKeeps(Pop(u.core), u.core.queue[0], -ECANCELED, u.worker.op);
  }

  lemma DequeueAside(u: System)
    requires Behind(u) && u.core.queue != [] && u.core.chainFailed == Holds
    ensures Enabled(u, Dequeue)
    ensures var v := Apply(u, Dequeue);
      WorkerAside(u, v) && v.pc == Holding(u.core.queue[0]) && v.log == u.log && v.core == Pop(u.core)
  {
  }

  lemma FinishPasses(u: System, v: System, res: int)
    requires Behind(u) && u.core.queue != [] && WorkerAside(u, v) && Executing(v)
    requires v.pc == Holding(u.core.queue[0]) && v.log == u.log && !Silent(OpAt(v.core, v.pc.op), res)
    requires v.order == u.order + [SerialAt(u, u.core.queue[0])]
    ensures Enabled(v, Finish(res)) && FrontAnswered(u, Apply(v, Finish(res)))
  {
    FrontIsOther(u);
    PostKeeps(AnswerStanding(v.core, v.pc.op, res), v.pc.op, res, u.worker.op);
  }

  lemma LookupPasses(u: System, v: System, realfd: int)
    requires Behind(u) && u.core.queue != [] && WorkerAside(u, v) && CanLookup(v) && realfd < 0
    requires v.pc == Holding(u.core.queue[0]) && v.log == u.log
    requires v.order == u.order + [SerialAt(u, u.core.queue[0])]
    ensures FrontAnswered(u, Apply(v, Lookup(realfd)))
  {
    FrontIsOther(u);
    PostKeeps(Standing(v.core, v.pc.op, -EBADF), v.pc.op, -EBADF, u.worker.op);
  }

  lemma FrontInTwo(u: System, act: Action)
    requires Enabled(u, Dequeue) && Enabled(Apply(u, Dequeue), act) && (act.Finish? || act.Lookup?)
    requires FrontAnswered(u, Apply(Apply(u, Dequeue), act))
    ensures ValidRun(u, [Dequeue, act]) && FrontAnswered(u, Run(u, [Dequeue, act])) && NoPosts([Dequeue, act])
  {
    RunTwo(u, Dequeue, act);
  }

  /** The front is executed: its descriptor is looked up if it has to be, and it finishes. */
  lemma ExecutePasses(u: System, realfd: int, res: int) returns (acts: seq<Action>)
    requires Behind(u) && u.core.queue != [] && u.core.chainFailed == Holds
    requires var op := OpAt(u.core, u.core.queue[0]); (NeedsLookup(op) && realfd < 0) || !Silent(op, res)
    ensures ValidRun(u, acts) && FrontAnswered(u, Run(u, acts)) && NoPosts(acts)
  {
    var v := Apply(u, Dequeue);
    DequeueAside(u);
    FrontIsOther(u);
    if !NeedsLookup(OpAt(v.core, v.pc.op)) {
      FinishPasses(u, v, res);
      acts := [Dequeue, Finish(res)];
      FrontInTwo(u, Finish(res));
    } else if realfd < 0 {
      LookupPasses(u, v, realfd);
      acts := [Dequeue, Lookup(realfd)];
      FrontInTwo(u, Lookup(realfd));
    } else {
      acts := TranslatedPasses(u, realfd, res);
    }
  }

  lemma TranslatedPasses(u: System, realfd: int, res: int) returns (acts: seq<Action>)
    requires Behind(u) && u.core.queue != [] && u.core.chainFailed == Holds && realfd >= 0
    requires var op := OpAt(u.core, u.core.queue[0]); NeedsLookup(op) && !Silent(op, res)
    ensures ValidRun(u, acts) && FrontAnswered(u, Run(u, acts)) && NoPosts(acts)
  {
    var v := Apply(u, Dequeue);
    DequeueAside(u);
    FrontIsOther(u);
    FinishPasses(u, Apply(v, Lookup(realfd)), res);
    acts := [Dequeue, Lookup(realfd), Finish(res)];
    RunThree(u, Dequeue, Lookup(realfd), Finish(res));
  }

  lemma QuietFront(u: System)
    requires u.pc == Running && QueueRuns(u.core) && u.core.chainFailed == CancelsQuietly
    ensures var c := Apply(u, CancelChained).core;
      && c.queue == u.core.queue[1..] && c.ops == u.core.ops && c.blocking == u.core.blocking
      && c.chainFailed == if OpAt(u.core, u.core.queue[0]).sqe.link then CancelsQuietly else Holds
  {
  }

  lemma QuietlyOn(u: System, realfd: int, res: int)
    requires Behind(u) && u.core.queue != [] && u.core.chainFailed == CancelsQuietly && Speaks(u.core, realfd, res)
    ensures Enabled(u, CancelChained)
    ensures var v := Apply(u, CancelChained);
      Behind(v) && Speaks(v.core, realfd, res) && |v.core.queue| < |u.core.queue| && v.worker == u.worker
  {
    SoundKept(u, CancelChained);
    QuietFront(u);
    SpeaksOn(u.core, CancelFront(u.core), realfd, res);
  }

  lemma SpeaksOn(c: Core, d: Core, realfd: int, res: int)
    requires c.queue != [] && c.chainFailed == CancelsQuietly && Speaks(c, realfd, res)
    requires d.queue == c.queue[1..] && d.ops == c.ops
    requires d.chainFailed == if OpAt(c, c.queue[0]).sqe.link then CancelsQuietly else Holds
    ensures Speaks(d, realfd, res)
  {
    UnheardSame(c, d, d.queue, d.chainFailed);
  }

  lemma {:induction false} UnheardSame(c: Core, d: Core, q: seq<Addr>, how: Chain)
    requires d.ops == c.ops
    ensures Unheard(d, q, how) == Unheard(c, q, how)
  {
    if q != [] && how == CancelsQuietly {
      UnheardSame(c, d, q[1..], if OpAt(c, q[0]).sqe.link then how else Holds);
    }
  }

  /** The worker posts nothing meanwhile. */
  predicate NoPosts(acts: seq<Action>) {
    forall i | 0 <= i < |acts| :: !acts[i].PostWork?
  }

  /** A run after which the answer the worker has held all along comes out of turn. */
  ghost predicate Overtaken(s: System, acts: seq<Action>)
    requires s.worker.WTicketed?
  {
    && ValidRun(s, acts) && NoPosts(acts)
    && OutOfTurn(Run(s, acts), PostWork(s.worker.res)) && Enabled(Run(s, acts), PostWork(s.worker.res))
  }

  lemma OvertakenAfter(s: System, pre: seq<Action>, acts: seq<Action>)
    requires s.worker.WTicketed? && ValidRun(s, pre) && NoPosts(pre) && Run(s, pre).worker == s.worker
    requires Overtaken(Run(s, pre), acts)
    ensures Overtaken(s, pre + acts)
  {
    RunConcat(s, pre, acts);
  }

  /** The submitter runs on until the worker's op is passed. */
  lemma {:induction false} PassRun(u: System, realfd: int, res: int) returns (acts: seq<Action>)
    requires Behind(u) && Speaks(u.core, realfd, res)
    ensures Overtaken(u, acts)
    decreases |u.core.queue|
  {
    if u.core.chainFailed == CancelsQuietly {
      QuietlyOn(u, realfd, res);
      RunOne(u, CancelChained);
      acts := PassRun(Apply(u, CancelChained), realfd, res);
      OvertakenAfter(u, [CancelChained], acts);
      acts := [CancelChained] + acts;
    } else {
      acts := FrontRun(u, realfd, res);
      FrontPasses(u, Run(u, acts));
    }
  }

  /** The front is answered: cancelled, or executed. */
  lemma FrontRun(u: System, realfd: int, res: int) returns (acts: seq<Action>)
    requires Behind(u) && Speaks(u.core, realfd, res) && u.core.chainFailed != CancelsQuietly
    ensures ValidRun(u, acts) && FrontAnswered(u, Run(u, acts)) && NoPosts(acts)
  {
    if u.core.chainFailed == Cancels {
      CancelPasses(u);
      acts := [CancelChained];
      RunOne(u, CancelChained);
    } else {
      acts := ExecutePasses(u, realfd, res);
    }
  }

  /** In that window, whatever the worker's answer and whatever comes next, a settle lets an answer
      out before the stalled op's own, as long as any queued op will be answered aloud. */
  lemma EarlySettleReorders(s: System, realfd: int, res: int) returns (acts: seq<Action>)
    requires WindowOpen(s) && Speaks(Settle(s.core), realfd, res)
    ensures ValidRun(s, acts) && acts != [] && acts[0] == SettleTicket && !AnswersInOrder(Run(s, acts))
  {
    ResumedBehind(s);
    ResumeRun(s);
    var u := Resumed(s);
    var more := PassRun(u, realfd, res);
    var w, post := Run(u, more), PostWork(u.worker.res);
    SoundAlways(u, more);
    OutOfTurnBreaks(w, post);
    RunOne(w, post);
    RunConcat(u, more, [post]);
    RunConcat(s, ResumeActs(), more + [post]);
    acts := ResumeActs() + (more + [post]);
  }

  // ---- when it can -------------------------------------------------------

  function Plain(): Sqe {
    Sqe(Other, 0, 0, 0, false, false, false, false, false)
  }

  lemma EnterRun(u: System) returns (acts: seq<Action>)
    requires Behind(u) && u.core.queue == []
    ensures ValidRun(u, acts) && NoPosts(acts) && Run(u, acts) == u.(pc := Intake([]))
  {
    acts := [QueueRests, Leave, EnterCall];
    RunThree(u, QueueRests, Leave, EnterCall);
  }

  lemma TakePlain(s: System) returns (acts: seq<Action>)
    requires s.pc == Intake([]) && s.core.queue == [] && s.core.free != [] && 0 <= s.core.free[0] < |s.core.ops|
    ensures ValidRun(s, acts) && NoPosts(acts)
    ensures var v, a := Run(s, acts), s.core.free[0];
      && v.pc == Running && v.worker == s.worker && v.core.blocking == s.core.blocking
      && v.core.queue == [a] && v.core.chainFailed == s.core.chainFailed
      && OpAt(v.core, a) == Zeroed().(sqe := Plain())
      && (forall b | b != a :: OpAt(v.core, b) == OpAt(s.core, b))
  {
    acts := [TakeSqe(Plain()), EngineSystem.Submit];
    RunTwo(s, TakeSqe(Plain()), EngineSystem.Submit);
    assert [] + ([] + [s.core.free[0]]) == [s.core.free[0]];
  }

  /** A plain op is submitted, if a slot is free. */
  lemma SubmitPlain(u: System) returns (acts: seq<Action>)
    requires Behind(u) && u.core.queue == [] && u.core.free != []
    ensures ValidRun(u, acts) && NoPosts(acts)
    ensures var v := Run(u, acts);
      && Behind(v) && v.worker == u.worker && v.core.chainFailed == u.core.chainFailed
      && v.core.queue != [] && v.core.queue[1..] == [] && !OpAt(v.core, v.core.queue[0]).sqe.link
  {
    acts := EnterRun(u);
    FreeIsOther(u);
    var more := TakePlain(u.(pc := Intake([])));
    RunConcat(u, acts, more);
    acts := acts + more;
    SoundAlways(u, acts);
  }

  lemma FreeIsOther(u: System)
    requires Behind(u) && u.core.free != []
    ensures u.core.free[0] != u.worker.op && 0 <= u.core.free[0] < |u.core.ops|
  {
    var a := u.core.free[0];
    assert Cnt(u.core.free, a) > 0;
    assert Places(u, a) == if 0 <= a < |u.core.ops| then 1 else 0;
  }

  /** The front goes quietly; its slot is free now. */
  lemma QuietStep(u: System)
    requires Behind(u) && u.core.queue != [] && u.core.chainFailed == CancelsQuietly
    ensures Enabled(u, CancelChained)
    ensures var v := Apply(u, CancelChained);
      && Behind(v) && v.worker == u.worker && v.core.queue == u.core.queue[1..] && v.core.free != []
      && v.core.chainFailed == if OpAt(u.core, u.core.queue[0]).sqe.link then CancelsQuietly else Holds
  {
    SoundKept(u, CancelChained);
    QuietFront(u);
  }

  lemma LoudSpeaks(c: Core)
    requires c.queue != [] && c.chainFailed != CancelsQuietly
    ensures Speaks(c, -1, -1)
  {
  }

  /** With a slot free a fresh op passes; if it goes quietly with a chain that failed, so does the
      chain, for it is not linked, and the next fresh op passes. */
  lemma FreshRun(u: System) returns (acts: seq<Action>)
    requires Behind(u) && u.core.queue == [] && u.core.free != []
    ensures Overtaken(u, acts)
  {
    if u.core.chainFailed != CancelsQuietly {
      acts := LoudRun(u);
    } else {
      var first := EndChain(u);
      acts := LoudRun(Run(u, first));
      OvertakenAfter(u, first, acts);
      acts := first + acts;
    }
  }

  lemma EndChain(u: System) returns (acts: seq<Action>)
    requires Behind(u) && u.core.queue == [] && u.core.free != [] && u.core.chainFailed == CancelsQuietly
    ensures ValidRun(u, acts) && NoPosts(acts)
    ensures var v := Run(u, acts);
      && Behind(v) && v.worker == u.worker && v.core.queue == [] && v.core.free != [] && v.core.chainFailed == Holds
  {
    acts := SubmitPlain(u);
    var v := Run(u, acts);
    QuietStep(v);
    RunOne(v, CancelChained);
    RunConcat(u, acts, [CancelChained]);
    acts := acts + [CancelChained];
  }

  lemma LoudRun(u: System) returns (acts: seq<Action>)
    requires Behind(u) && u.core.queue == [] && u.core.free != [] && u.core.chainFailed != CancelsQuietly
    ensures Overtaken(u, acts)
  {
    var first := SubmitPlain(u);
    LoudSpeaks(Run(u, first).core);
    acts := PassRun(Run(u, first), -1, -1);
    OvertakenAfter(u, first, acts);
    acts := first + acts;
  }

  /** With anything queued the queue runs until somebody is answered aloud or all went quietly. */
  lemma {:induction false} QueuedRun(u: System) returns (acts: seq<Action>)
    requires Behind(u) && (u.core.queue != [] || u.core.free != [])
    ensures Overtaken(u, acts)
    decreases |u.core.queue|
  {
    if u.core.queue == [] {
      acts := FreshRun(u);
    } else if u.core.chainFailed != CancelsQuietly {
      LoudSpeaks(u.core);
      acts := PassRun(u, -1, -1);
    } else {
      QuietStep(u);
      RunOne(u, CancelChained);
      acts := QueuedRun(Apply(u, CancelChained));
      OvertakenAfter(u, [CancelChained], acts);
      acts := [CancelChained] + acts;
    }
  }

  // a slot is freed from the backlog

  lemma DrainFrees(c: Core)
    requires c.moves == [] && c.backlog != [] && Room(c)
    ensures Drain(c).free != []
  {
    DrainGrows(DrainOne(c));
  }

  lemma {:induction false} DrainGrows(c: Core)
    ensures |Drain(c).free| >= |c.free|
    decreases |c.backlog|
  {
    if c.backlog != [] && Room(Glance(c)) { DrainGrows(DrainOne(Glance(c))); }
  }

  /** The caller reads all there is. */
  lemma ReadAllRun(u: System) returns (acts: seq<Action>)
    requires Behind(u) && u.core.queue == []
    ensures ValidRun(u, acts) && NoPosts(acts)
    ensures Run(u, acts) == u.(core := Advance(u.core.(moves := []), |u.core.unread|), pc := Between)
  {
    acts := [QueueRests, Meanwhile([]), AdvanceHead(|u.core.unread|)];
    RunThree(u, QueueRests, Meanwhile([]), AdvanceHead(|u.core.unread|));
  }

  /** Then a settle drains the backlog into the CQ, and a slot is free. */
  lemma SettleFrees(v: System) returns (acts: seq<Action>)
    requires v.pc == Between && v.core.blocking == NIL && v.core.queue == [] && v.core.moves == []
    requires v.core.backlog != [] && Room(v.core)
    ensures ValidRun(v, acts) && NoPosts(acts)
    ensures var w := Run(v, acts);
      && w.core.free != [] && w.core.queue == [] && w.core.blocking == NIL && w.core.ops == v.core.ops
      && w.pc == Running && w.worker == v.worker
  {
    acts := ResumeActs();
    ResumeRun(v);
    UnstalledSettle(v.core);
    DrainFrees(v.core);
  }

  lemma DrainedRun(u: System) returns (acts: seq<Action>)
    requires Behind(u) && u.core.queue == [] && u.core.backlog != [] && u.core.entries > 0
    ensures ValidRun(u, acts) && NoPosts(acts)
    ensures var v := Run(u, acts); Behind(v) && v.worker == u.worker && v.core.queue == [] && v.core.free != []
  {
    acts := ReadAllRun(u);
    var more := SettleFrees(Run(u, acts));
    RunConcat(u, acts, more);
    acts := acts + more;
    SoundAlways(u, acts);
  }

  lemma BacklogRun(u: System) returns (acts: seq<Action>)
    requires Behind(u) && u.core.queue == [] && u.core.backlog != [] && u.core.entries > 0
    ensures Overtaken(u, acts)
  {
    var first := DrainedRun(u);
    acts := QueuedRun(Run(u, first));
    OvertakenAfter(u, first, acts);
    acts := first + acts;
  }

  lemma UnstalledSettle(c: Core)
    requires c.blocking == NIL
    ensures Settle(c) == Drain(c) && Drain(c).blocking == NIL && Drain(c).ops == c.ops && Drain(c).queue == c.queue
  {
    DrainFacts(c);
  }

  // a slot is freed from waiting[]

  lemma OfferRun(u: System, x: Addr) returns (acts: seq<Action>)
    requires Behind(u) && u.core.queue == [] && x in u.core.waiting
    ensures ValidRun(u, acts) && NoPosts(acts)
    ensures Run(u, acts) == u.(core := Unpark(u.core, x), pc := Retry(x, [], []))
  {
    acts := [QueueRests, BeginWait([x]), UnparkNext];
    assert [x][1..] == [];
    RunThree(u, QueueRests, BeginWait([x]), UnparkNext);
  }

  lemma FailRun(s: System) returns (acts: seq<Action>)
    requires s.pc.Retry? && s.pc.ready == [] && s.pc.done == []
    ensures ValidRun(s, acts) && NoPosts(acts)
    ensures Run(s, acts) == Answered(s.(pc := Completing([])), Complete(s.core, s.pc.op, -1), s.pc.op, -1)
  {
    acts := [RetryAnswer(-1), EndRetries, CompleteNext];
    var d := Done(s.pc.op, -1);
    assert [] + [d] == [d] && [d][1..] == [];
    RunThree(s, RetryAnswer(-1), EndRetries, CompleteNext);
  }

  /** A parked op is retried, fails, and is answered: its slot is free or backlogged. */
  lemma RetriedRun(u: System, x: Addr) returns (acts: seq<Action>)
    requires Behind(u) && u.core.queue == [] && x in u.core.waiting
    ensures ValidRun(u, acts) && NoPosts(acts)
    ensures var v := Run(u, acts);
      && Behind(v) && v.worker == u.worker && v.core.queue == [] && v.core.entries == u.core.entries
      && (v.core.free != [] || v.core.backlog != [])
  {
    acts := FailedRun(u, x);
    ParkedIsOther(u, x);
    SoundAlways(u, acts);
    CompletedAside(Unpark(u.core, x), x, u.worker.op);
  }

  lemma FailedRun(u: System, x: Addr) returns (acts: seq<Action>)
    requires Behind(u) && u.core.queue == [] && x in u.core.waiting
    ensures ValidRun(u, acts) && NoPosts(acts)
    ensures var v := Run(u, acts);
      v.core == Complete(Unpark(u.core, x), x, -1) && v.pc == Running && v.worker == u.worker
  {
    acts := OfferRun(u, x);
    var more := FailRun(Run(u, acts));
    RunConcat(u, acts, more);
    acts := acts + more;
    RunSnoc(u, acts, EndComplete);
    acts := acts + [EndComplete];
  }

  lemma ParkedIsOther(u: System, x: Addr)
    requires Behind(u) && x in u.core.waiting
    ensures x != u.worker.op && x != NIL
  {
    CntIn(u.core.waiting, x);
    assert Places(u, x) <= 1;
    LiveNotIdle(u, x);
  }

  lemma CompletedAside(c: Core, x: Addr, a: Addr)
    requires c.blocking == NIL && x != NIL && a != x
    ensures var d := Complete(c, x, -1);
      && d.queue == c.queue && d.blocking == NIL && d.entries == c.entries && OpAt(d, a) == OpAt(c, a)
      && (d.free != [] || d.backlog != [])
  {
    var e := CompleteStanding(c, x, -1);
    PostFrame(e, x, -1);
    PostIdle(e, x, -1, x);
    assert Idle(Post(e, x, -1), x) > 0;
  }

  // every slot

  lemma Covered(u: System)
    requires Behind(u) && u.core.queue == [] && u.core.free == [] && u.core.backlog == [] && u.core.waiting == []
    ensures |u.core.ops| <= |u.core.wq| + 1
  {
    var n, all := |u.core.ops|, u.core.wq + [u.worker.op];
    forall x: int ensures Cnt(Slots(n), x) <= Cnt(all, x) {
      CntSlots(n, x);
      CntSnoc(u.core.wq, u.worker.op, x);
      assert Places(u, x) == if 0 <= x < n then 1 else 0;
    }
    CntBounds(Slots(n), all);
  }

  /** Unless every other op waits for the worker, some run passes the worker's op. */
  lemma BehindRun(u: System) returns (acts: seq<Action>)
    requires Behind(u) && |u.core.wq| + 1 < |u.core.ops| && u.core.entries > 0
    ensures Overtaken(u, acts)
  {
    if u.core.queue != [] || u.core.free != [] {
      acts := QueuedRun(u);
    } else if u.core.backlog != [] {
      acts := BacklogRun(u);
    } else if u.core.waiting != [] {
      var x := u.core.waiting[0];
      var first := RetriedRun(u, x);
      var v := Run(u, first);
      if v.core.free != [] { acts := QueuedRun(v); } else { acts := BacklogRun(v); }
      OvertakenAfter(u, first, acts);
      acts := first + acts;
    } else {
      Covered(u);
      assert false;
    }
  }

  // ---- when it cannot ----------------------------------------------------

  /** Every op of the pool but the worker's own waits for the worker: nothing can be submitted, run,
      retried or answered. */
  ghost predicate Jammed(s: System) {
    && s.worker.WTicketed? && 0 <= SerialAt(s, s.worker.op)
    && s.core.queue == [] && s.core.waiting == [] && s.core.free == [] && s.core.backlog == []
    && (s.pc.Outside? || s.pc.Between? || s.pc.Running? || s.pc == Intake([]) || s.pc == Retrying([], [])
        || s.pc == Completing([]))
    && !Passed(s)
  }

  lemma JammedStep(s: System, act: Action)
    requires Jammed(s) && Enabled(s, act) && !act.PostWork?
    ensures Jammed(Apply(s, act)) && Apply(s, act).worker == s.worker
  {
    var t := Apply(s, act);
    if act.ForeignEmit? {
      assert Drain(s.core) == s.core;
    } else if act.SettleTicket? {
      assert Drain(SettleStanding(s.core)) == SettleStanding(s.core);
    } else {
      if act.BeginWait? { OfferedParked(s, act.ready); }
      assert t.log == s.log;
    }
    assert t.order == s.order && t.serialOf == s.serialOf;
    assert forall p | 0 <= p < |t.log| && Passes(t, t.log[p]) :: p < |s.log| && Passes(s, s.log[p]);
  }

  lemma OfferedParked(s: System, ready: seq<Addr>)
    requires CanWait(s, ready)
    ensures ready == [] || ready[0] in s.core.waiting
  {
  }

  lemma {:induction false} JammedAlways(s: System, acts: seq<Action>)
    requires Jammed(s) && ValidRun(s, acts) && NoPosts(acts)
    ensures Jammed(Run(s, acts))
    decreases |acts|
  {
    if acts != [] {
      JammedStep(s, acts[0]);
      JammedAlways(Apply(s, acts[0]), acts[1..]);
    }
  }

  lemma SlotFull(q: seq<Addr>, n: nat, x: Addr)
    requires (forall y :: Cnt(q, y) <= if 0 <= y < n then 1 else 0) && |q| == n && 0 <= x < n
    ensures Cnt(q, x) == 1
  {
    if Cnt(q, x) == 0 {
      forall y ensures Cnt(q + [x], y) <= if 0 <= y < n then 1 else 0 { CntSnoc(q, x, y); }
      Pigeonhole(q + [x], n);
    }
  }

  /** The worker queue and the worker's hand are all the pool. */
  lemma AllAtWorker(s: System, x: Addr)
    requires Partition(s) && s.worker.WTicketed? && |s.core.wq| + 1 >= |s.core.ops|
    ensures Cnt(s.core.queue, x) == Cnt(s.core.waiting, x) == Cnt(s.core.free, x) == Cnt(s.core.backlog, x) == 0
  {
    var n, all := |s.core.ops|, s.core.wq + [s.worker.op];
    forall y ensures Cnt(all, y) == Cnt(s.core.wq, y) + WorkCnt(s.worker, y) <= if 0 <= y < n then 1 else 0 {
      CntSnoc(s.core.wq, s.worker.op, y);
      assert Places(s, y) == if 0 <= y < n then 1 else 0;
    }
    Pigeonhole(all, n);
    if 0 <= x < n { SlotFull(all, n, x); }
    assert Places(s, x) == if 0 <= x < n then 1 else 0;
  }

  lemma FirstCounts(q: seq<Addr>)
    ensures q == [] || Cnt(q, q[0]) > 0
  {
  }

  lemma WindowJams(s: System)
    requires Sound(s) && NoEarlySettle(s) && s.pc == Between && s.worker.WTicketed?
    requires |s.core.wq| + 1 >= |s.core.ops|
    ensures Jammed(s)
  {
    forall x
      ensures Cnt(s.core.queue, x) == Cnt(s.core.waiting, x) == Cnt(s.core.free, x) == Cnt(s.core.backlog, x) == 0
    {
      AllAtWorker(s, x);
    }
    FirstCounts(s.core.queue);
    FirstCounts(s.core.waiting);
    FirstCounts(s.core.free);
    FirstCounts(s.core.backlog);
    assert Tracked(s, s.worker.op);
    StalledNotPassed(s);
  }

  // ---- exactly -----------------------------------------------------------

  lemma AnswerStays(s: System, act: Action)
    requires Sound(s) && s.worker.WTicketed? && Enabled(s, act) && !act.PostWork?
    ensures var t, a := Apply(s, act), s.worker.op;
      Sound(t) && t.worker == s.worker && OpAt(t.core, a).sqe.skip == OpAt(s.core, a).sqe.skip
  {
    var t, a := Apply(s, act), s.worker.op;
    SoundKept(s, act);
    HistoryKept(s, act);
    SerialStays(s, act);
    assert Tracked(s, a) && Tracked(t, a);
  }

  lemma SerialStays(s: System, act: Action)
    requires Sound(s) && s.worker.WTicketed? && Enabled(s, act) && !act.PostWork?
    ensures Apply(s, act).worker == s.worker && SerialAt(Apply(s, act), s.worker.op) == SerialAt(s, s.worker.op)
  {
    if act.TakeSqe? {
      assert Cnt(s.core.free, s.core.free[0]) > 0;
      assert Places(s, s.worker.op) <= 1;
    } else {
      OthersStay(s, act);
    }
  }

  lemma OthersStay(s: System, act: Action)
    requires s.worker.WTicketed? && Enabled(s, act) && !act.PostWork? && !act.TakeSqe?
    ensures Apply(s, act).worker == s.worker && Apply(s, act).serialOf == s.serialOf
  {
  }

  lemma {:induction false} SameAnswer(s: System, acts: seq<Action>)
    requires Sound(s) && s.worker.WTicketed? && ValidRun(s, acts) && NoPosts(acts)
    ensures Run(s, acts).worker == s.worker
    ensures OpAt(Run(s, acts).core, s.worker.op).sqe.skip == OpAt(s.core, s.worker.op).sqe.skip
    decreases |acts|
  {
    if acts != [] {
      AnswerStays(s, acts[0]);
      SameAnswer(Apply(s, acts[0]), acts[1..]);
    }
  }

  lemma WindowCan(s: System) returns (acts: seq<Action>)
    requires WindowOpen(s) && s.core.entries > 0 && |s.core.wq| + 1 < |s.core.ops|
    ensures Overtaken(s, acts)
  {
    ResumedBehind(s);
    ResumeRun(s);
    DrainFacts(SettleStanding(s.core));
    acts := BehindRun(Resumed(s));
    OvertakenAfter(s, ResumeActs(), acts);
    acts := ResumeActs() + acts;
  }

  lemma WindowCannot(s: System, acts: seq<Action>)
    requires Sound(s) && NoEarlySettle(s) && s.pc == Between && s.worker.WTicketed? && Overtaken(s, acts)
    ensures !Silent(OpAt(s.core, s.worker.op), s.worker.res) && |s.core.wq| + 1 < |s.core.ops|
  {
    SameAnswer(s, acts);
    if |s.core.wq| + 1 >= |s.core.ops| {
      WindowJams(s);
      JammedAlways(s, acts);
      assert false;
    }
  }

  /** Before the worker posts the answer it has raised the ticket for, others can bring it about that
      it comes out of turn, if and only if the answer is not a silent success and some op other than
      the worker's own is not waiting for the worker. */
  lemma WindowExact(s: System)
    requires Sound(s) && NoEarlySettle(s) && s.pc == Between && s.worker.WTicketed? && s.core.entries > 0
    ensures (exists acts :: Overtaken(s, acts))
      <==> !Silent(OpAt(s.core, s.worker.op), s.worker.res) && |s.core.wq| + 1 < |s.core.ops|
  {
    if !Silent(OpAt(s.core, s.worker.op), s.worker.res) && |s.core.wq| + 1 < |s.core.ops| {
      var acts := WindowCan(s);
    }
    forall acts | Overtaken(s, acts)
      ensures !Silent(OpAt(s.core, s.worker.op), s.worker.res) && |s.core.wq| + 1 < |s.core.ops|
    {
      WindowCannot(s, acts);
    }
  }
}
