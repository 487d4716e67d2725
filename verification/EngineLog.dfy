/** Completions over whole runs: every submission is answered exactly once or silently, no
    accepted completion is lost, doubled or overwritten, and exactly which steps let one overtake
    another: in the caller's queue, and within a chain. */
module EngineLog {
  import opened Lists
  import opened EngineCore
  import opened EngineSystem
  import opened EngineOwnership
  import opened EngineTickets
  import opened EngineChains

  function CqesOf(log: seq<LogItem>): (r: seq<Cqe>)
    ensures |r| == |log|
    ensures forall i {:trigger r[i]} | 0 <= i < |r| :: r[i] == log[i].cqe
  {
    seq(|log|, i requires 0 <= i < |log| => log[i].cqe)
  }

  /** How many final completions submission k got. */
  function Finals(log: seq<LogItem>, k: int): nat {
    if log == [] then 0
    else Finals(log[..|log| - 1], k) + if log[|log| - 1].final && log[|log| - 1].serial == k then 1 else 0
  }

  /** How many it is owed: one once it is settled, none while it is in flight, after a silent
      success, or when its chain was cancelled quietly. */
  function Due(e: Entry): nat {
    match e.fate
    case InFlight(_) => 0
    case Ran(res) => if res >= 0 && e.skip then 0 else 1
    case ChainCancelled(how) => if how == CancelsQuietly then 0 else 1
  }

  ghost predicate ExactlyOnce(s: System) {
    forall k | 0 <= k < |s.hist| :: Finals(s.log, k) == Due(s.hist[k])
  }

  /** Delivered, standing in the CQ and backlogged: together the accepted completions, each as
      often as it was accepted, and the CQ holds no more than its entries. */
  ghost predicate Conserved(s: System) {
    multiset(Flow(s.core)) == multiset(CqesOf(s.log)) && |s.core.unread| <= s.core.entries
  }

  /** And in the order they were accepted. */
  ghost predicate Fifo(s: System) {
    Flow(s.core) == CqesOf(s.log)
  }

  /** What a submission's final completion has to say: the result it ran to, or that its chain was
      cancelled. */
  function ResultOf(f: Fate): int {
    match f
    case InFlight(_) => 0
    case Ran(res) => res
    case ChainCancelled(_) => -125
  }

  /** A completion carries the user_data its submission came with. A final one carries the result and
      says that no more comes, any other one says that more may. */
  ghost predicate Named(e: Entry, it: LogItem) {
    && it.cqe.userData == e.userData
    && (if it.final then it.cqe.res == ResultOf(e.fate) && it.cqe.flags == CqeFlags(false, false, 0)
        else it.cqe.flags.more)
  }

  ghost predicate ItemOk(s: System, it: LogItem) {
    if it.serial < 0 then !it.final
    else
      && it.serial < |s.hist|
      && (it.serial in s.order || !s.hist[it.serial].fate.InFlight?)
      && (it.final ==> !s.hist[it.serial].fate.InFlight?)
      && Named(s.hist[it.serial], it)
  }

  /** Every completion names its submission, and a final one its result. */
  ghost predicate EveryNamed(s: System) {
    forall p | 0 <= p < |s.log| && s.log[p].serial >= 0 ::
      s.log[p].serial < |s.hist| && Named(s.hist[s.log[p].serial], s.log[p])
  }

  /** Nothing follows an op's final completion. */
  ghost predicate FinalIsLast(log: seq<LogItem>) {
    forall p, q | 0 <= p < q < |log| && log[p].final :: log[q].serial != log[p].serial
  }

  ghost predicate Logged(s: System) {
    && ExactlyOnce(s) && FinalIsLast(s.log)
    && (forall p | 0 <= p < |s.log| :: ItemOk(s, s.log[p]))
  }

  // ---- one more item -----------------------------------------------------

  lemma FinalsSnoc(log: seq<LogItem>, it: LogItem, k: int)
    ensures Finals(log + [it], k) == Finals(log, k) + if it.final && it.serial == k then 1 else 0
  {
    assert (log + [it])[..|log|] == log;
  }

  lemma {:induction false} FinalsNone(log: seq<LogItem>, k: int)
    requires forall p | 0 <= p < |log| && log[p].final :: log[p].serial != k
    ensures Finals(log, k) == 0
  {
    if log != [] { FinalsNone(log[..|log| - 1], k); }
  }

  /** The history only grows by submissions in flight; nothing new is accepted. */
  ghost predicate HistGrows(s: System, t: System) {
    && |t.hist| >= |s.hist| && (forall k | 0 <= k < |s.hist| :: t.hist[k] == s.hist[k])
    && (forall k | |s.hist| <= k < |t.hist| :: t.hist[k].fate.InFlight?)
    && (forall k | k in s.order :: k in t.order)
  }

  lemma LogSame(s: System, t: System)
    requires Logged(s) && HistGrows(s, t) && t.log == s.log
    ensures Logged(t)
  {
    forall k | 0 <= k < |t.hist| ensures Finals(t.log, k) == Due(t.hist[k]) {
      if k >= |s.hist| {
        forall p | 0 <= p < |t.log| ensures t.log[p].serial != k { assert ItemOk(s, s.log[p]); }
        FinalsNone(t.log, k);
      }
    }
    forall p | 0 <= p < |t.log| ensures ItemOk(t, t.log[p]) { assert ItemOk(s, s.log[p]); }
  }

  /** A multishot emission, or a message from another ring. */
  lemma LogEmission(s: System, t: System, it: LogItem)
    requires Logged(s) && HistGrows(s, t) && t.log == s.log + [it] && t.order == s.order && |t.hist| == |s.hist|
    requires !it.final && it.serial < |s.hist|
    requires it.serial >= 0 ==>
      s.hist[it.serial].fate.InFlight? && it.serial in s.order && Named(s.hist[it.serial], it)
    ensures Logged(t)
  {
    forall k | 0 <= k < |t.hist| ensures Finals(t.log, k) == Due(t.hist[k]) { FinalsSnoc(s.log, it, k); }
    forall p | 0 <= p < |t.log| ensures ItemOk(t, t.log[p]) {
      if p < |s.log| { assert t.log[p] == s.log[p]; assert ItemOk(s, s.log[p]); }
    }
    forall p, q | 0 <= p < q < |t.log| && t.log[p].final ensures t.log[q].serial != t.log[p].serial {
      assert t.log[p] == s.log[p] && ItemOk(s, s.log[p]);
    }
  }

  /** Submission k is settled, with the completion it is owed. */
  ghost predicate Settles(s: System, t: System, k: int, cqe: Cqe) {
    && 0 <= k < |s.hist| && s.hist[k].fate.InFlight?
    && |t.hist| == |s.hist| && (forall j | 0 <= j < |s.hist| && j != k :: t.hist[j] == s.hist[j])
    && !t.hist[k].fate.InFlight? && t.hist[k].userData == s.hist[k].userData
    && Named(t.hist[k], LogItem(k, cqe, true))
    && (forall j | j in s.order :: j in t.order)
    && t.log == s.log + if Due(t.hist[k]) == 0 then [] else [LogItem(k, cqe, true)]
  }

  lemma LogSettled(s: System, t: System, k: int, cqe: Cqe)
    requires Logged(s) && Settles(s, t, k, cqe)
    ensures Logged(t)
  {
    var it := LogItem(k, cqe, true);
    assert Due(t.hist[k]) == 0 ==> t.log == s.log;
    forall j | 0 <= j < |t.hist| ensures Finals(t.log, j) == Due(t.hist[j]) {
      FinalsSnoc(s.log, it, j);
    }
    forall p | 0 <= p < |t.log| ensures ItemOk(t, t.log[p]) {
      if p < |s.log| { assert t.log[p] == s.log[p]; assert ItemOk(s, s.log[p]); }
    }
    forall p, q | 0 <= p < q < |t.log| && t.log[p].final ensures t.log[q].serial != t.log[p].serial {
      assert t.log[p] == s.log[p] && ItemOk(s, s.log[p]);
    }
  }

  // ---- actions -----------------------------------------------------------

  /** Answering the op in slot a. */
  lemma AnswerLogged(s: System, t: System, a: Addr, res: int)
    requires Owned(s) && Logged(s) && LiveCnt(s, a) > 0
    requires t.hist == Settled(s, a, Ran(res)) && t.log == s.log + Final(s, a, res) && t.order == s.order
    ensures Logged(t)
  {
    assert Tracked(s, a);
    LiveNotIdle(s, a);
    LogSettled(s, t, SerialAt(s, a), Reply(s.core.ops[a], res));
  }

  lemma EmittedLogged(s: System, serial: int, cqe: Cqe)
    requires Owned(s) && Logged(s) && serial < |s.hist|
    requires serial >= 0 ==>
      s.hist[serial].fate.InFlight? && serial in s.order && Named(s.hist[serial], LogItem(serial, cqe, false))
    ensures Logged(Emitted(s, serial, cqe))
  {
    if EmitDropped(s.core) {
      LogSame(s, Emitted(s, serial, cqe));
    } else {
      LogEmission(s, Emitted(s, serial, cqe), LogItem(serial, cqe, false));
    }
  }

  lemma CancelChainedLogged(s: System)
    requires Owned(s) && Logged(s) && CanCancelChained(s)
    ensures Logged(DoCancelChained(s))
  {
    var c, a := s.core, s.core.queue[0];
    assert LiveCnt(s, a) > 0 by { assert Cnt(c.queue, a) > 0; }
    assert Tracked(s, a);
    LiveNotIdle(s, a);
    LogSettled(s, DoCancelChained(s), SerialAt(s, a), Reply(c.ops[a], -ECANCELED));
  }

  lemma LookupLogged(s: System, realfd: int)
    requires Owned(s) && Logged(s) && CanLookup(s)
    ensures Logged(DoLookup(s, realfd))
  {
    HeldIsLive(s);
    if realfd < 0 {
      AnswerLogged(s, DoLookup(s, realfd), s.pc.op, -EBADF);
    } else {
      LogSame(s, DoLookup(s, realfd));
    }
  }

  lemma CancelOneLive(s: System, t: Addr)
    requires t in s.core.waiting || t in s.core.queue || t in s.core.wq
    ensures LiveCnt(s, t) > 0 && LiveCnt(s, t) > WorkCnt(s.worker, t)
  {
    CntIn(s.core.waiting, t);
    CntIn(s.core.queue, t);
    CntIn(s.core.wq, t);
  }

  predicate Posting(act: Action) {
    Answering(act) || act.Lookup? || act.CancelChained? || act.ForeignEmit? || act.Emission?
  }

  lemma PlainLogged(s: System, act: Action)
    requires Sound(s) && Logged(s) && Enabled(s, act) && !Posting(act)
    ensures Logged(Apply(s, act))
  {
    LogSame(s, Apply(s, act));
  }

  /** Cores that are alike to the completion side. */
  ghost predicate SameCompletions(c: Core, d: Core) {
    && d.ops == c.ops && d.free == c.free && d.backlog == c.backlog && d.unread == c.unread
    && d.entries == c.entries && d.moves == c.moves && d.delivered == c.delivered
  }

  predicate Answering(act: Action) {
    act.Finish? || act.CompleteNext? || act.PostWork?
    || act.CancelParkedOne? || act.CancelQueuedOne? || act.CancelAtWorkerOne?
  }

  /** Whose answer the step posts, and which. */
  function AnswerOf(s: System, act: Action): Done
    requires Enabled(s, act) && Answering(act)
  {
    match act
    case Finish(res) => Done(s.pc.op, res)
    case CompleteNext => s.pc.done[0]
    case PostWork(res) => Done(s.worker.op, res)
    case CancelParkedOne(t) => Done(t, -ECANCELED)
    case CancelQueuedOne(t) => Done(t, -ECANCELED)
    case CancelAtWorkerOne(t) => Done(t, -ECANCELED)
  }

  /** The submission side by the time it is posted. */
  function SettledBy(s: System, act: Action): Core
    requires Enabled(s, act) && Answering(act)
  {
    var c, a := s.core, AnswerOf(s, act);
    match act
    case Finish(res) => AnswerStanding(c, a.op, res)
    case CompleteNext => CompleteStanding(c, a.op, a.res)
    case PostWork(_) => c
    case CancelParkedOne(t) => CancelStanding(Unpark(c, t), t)
    case CancelQueuedOne(t) => CancelStanding(c.(queue := Without(c.queue, t)), t)
    case CancelAtWorkerOne(t) => CancelStanding(c.(wq := Without(c.wq, t)), t)
  }

  lemma AnswerLive(s: System, act: Action)
    requires Owned(s) && Enabled(s, act) && Answering(act)
    ensures LiveCnt(s, AnswerOf(s, act).op) > 0
  {
    match act
    case Finish(_) => HeldIsLive(s);
    case CompleteNext => assert DoneCnt(s.pc.done, s.pc.done[0].op) > 0;
    case PostWork(_) =>
    case CancelParkedOne(t) => CancelOneLive(s, t);
    case CancelQueuedOne(t) => CancelOneLive(s, t);
    case CancelAtWorkerOne(t) => CancelOneLive(s, t);
  }

  ghost predicate AnswersWith(s: System, t: System, c: Core, d: Done) {
    && t.hist == Settled(s, d.op, Ran(d.res)) && t.order == s.order && t.log == s.log + Final(s, d.op, d.res)
    && t.core == Post(c, d.op, d.res) && SameCompletions(s.core, c)
  }

  lemma CancelIs(s: System, c: Core, t: Addr)
    requires SameCompletions(s.core, c)
    ensures AnswersWith(s, Answered(s, CancelTarget(c, t), t, -ECANCELED), CancelStanding(c, t), Done(t, -ECANCELED))
  {
  }

  lemma FinishIs(s: System, res: int)
    requires Executing(s)
    ensures AnswersWith(s, DoFinish(s, res), AnswerStanding(s.core, s.pc.op, res), Done(s.pc.op, res))
  {
  }

  lemma CompleteIs(s: System)
    requires s.pc.Completing? && s.pc.done != []
    ensures var d := s.pc.done[0]; AnswersWith(s, DoComplete(s), CompleteStanding(s.core, d.op, d.res), d)
  {
  }

  lemma WorkIs(s: System, res: int)
    requires CanPostWork(s, res)
    ensures AnswersWith(s, DoPostWork(s, res), s.core, Done(s.worker.op, res))
  {
  }

  lemma AnswerIs(s: System, act: Action)
    requires Enabled(s, act) && Answering(act)
    ensures AnswersWith(s, Apply(s, act), SettledBy(s, act), AnswerOf(s, act))
  {
    match act
    case Finish(res) => FinishIs(s, res);
    case CompleteNext => CompleteIs(s);
    case PostWork(res) => WorkIs(s, res);
    case CancelParkedOne(t) => CancelIs(s, Unpark(s.core, t), t);
    case CancelQueuedOne(t) => CancelIs(s, s.core.(queue := Without(s.core.queue, t)), t);
    case CancelAtWorkerOne(t) => CancelIs(s, s.core.(wq := Without(s.core.wq, t)), t);
  }

  /** One step keeps the account of completions. */
  lemma LoggedKept(s: System, act: Action)
    requires Sound(s) && Logged(s) && Enabled(s, act)
    ensures Logged(Apply(s, act))
  {
    if Answering(act) {
      AnswerIs(s, act);
      AnswerLive(s, act);
      AnswerLogged(s, Apply(s, act), AnswerOf(s, act).op, AnswerOf(s, act).res);
    } else if act.ForeignEmit? || act.Emission? {
      EmissionLogged(s, act);
    } else if act.CancelChained? {
      CancelChainedLogged(s);
    } else if act.Lookup? {
      LookupLogged(s, act.realfd);
    } else {
      PlainLogged(s, act);
    }
  }

  lemma EmissionLogged(s: System, act: Action)
    requires Owned(s) && OutDequeued(s) && Logged(s) && Enabled(s, act) && (act.ForeignEmit? || act.Emission?)
    ensures Logged(Apply(s, act))
  {
    if act.ForeignEmit? {
      EmittedLogged(s, -1, act.cqe);
    } else {
      HeldIsLive(s);
      EmittedLogged(s, SerialAt(s, s.pc.op), Cqe(OpAt(s.core, s.pc.op).sqe.userData, act.res, act.flags));
    }
  }

  lemma SetupLogged(n: nat)
    ensures Logged(Setup(n))
  {
  }

  /** In every interleaving each submission has exactly the final completion it is owed, and no
      completion follows a final one. */
  lemma {:induction false} LoggedAlways(s: System, acts: seq<Action>)
    requires Sound(s) && Logged(s) && ValidRun(s, acts)
    ensures Sound(Run(s, acts)) && Logged(Run(s, acts))
    decreases |acts|
  {
    if acts != [] {
      SoundKept(s, acts[0]);
      LoggedKept(s, acts[0]);
      LoggedAlways(Apply(s, acts[0]), acts[1..]);
    }
  }

  // ---- the caller's queue ------------------------------------------------

  /** From s to t at most one completion is accepted; it goes before the last n ones. */
  ghost predicate FlowsOn(s: System, t: System, n: nat) {
    && |s.log| <= |t.log| <= |s.log| + 1 && t.log[..|s.log|] == s.log
    && n <= |Flow(s.core)| && Flow(t.core) == Inserted(Flow(s.core), n, CqesOf(t.log[|s.log|..]))
    && (|s.core.unread| <= s.core.entries ==> |t.core.unread| <= t.core.entries)
  }

  lemma {:induction false} DrainSame(c: Core, d: Core)
    requires SameCompletions(c, d)
    ensures SameCompletions(Drain(c), Drain(d)) && Late(c) == Late(d) && Flow(c) == Flow(d)
    decreases |c.backlog|
  {
    if c.backlog != [] && Room(Glance(c)) { DrainSame(DrainOne(Glance(c)), DrainOne(Glance(d))); }
  }

  lemma FlowSame(s: System, t: System)
    requires t.log == s.log && Flow(t.core) == Flow(s.core)
    requires |s.core.unread| <= s.core.entries ==> |t.core.unread| <= t.core.entries
    ensures FlowsOn(s, t, Late(s.core))
  {
    LateFits(s.core);
    assert t.log[|s.log|..] == [];
    InsertedNothing(Flow(s.core), Late(s.core));
  }

  /** Slots in use, and what the submitter and the worker keep, say nothing about completions. */
  lemma FlowAside(s: System, t: System, a: Addr, op: EngOp)
    requires Idle(s.core, a) == 0 && t.log == s.log
    requires SameCompletions(SetOp(s.core, a, op), t.core)
    ensures FlowsOn(s, t, Late(s.core))
  {
    NotBacklogged(s.core, a);
    assert Cqes(t.core.ops, s.core.backlog) == Cqes(s.core.ops, s.core.backlog);
    FlowSame(s, t);
  }

  lemma FlowAnswered(s: System, t: System, c: Core, a: Addr, res: int)
    requires Owned(s) && LiveCnt(s, a) > 0 && SameCompletions(s.core, c)
    requires t.core == Post(c, a, res) && t.log == s.log + Final(s, a, res)
    ensures FlowsOn(s, t, Late(s.core))
  {
    LiveNotIdle(s, a);
    assert Tracked(s, a);
    PostFacts(c, a, res);
    DrainSame(s.core, c);
    assert t.log[|s.log|..] == Final(s, a, res);
    assert CqesOf(Final(s, a, res)) == Answers(c.ops[a], res);
  }

  lemma FlowEmitted(s: System, serial: int, cqe: Cqe)
    requires Owned(s)
    ensures FlowsOn(s, Emitted(s, serial, cqe), Late(s.core))
  {
    var t := Emitted(s, serial, cqe);
    forall x ensures Idle(s.core, x) <= if 0 <= x < |s.core.ops| then 1 else 0 {
      assert Places(s, x) == if 0 <= x < |s.core.ops| then 1 else 0;
    }
    EmitFacts(s.core, cqe);
    var more: seq<LogItem> := if EmitDropped(s.core) then [] else [LogItem(serial, cqe, false)];
    assert t.log[|s.log|..] == more;
    assert CqesOf(more) == if EmitDropped(s.core) then [] else [cqe];
  }

  lemma FlowTaken(s: System, sqe: Sqe)
    requires Owned(s) && s.pc.Intake? && s.core.free != []
    ensures FlowsOn(s, DoTakeSqe(s, sqe), Late(s.core))
  {
    var t, a := DoTakeSqe(s, sqe), s.core.free[0];
    assert Places(s, a) <= 1 && Cnt(s.core.free, a) > 0;
    CntIn(s.core.backlog, a);
    assert Cqes(t.core.ops, s.core.backlog) == Cqes(s.core.ops, s.core.backlog);
    FlowSame(s, t);
  }

  lemma FlowCancelled(s: System)
    requires Owned(s) && CanCancelChained(s)
    ensures FlowsOn(s, DoCancelChained(s), Late(s.core))
  {
    var a := s.core.queue[0];
    assert LiveCnt(s, a) > 0 by { assert Cnt(s.core.queue, a) > 0; }
    if s.core.chainFailed == CancelsQuietly {
      FlowSame(s, DoCancelChained(s));
    } else {
      FlowFront(s, Pop(s.core), a);
    }
  }

  lemma FlowFront(s: System, c: Core, a: Addr)
    requires Owned(s) && LiveCnt(s, a) > 0 && CanCancelChained(s) && s.core.chainFailed != CancelsQuietly
    requires a == s.core.queue[0] && c == Pop(s.core)
    ensures FlowsOn(s, DoCancelChained(s), Late(s.core))
  {
    var t := DoCancelChained(s);
    FlowAnswered(s, t.(core := Post(c, a, -ECANCELED)), c, a, -ECANCELED);
  }

  lemma FlowLookup(s: System, realfd: int)
    requires Owned(s) && CanLookup(s)
    ensures FlowsOn(s, DoLookup(s, realfd), Late(s.core))
  {
    var t, a := DoLookup(s, realfd), s.pc.op;
    HeldIsLive(s);
    if realfd < 0 {
      FlowAnswered(s, t, Standing(s.core, a, -EBADF), a, -EBADF);
    } else {
      FlowAside(s, t, a, OpAt(t.core, a));
    }
  }

  lemma FlowHandOff(s: System)
    requires Owned(s) && Pendable(s)
    ensures FlowsOn(s, DoHandOff(s), Late(s.core))
  {
    HeldIsLive(s);
    FlowAside(s, DoHandOff(s), s.pc.op, OpAt(DoHandOff(s).core, s.pc.op));
  }

  lemma FlowPlain(s: System, act: Action)
    requires Owned(s) && Enabled(s, act) && !Posting(act) && !act.TakeSqe? && !act.HandOff?
    ensures FlowsOn(s, Apply(s, act), Late(s.core))
  {
    var t := Apply(s, act);
    if act.AdvanceHead? {
      AdvanceFacts(s.core, act.k);
    } else if act.SettleTicket? {
      DrainFacts(SettleStanding(s.core));
    }
    FlowSame(s, t);
  }

  /** One step accepts at most one completion, and where it goes in the caller's queue. */
  lemma FlowStep(s: System, act: Action)
    requires Owned(s) && Enabled(s, act)
    ensures FlowsOn(s, Apply(s, act), Late(s.core))
  {
    if Answering(act) {
      AnswerIs(s, act);
      AnswerLive(s, act);
      FlowAnswered(s, Apply(s, act), SettledBy(s, act), AnswerOf(s, act).op, AnswerOf(s, act).res);
    } else if act.ForeignEmit? {
      FlowEmitted(s, -1, act.cqe);
    } else if act.Emission? {
      FlowEmitted(s, SerialAt(s, s.pc.op), Cqe(OpAt(s.core, s.pc.op).sqe.userData, act.res, act.flags));
    } else {
      FlowOther(s, act);
    }
  }

  lemma FlowOther(s: System, act: Action)
    requires Owned(s) && Enabled(s, act) && !Answering(act) && !act.ForeignEmit? && !act.Emission?
    ensures FlowsOn(s, Apply(s, act), Late(s.core))
  {
    match act
    case TakeSqe(sqe) => FlowTaken(s, sqe);
    case CancelChained => FlowCancelled(s);
    case Lookup(realfd) => FlowLookup(s, realfd);
    case HandOff => FlowHandOff(s);
    case _ => FlowPlain(s, act);
  }

  lemma InsertedKeeps(q: seq<Cqe>, n: nat, x: seq<Cqe>)
    requires n <= |q|
    ensures multiset(Inserted(q, n, x)) == multiset(q) + multiset(x)
  {
    assert q == q[..|q| - n] + q[|q| - n..];
  }

  lemma LogGrown(s: System, t: System)
    requires |s.log| <= |t.log| && t.log[..|s.log|] == s.log
    ensures CqesOf(t.log) == CqesOf(s.log) + CqesOf(t.log[|s.log|..])
  {
    assert t.log == s.log + t.log[|s.log|..];
  }

  lemma ConservedKept(s: System, act: Action)
    requires Owned(s) && Conserved(s) && Enabled(s, act)
    ensures Conserved(Apply(s, act))
  {
    var t := Apply(s, act);
    FlowStep(s, act);
    LogGrown(s, t);
    InsertedKeeps(Flow(s.core), Late(s.core), CqesOf(t.log[|s.log|..]));
  }

  /** The step accepts a completion that comes before one it can be told from: the CQ was full when
      the backlog was drained, and by the test for room the caller had read. */
  ghost predicate Overtakes(s: System, act: Action)
    requires Enabled(s, act)
  {
    var q, t := Flow(s.core), Apply(s, act);
    |t.log| > |s.log| && exists i :: 0 <= i < |q| && |q| - Late(s.core) <= i && q[i] != t.log[|s.log|].cqe
  }

  lemma Commute(w: seq<Cqe>, x: Cqe)
    ensures [x] + w == w + [x] <==> forall i | 0 <= i < |w| :: w[i] == x
  {
    if [x] + w == w + [x] {
      var i := 0;
      while i < |w|
        invariant i <= |w| && forall j | 0 <= j < i :: w[j] == x
      {
        assert (w + [x])[i] == ([x] + w)[i];
        i := i + 1;
      }
    }
  }

  lemma InsertedExact(q: seq<Cqe>, n: nat, x: Cqe)
    requires n <= |q|
    ensures Inserted(q, n, [x]) == q + [x] <==> forall i | 0 <= i < |q| && |q| - n <= i :: q[i] == x
  {
    var u, w := q[..|q| - n], q[|q| - n..];
    assert q + [x] == u + (w + [x]);
    Commute(w, x);
    InsertedLike(u, [x] + w, w + [x]);
    assert forall i | 0 <= i < |w| :: w[i] == q[|q| - n + i];
  }

  lemma InsertedLike(u: seq<Cqe>, v: seq<Cqe>, w: seq<Cqe>)
    ensures u + v == u + w <==> v == w
  {
    assert (u + v)[|u|..] == v && (u + w)[|u|..] == w;
  }

  /** One step keeps the caller's queue first in, first out exactly when nothing overtakes. */
  lemma FifoExact(s: System, act: Action)
    requires Owned(s) && Fifo(s) && Enabled(s, act)
    ensures Fifo(Apply(s, act)) <==> !Overtakes(s, act)
  {
    var t, q := Apply(s, act), Flow(s.core);
    FlowStep(s, act);
    LogGrown(s, t);
    if t.log == s.log {
      assert t.log[|s.log|..] == [];
      InsertedNothing(q, Late(s.core));
    } else {
      InsertedExact(q, Late(s.core), t.log[|s.log|].cqe);
      assert CqesOf(t.log[|s.log|..]) == [t.log[|s.log|].cqe];
    }
  }

  ghost predicate NoneOvertakes(s: System, acts: seq<Action>)
    requires ValidRun(s, acts)
    decreases |acts|
  {
    acts == [] || (!Overtakes(s, acts[0]) && NoneOvertakes(Apply(s, acts[0]), acts[1..]))
  }

  /** However the caller moves its head, between locked sections or inside them: what it has read,
      can read and will find backlogged is what was accepted, each as often; and in the order it
      was accepted, as long as no step let a completion overtake. */
  lemma {:induction false} FlowAlways(s: System, acts: seq<Action>)
    requires Owned(s) && Conserved(s) && ValidRun(s, acts)
    ensures Conserved(Run(s, acts))
    ensures Fifo(s) && NoneOvertakes(s, acts) ==> Fifo(Run(s, acts))
    decreases |acts|
  {
    if acts != [] {
      OwnedKept(s, acts[0]);
      ConservedKept(s, acts[0]);
      if Fifo(s) { FifoExact(s, acts[0]); }
      FlowAlways(Apply(s, acts[0]), acts[1..]);
    }
  }

  predicate Undisturbing(acts: seq<Action>) {
    forall i | 0 <= i < |acts| :: !acts[i].Meanwhile?
  }

  /** A caller that moves its head only between locked sections sees no overtaking at all. */
  lemma {:induction false} AtomicNoneOvertakes(s: System, acts: seq<Action>)
    requires s.core.moves == [] && Owned(s) && ValidRun(s, acts) && Undisturbing(acts)
    ensures NoneOvertakes(s, acts)
    decreases |acts|
  {
    if acts != [] {
      NotLate(s.core);
      MovesUsed(s, acts[0]);
      OwnedKept(s, acts[0]);
      AtomicNoneOvertakes(Apply(s, acts[0]), acts[1..]);
    }
  }

  lemma MovesUsed(s: System, act: Action)
    requires s.core.moves == [] && Owned(s) && Enabled(s, act) && !act.Meanwhile?
    ensures Apply(s, act).core.moves == []
  {
    var c, none := s.core, Cqe(0, 0, NoFlags());
    if Answering(act) {
      AnswerIs(s, act);
      AnswerLive(s, act);
      PostMoves(SettledBy(s, act), AnswerOf(s, act).op, AnswerOf(s, act).res, none);
    } else if act.ForeignEmit? {
      PostMoves(c, NIL, 0, act.cqe);
    } else if act.Emission? {
      PostMoves(c, NIL, 0, Cqe(OpAt(c, s.pc.op).sqe.userData, act.res, act.flags));
    } else if act.CancelChained? {
      PostMoves(Pop(c), c.queue[0], -ECANCELED, none);
    } else if act.Lookup? {
      PostMoves(Standing(c, s.pc.op, -EBADF), s.pc.op, -EBADF, none);
    } else if act.SettleTicket? {
      DrainFacts(SettleStanding(c));
    } else {
      MovesAside(s, act);
    }
  }

  lemma MovesAside(s: System, act: Action)
    requires s.core.moves == [] && Enabled(s, act) && !Posting(act) && !act.Meanwhile? && !act.SettleTicket?
    ensures Apply(s, act).core.moves == []
  {
  }

  // ---- the order of completions ------------------------------------------

  /** No linked op answers once an op taken off the queue after it has answered; so the members
      of a chain answer in the order of the chain. */
  ghost predicate AnswersInOrder(s: System) {
    forall p, q | 0 <= p < q < |s.log| :: PairInOrder(s, s.log[p], s.log[q])
  }

  ghost predicate PairInOrder(s: System, first: LogItem, second: LogItem) {
    (first.serial in s.order && 0 <= second.serial < first.serial && second.serial < |s.hist|) ==>
      !s.hist[second.serial].link
  }

  /** The queue is still stalled on the op whose ticket is up and whose completion is not. */
  ghost predicate NoEarlySettle(s: System) {
    s.worker.WTicketed? ==> StalledOn(s) == s.worker.op
  }

  /** The ticket goes up before the completion, in a locked section of its own. A settle in
      between lets the queue run on. */
  predicate InTicketWindow(s: System, act: Action) {
    act.SettleTicket? && s.worker.WTicketed?
  }

  lemma NoEarlyKept(s: System, act: Action)
    requires Sound(s) && NoEarlySettle(s) && Enabled(s, act) && !InTicketWindow(s, act)
    ensures NoEarlySettle(Apply(s, act))
  {
    if act.RaiseTicket? {
      RaiseFacts(s);
    } else {
      if s.worker.WTicketed? {
        LiveNotIdle(s, s.worker.op);
        TicketedStays(s, act);
      } else {
        TicketsRaised(s, act);
      }
    }
  }

  lemma TicketsRaised(s: System, act: Action)
    requires Enabled(s, act) && !act.RaiseTicket? && !s.worker.WTicketed?
    ensures !Apply(s, act).worker.WTicketed?
  {
  }

  lemma TicketedStays(s: System, act: Action)
    requires Sound(s) && NoEarlySettle(s) && Enabled(s, act) && !InTicketWindow(s, act)
    requires s.worker.WTicketed? && s.worker.op != NIL
    ensures NoEarlySettle(Apply(s, act))
  {
    if act.ForeignEmit? {
      EmitFrame(s.core, act.cqe);
    } else if act.Emission? {
      EmitFrame(s.core, Cqe(OpAt(s.core, s.pc.op).sqe.userData, act.res, act.flags));
    } else if act.CompleteNext? {
      assert Places(s, s.worker.op) <= 1;
      CompleteComparesSoundly(s);
      CompleteSlot(s, NIL);
    } else if s.pc.Holding? {
      HeldFacts(s);
    } else {
      OthersStall(s, act);
    }
  }

  /** The steps that neither hold an op nor answer one leave the stall alone. */
  lemma OthersStall(s: System, act: Action)
    requires Sound(s) && NoEarlySettle(s) && Enabled(s, act) && !InTicketWindow(s, act) && s.worker.WTicketed?
    requires !act.ForeignEmit? && !act.Emission? && !act.CompleteNext? && !s.pc.Holding? && !act.RaiseTicket?
    requires s.worker.op != NIL
    ensures NoEarlySettle(Apply(s, act))
  {
  }

  /** The worker has raised the ticket of a linked op and not posted its answer yet, and an op
      taken off the queue after it has answered. */
  ghost predicate Passed(s: System) {
    && s.worker.WTicketed? && Link(s, s.worker.op)
    && exists p :: 0 <= p < |s.log| && Passes(s, s.log[p])
  }

  ghost predicate Passes(s: System, it: LogItem)
    requires s.worker.WTicketed?
  {
    it.serial in s.order && SerialAt(s, s.worker.op) < it.serial
  }

  /** Only such an answer comes out of turn. */
  ghost predicate OutOfTurn(s: System, act: Action) {
    act.PostWork? && Passed(s) && !Silent(OpAt(s.core, s.worker.op), act.res)
  }

  lemma OutNotAbove(s: System, x: Addr)
    requires Sound(s) && OutCnt(s, x) > 0 && Link(s, x) && !Told(s, x)
    ensures forall k | k in s.order :: k <= SerialAt(s, x)
  {
    OrderFacts(s);
    assert LinkedOut(s, x);
  }

  /** The item for the op in slot a comes after everything it must come after. */
  lemma NextInOrder(s: System, a: Addr, first: LogItem)
    requires Sound(s) && LiveCnt(s, a) > 0 && first in s.log && (Told(s, a) ==> !Passed(s))
    ensures first.serial in s.order && 0 <= SerialAt(s, a) < first.serial ==> !Link(s, a)
  {
    if first.serial in s.order {
      if PendCnt(s, a) > 0 {
        PendNotOrdered(s, a);
      } else if Link(s, a) && !Told(s, a) {
        OutNotAbove(s, a);
      } else if Told(s, a) {
        var p :| 0 <= p < |s.log| && s.log[p] == first;
        assert Passes(s, s.log[p]) ==> Passed(s) || !Link(s, a);
      }
    }
  }

  ghost predicate LinksKept(s: System, t: System) {
    |t.hist| >= |s.hist|
    && forall k | 0 <= k < |s.hist| :: t.hist[k].link == s.hist[k].link && t.hist[k].skip == s.hist[k].skip
  }

  /** What is still queued has answered nothing. */
  lemma FrontUnlogged(s: System, it: LogItem)
    requires Sound(s) && s.core.queue != [] && ItemOk(s, it)
    ensures it.serial != SerialAt(s, s.core.queue[0])
  {
    var x := s.core.queue[0];
    assert Cnt(s.core.queue, x) > 0 && Tracked(s, x);
    PendNotOrdered(s, x);
  }

  /** At most the op in slot a answers; at most the front of the queue joins the order. */
  lemma OrderKept(s: System, t: System, a: Addr, it: LogItem)
    requires Sound(s) && Logged(s) && AnswersInOrder(s) && LinksKept(s, t)
    requires t.log == s.log || t.log == s.log + [it]
    requires it.serial >= 0 ==> LiveCnt(s, a) > 0 && it.serial == SerialAt(s, a) && (Told(s, a) ==> !Passed(s))
    requires t.order == s.order
          || (s.core.queue != [] && t.order == s.order + [SerialAt(s, s.core.queue[0])]
              && (t.log == s.log || a == s.core.queue[0]))
    ensures AnswersInOrder(t)
  {
    forall p, q | 0 <= p < q < |t.log| ensures PairInOrder(t, t.log[p], t.log[q]) {
      var first := t.log[p];
      assert first == s.log[p] && ItemOk(s, first);
      if s.core.queue != [] { FrontUnlogged(s, first); }
      if q < |s.log| {
        assert t.log[q] == s.log[q] && PairInOrder(s, s.log[p], s.log[q]) && ItemOk(s, s.log[q]);
      } else if it.serial >= 0 {
        assert Tracked(s, a);
        NextInOrder(s, a, first);
      }
    }
  }

  const NoItem := LogItem(-1, Cqe(0, 0, CqeFlags(false, false, 0)), false)

  lemma AnswerInOrder(s: System, t: System, a: Addr, res: int)
    requires Sound(s) && Logged(s) && AnswersInOrder(s) && LiveCnt(s, a) > 0
    requires Told(s, a) && Passed(s) ==> Silent(OpAt(s.core, a), res)
    requires t.hist == Settled(s, a, Ran(res)) && t.order == s.order && t.log == s.log + Final(s, a, res)
    ensures AnswersInOrder(t)
  {
    if Silent(OpAt(s.core, a), res) {
      OrderKept(s, t, NIL, NoItem);
    } else {
      OrderKept(s, t, a, LogItem(SerialAt(s, a), Reply(OpAt(s.core, a), res), true));
    }
  }

  /** What anybody but the worker holds or lists is not the op whose ticket is up. */
  lemma NotTold(s: System, a: Addr)
    requires Owned(s) && LiveCnt(s, a) > WorkCnt(s.worker, a)
    ensures !Told(s, a)
  {
    assert Places(s, a) <= 1;
  }

  lemma HeldNotTold(s: System)
    requires Owned(s) && (s.pc.Holding? || s.pc.Retry?)
    ensures !Told(s, s.pc.op)
  {
    HeldIsLive(s);
    NotTold(s, s.pc.op);
  }

  lemma LookupInOrder(s: System, realfd: int)
    requires Sound(s) && Logged(s) && AnswersInOrder(s) && CanLookup(s)
    ensures AnswersInOrder(DoLookup(s, realfd))
  {
    HeldIsLive(s);
    HeldNotTold(s);
    if realfd < 0 {
      AnswerInOrder(s, DoLookup(s, realfd), s.pc.op, -EBADF);
    } else {
      OrderKept(s, DoLookup(s, realfd), NIL, NoItem);
    }
  }

  lemma EmissionInOrder(s: System, res: int, flags: CqeFlags)
    requires Sound(s) && Logged(s) && AnswersInOrder(s) && CanEmit(s)
    ensures AnswersInOrder(DoEmission(s, res, flags))
  {
    HeldIsLive(s);
    HeldNotTold(s);
    EmittedInOrder(s, SerialAt(s, s.pc.op), Cqe(OpAt(s.core, s.pc.op).sqe.userData, res, flags), s.pc.op);
  }

  lemma AnsweringNotTold(s: System, act: Action)
    requires Owned(s) && Enabled(s, act) && Answering(act) && !act.PostWork?
    ensures !Told(s, AnswerOf(s, act).op)
  {
    match act
    case Finish(_) => HeldNotTold(s);
    case CompleteNext => assert DoneCnt(s.pc.done, s.pc.done[0].op) > 0; NotTold(s, s.pc.done[0].op);
    case CancelParkedOne(t) => CancelOneLive(s, t); NotTold(s, t);
    case CancelQueuedOne(t) => CancelOneLive(s, t); NotTold(s, t);
    case CancelAtWorkerOne(t) => CancelOneLive(s, t); NotTold(s, t);
  }

  lemma CancelChainedInOrder(s: System)
    requires Sound(s) && Logged(s) && AnswersInOrder(s) && CanCancelChained(s)
    ensures AnswersInOrder(DoCancelChained(s))
  {
    var a := s.core.queue[0];
    assert LiveCnt(s, a) > WorkCnt(s.worker, a) by { assert Cnt(s.core.queue, a) > 0; }
    NotTold(s, a);
    OrderKept(s, DoCancelChained(s), a, LogItem(SerialAt(s, a), Reply(OpAt(s.core, a), -ECANCELED), true));
  }

  lemma EmittedInOrder(s: System, serial: int, cqe: Cqe, a: Addr)
    requires Sound(s) && Logged(s) && AnswersInOrder(s)
    requires serial >= 0 ==> LiveCnt(s, a) > 0 && serial == SerialAt(s, a) && !Told(s, a)
    ensures AnswersInOrder(Emitted(s, serial, cqe))
  {
    OrderKept(s, Emitted(s, serial, cqe), a, LogItem(serial, cqe, false));
  }

  lemma SilentInOrder(s: System, act: Action)
    requires Sound(s) && Logged(s) && AnswersInOrder(s) && Enabled(s, act) && !Posting(act)
    ensures AnswersInOrder(Apply(s, act))
  {
    var t := Apply(s, act);
    assert t.log == s.log && LinksKept(s, t);
    assert t.order == s.order || act.Dequeue?;
    OrderKept(s, t, NIL, NoItem);
  }

  lemma PostingInOrder(s: System, act: Action)
    requires Sound(s) && Logged(s) && AnswersInOrder(s) && Enabled(s, act) && Posting(act) && !OutOfTurn(s, act)
    ensures AnswersInOrder(Apply(s, act))
  {
    if Answering(act) {
      AnswerIs(s, act);
      AnswerLive(s, act);
      if !act.PostWork? { AnsweringNotTold(s, act); }
      AnswerInOrder(s, Apply(s, act), AnswerOf(s, act).op, AnswerOf(s, act).res);
    } else if act.Lookup? {
      LookupInOrder(s, act.realfd);
    } else if act.CancelChained? {
      CancelChainedInOrder(s);
    } else if act.ForeignEmit? {
      EmittedInOrder(s, -1, act.cqe, NIL);
    } else {
      EmissionInOrder(s, act.res, act.flags);
    }
  }

  /** An answer out of turn is one: it comes behind that of a later op. */
  lemma OutOfTurnBreaks(s: System, act: Action)
    requires Owned(s) && Enabled(s, act) && OutOfTurn(s, act)
    ensures !AnswersInOrder(Apply(s, act))
  {
    var t, a := Apply(s, act), s.worker.op;
    assert Tracked(s, a);
    var p :| 0 <= p < |s.log| && Passes(s, s.log[p]);
    assert t.log[p] == s.log[p] && !PairInOrder(t, t.log[p], t.log[|s.log|]);
  }

  /** One step keeps the answers of each chain in its order exactly when it is not the answer of an
      op that was passed. */
  lemma InOrderExact(s: System, act: Action)
    requires Sound(s) && Logged(s) && AnswersInOrder(s) && Enabled(s, act)
    ensures AnswersInOrder(Apply(s, act)) <==> !OutOfTurn(s, act)
  {
    if OutOfTurn(s, act) {
      OutOfTurnBreaks(s, act);
    } else if Posting(act) {
      PostingInOrder(s, act);
    } else {
      SilentInOrder(s, act);
    }
  }

  lemma OtherHistoryKept(s: System, act: Action)
    requires Enabled(s, act) && !Answering(act)
    ensures LinksKept(s, Apply(s, act)) && forall k | k in s.order :: k in Apply(s, act).order
  {
    var t := Apply(s, act);
    if act.TakeSqe? {
      assert t.order == s.order && |t.hist| == |s.hist| + 1;
    } else if act.CancelChained? || act.Dequeue? {
      assert t.order == s.order + [SerialAt(s, s.core.queue[0])] && |t.hist| == |s.hist|;
    } else {
      assert t.order == s.order && |t.hist| == |s.hist|;
    }
  }

  lemma HistoryKept(s: System, act: Action)
    requires Owned(s) && Enabled(s, act)
    ensures LinksKept(s, Apply(s, act)) && forall k | k in s.order :: k in Apply(s, act).order
  {
    if Answering(act) { AnswerIs(s, act); } else { OtherHistoryKept(s, act); }
  }

  /** An order once broken stays so. */
  lemma StaysBroken(s: System, act: Action)
    requires Owned(s) && Enabled(s, act) && !AnswersInOrder(s)
    ensures !AnswersInOrder(Apply(s, act))
  {
    FlowStep(s, act);
    HistoryKept(s, act);
    BrokenFurther(s, Apply(s, act));
  }

  lemma BrokenFurther(s: System, t: System)
    requires !AnswersInOrder(s) && s.log <= t.log && LinksKept(s, t) && forall k | k in s.order :: k in t.order
    ensures !AnswersInOrder(t)
  {
    var p, q :| 0 <= p < q < |s.log| && !PairInOrder(s, s.log[p], s.log[q]);
    assert s.log[p] == t.log[p] && s.log[q] == t.log[q];
    assert !PairInOrder(t, t.log[p], t.log[q]);
  }

  ghost predicate AllInTurn(s: System, acts: seq<Action>)
    requires ValidRun(s, acts)
    decreases |acts|
  {
    acts == [] || (!OutOfTurn(s, acts[0]) && AllInTurn(Apply(s, acts[0]), acts[1..]))
  }

  /** A run answers in the order of the chains if and only if no step of it posts the answer of an
      op that was passed. */
  lemma {:induction false} InOrderIff(s: System, acts: seq<Action>)
    requires Sound(s) && Logged(s) && ValidRun(s, acts)
    ensures AnswersInOrder(Run(s, acts)) <==> AnswersInOrder(s) && AllInTurn(s, acts)
    decreases |acts|
  {
    if acts != [] {
      SoundKept(s, acts[0]);
      LoggedKept(s, acts[0]);
      if AnswersInOrder(s) { InOrderExact(s, acts[0]); } else { StaysBroken(s, acts[0]); }
      InOrderIff(Apply(s, acts[0]), acts[1..]);
    }
  }

  /** While the queue is stalled on the op whose ticket is up nothing passes it. */
  lemma StalledNotPassed(s: System)
    requires Sound(s) && NoEarlySettle(s) && s.worker.WTicketed?
    ensures !Passed(s)
  {
    var a := s.worker.op;
    LiveNotIdle(s, a);
    assert Tracked(s, a);
    OrderFacts(s);
  }

  predicate OutsideWindow(s: System, acts: seq<Action>)
    requires ValidRun(s, acts)
    decreases |acts|
  {
    acts == [] || (!InTicketWindow(s, acts[0]) && OutsideWindow(Apply(s, acts[0]), acts[1..]))
  }

  /** So it does in every run that never settles inside the ticket window. */
  lemma {:induction false} InOrderAlways(s: System, acts: seq<Action>)
    requires Sound(s) && NoEarlySettle(s) && ValidRun(s, acts) && OutsideWindow(s, acts)
    ensures AllInTurn(s, acts)
    decreases |acts|
  {
    if acts != [] {
      SoundKept(s, acts[0]);
      NoEarlyKept(s, acts[0]);
      if s.worker.WTicketed? { StalledNotPassed(s); }
      InOrderAlways(Apply(s, acts[0]), acts[1..]);
    }
  }

  /** What that means for two members of one chain. */
  lemma ChainAnswersInOrder(s: System, i: nat, j: nat, p: nat, q: nat)
    requires Ordered(s) && InRange(s) && AnswersInOrder(s) && SameChain(s, i, j) && i < j
    requires p < |s.log| && q < |s.log| && s.log[p].serial == s.order[j] && s.log[q].serial == s.order[i]
    ensures q < p
  {
    OrderFacts(s);
    assert s.order[i] < s.order[j] && s.hist[s.order[i]].link;
    assert p < q ==> PairInOrder(s, s.log[p], s.log[q]);
  }
}
