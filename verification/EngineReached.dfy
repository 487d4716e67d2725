/** Runs from setup that come to the places where the code keeps less than its comments say: none
    of them is a state no caller can bring about. */
module EngineReached {
  import opened Lists
  import opened EngineCore
  import opened EngineSystem
  import opened EngineOwnership
  import opened EngineTickets
  import opened EngineChains
  import opened EngineLog
  import opened EngineRefines
  import opened EngineFindings
  import opened EngineWindow

  // ---- a first batch -----------------------------------------------------

  /** The submitter has taken in these entries, and nothing else has happened. */
  function Batch(n: nat, q: seq<Sqe>): System
    requires |q| <= n
  {
    System(
      Core(seq(n, i requires 0 <= i < n => if i < |q| then Zeroed().(sqe := q[i]) else Zeroed()),
           seq(n - |q|, i => |q| + i), [], [], [], [], Holds, NIL, NIL, Holds, [], n, 0, [], []),
      Intake(Slots(|q|)), WIdle, seq(n, i => if 0 <= i < |q| then i else -1),
      seq(|q|, i requires 0 <= i < |q| => Entry(q[i].userData, q[i].link, q[i].skip, InFlight(i))), [], [])
  }

  lemma BatchNone(n: nat)
    ensures ValidRun(Setup(n), [EnterCall]) && Run(Setup(n), [EnterCall]) == Batch(n, [])
  {
    RunOne(Setup(n), EnterCall);
    var s, t := Apply(Setup(n), EnterCall), Batch(n, []);
    assert s.core.ops == t.core.ops && s.core.free == t.core.free && s.serialOf == t.serialOf;
    assert s.pc == t.pc && s.hist == t.hist;
  }

  lemma BatchOneMore(n: nat, q: seq<Sqe>, sqe: Sqe)
    requires |q| < n
    ensures Enabled(Batch(n, q), TakeSqe(sqe)) && Apply(Batch(n, q), TakeSqe(sqe)) == Batch(n, q + [sqe])
  {
    var s, t := Apply(Batch(n, q), TakeSqe(sqe)), Batch(n, q + [sqe]);
    assert Batch(n, q).core.free[0] == |q|;
    assert s.core.ops == t.core.ops && s.core.free == t.core.free;
    assert s.serialOf == t.serialOf && s.hist == t.hist && s.pc == t.pc;
  }

  lemma {:induction false} BatchReached(n: nat, q: seq<Sqe>) returns (acts: seq<Action>)
    requires |q| <= n
    ensures ValidRun(Setup(n), acts) && Run(Setup(n), acts) == Batch(n, q)
    decreases |q|
  {
    if q == [] {
      BatchNone(n);
      return [EnterCall];
    }
    var k := |q| - 1;
    acts := BatchReached(n, q[..k]);
    BatchOneMore(n, q[..k], q[k]);
    assert q == q[..k] + [q[k]];
    RunSnoc(Setup(n), acts, TakeSqe(q[k]));
    acts := acts + [TakeSqe(q[k])];
  }

  /** The first of them is off the queue and in the submitter's hand. */
  function FirstHeld(n: nat, q: seq<Sqe>): System
    requires 0 < |q| <= n
  {
    var s := Batch(n, q);
    s.(core := s.core.(queue := Slots(|q|)[1..]), pc := Holding(0), order := [0])
  }

  lemma FirstHeldReached(n: nat, q: seq<Sqe>) returns (acts: seq<Action>)
    requires 0 < |q| <= n
    ensures ValidRun(Setup(n), acts) && Run(Setup(n), acts) == FirstHeld(n, q)
    ensures Sound(FirstHeld(n, q)) && Logged(FirstHeld(n, q))
  {
    acts := BatchReached(n, q);
    var s := Batch(n, q);
    assert Slots(|q|) != [] && [] + Slots(|q|) == Slots(|q|);
    RunTwo(s, EngineSystem.Submit, Dequeue);
    assert Run(s, [EngineSystem.Submit, Dequeue]) == FirstHeld(n, q);
    RunConcat(Setup(n), acts, [EngineSystem.Submit, Dequeue]);
    acts := acts + [EngineSystem.Submit, Dequeue];
    SetupSound(n);
    SetupLogged(n);
    LoggedAlways(Setup(n), acts);
  }

  lemma FirstHeldChained(n: nat, q: seq<Sqe>)
    requires 0 < |q| <= n
    ensures Chained(FirstHeld(n, q))
  {
  }

  // ---- the ticket window -------------------------------------------------

  /** The first op is linked and waits for the worker. */
  function Handed(n: nat, q: seq<Sqe>): System
    requires 0 < |q| <= n
  {
    var s := FirstHeld(n, q);
    s.(core := s.core.(ops := s.core.ops[0 := s.core.ops[0].(stallsQueue := true)], wq := [0], blocking := 0),
       pc := Running)
  }

  /** The worker has raised the ticket for its answer. */
  function Ticketing(n: nat, q: seq<Sqe>, answer: int): System
    requires 0 < |q| <= n
  {
    var s := Handed(n, q);
    s.(core := s.core.(wq := [], blockedDone := 0, blockedFailed := if answer < 0 then FailureOf(q[0]) else Holds),
       pc := Between, worker := WTicketed(0, answer))
  }

  predicate GoesToWorker(q: seq<Sqe>) {
    q != [] && q[0].link && MayPend(q[0]) && !NeedsLookup(Zeroed().(sqe := q[0]))
  }

  lemma HandedRun(n: nat, q: seq<Sqe>)
    requires 0 < |q| <= n && GoesToWorker(q)
    ensures var s := FirstHeld(n, q); ValidRun(s, [HandOff, NoteStall]) && Run(s, [HandOff, NoteStall]) == Handed(n, q)
  {
    RunTwo(FirstHeld(n, q), HandOff, NoteStall);
  }

  lemma TicketingRun(n: nat, q: seq<Sqe>, answer: int)
    requires 0 < |q| <= n && GoesToWorker(q)
    ensures var s, acts := Handed(n, q), [QueueRests, TakeWork, RaiseTicket(answer)];
      ValidRun(s, acts) && Run(s, acts) == Ticketing(n, q, answer)
  {
    var s := Handed(n, q);
    assert s.core.wq[1..] == [];
    RunThree(s, QueueRests, TakeWork, RaiseTicket(answer));
  }

  lemma TicketingReached(n: nat, q: seq<Sqe>, answer: int) returns (acts: seq<Action>)
    requires 0 < |q| <= n && GoesToWorker(q)
    ensures ValidRun(Setup(n), acts) && Run(Setup(n), acts) == Ticketing(n, q, answer)
    ensures Sound(Ticketing(n, q, answer))
  {
    acts := FirstHeldReached(n, q);
    HandedRun(n, q);
    RunConcat(Setup(n), acts, [HandOff, NoteStall]);
    acts := acts + [HandOff, NoteStall];
    TicketingRun(n, q, answer);
    RunConcat(Setup(n), acts, [QueueRests, TakeWork, RaiseTicket(answer)]);
    acts := acts + [QueueRests, TakeWork, RaiseTicket(answer)];
    SetupSound(n);
    SoundAlways(Setup(n), acts);
  }

  /** Any linked op that goes to the worker, any op submitted behind it, and whatever the two answer
      but a silent success: they can answer out of order, within one chain. */
  lemma ReorderReached(n: nat, q: seq<Sqe>, answer: int, realfd: int, res: int) returns (acts: seq<Action>)
    requires 2 <= |q| <= n && GoesToWorker(q) && !q[0].skip
    requires answer < 0 || (NeedsLookup(Zeroed().(sqe := q[1])) && realfd < 0) || !(res >= 0 && q[1].skip)
    ensures ValidRun(Setup(n), acts) && !AnswersInOrder(Run(Setup(n), acts))
  {
    acts := TicketingReached(n, q, answer);
    var s := Ticketing(n, q, answer);
    DrainFacts(SettleStanding(s.core));
    assert Settle(s.core).queue[0] == 1;
    var more := EarlySettleReorders(s, realfd, res);
    RunConcat(Setup(n), acts, more);
    acts := acts + more;
  }

  // ---- the two irregular steps -------------------------------------------

  /** Any linked message that fails, and any op behind it: the chain law is broken, and the next
      member of the chain runs. */
  lemma MsgFailureReached(n: nat, q: seq<Sqe>, res: int) returns (acts: seq<Action>)
    requires 2 <= |q| <= n && q[0].opcode == MsgRing && q[0].link && !q[0].fixedFile && res < 0
    ensures ValidRun(Setup(n), acts) && !Chained(Run(Setup(n), acts)) && Enabled(Run(Setup(n), acts), Dequeue)
  {
    acts := FirstHeldReached(n, q);
    FirstHeldChained(n, q);
    MsgFailureRunsNext(FirstHeld(n, q), res);
    RunSnoc(Setup(n), acts, Finish(res));
    acts := acts + [Finish(res)];
  }

  /** Any unlinked cancel, the linked op it names, and any op behind that: the op behind is cancelled
      although nothing in its own chain has failed. */
  lemma CancelPoisonReached(n: nat, q: seq<Sqe>) returns (acts: seq<Action>)
    requires 3 <= |q| <= n && IsCancel(q[0]) && !q[0].link && !q[0].fixedFile
    requires CancelNames(q[0], q[1]) && q[1].link
    ensures ValidRun(Setup(n), acts) && !Chained(Run(Setup(n), acts)) && Enabled(Run(Setup(n), acts), Finish(0))
    ensures Enabled(Apply(Run(Setup(n), acts), Finish(0)), CancelChained)
  {
    acts := FirstHeldReached(n, q);
    FirstHeldChained(n, q);
    var s := FirstHeld(n, q);
    assert s.core.queue[0] == 1;
    CancelPoisonsNext(s, 1);
    RunSnoc(Setup(n), acts, CancelQueuedOne(1));
    acts := acts + [CancelQueuedOne(1)];
  }

  // ---- a completion that overtakes ---------------------------------------

  /** A ring of one entry got x and y: x stands in the CQ, y waits in the only slot. */
  function Filled(x: Cqe, y: Cqe): System {
    var s := Setup(1);
    s.(core := s.core.(unread := [x], free := [], backlog := [0], ops := [Carrier(y).(res := y.res)], overflow := 1),
       log := [LogItem(-1, x, false), LogItem(-1, y, false)])
  }

  lemma FilledRun(x: Cqe, y: Cqe)
    ensures var s, acts := Setup(1), [ForeignEmit(x), ForeignEmit(y)];
      ValidRun(s, acts) && Run(s, acts) == Filled(x, y)
  {
    var s := Setup(1);
    RunTwo(s, ForeignEmit(x), ForeignEmit(y));
    var t := Apply(s, ForeignEmit(x));
    assert s.core.free == [0] && t == s.(core := s.core.(unread := [x]), log := [LogItem(-1, x, false)]);
    var d := SetOp(Alloc(t.core), 0, Carrier(y));
    assert d == t.core.(free := [], ops := [Carrier(y)]);
    assert Emit(t.core, y) == Filled(x, y).core;
  }

  /** And the caller will read x between the drain loop and the test for room. */
  function Interrupted(x: Cqe, y: Cqe): System {
    var s := Filled(x, y);
    s.(core := s.core.(moves := [0, 1]))
  }

  lemma InterruptedLate(x: Cqe, y: Cqe)
    ensures Late(Interrupted(x, y).core) == 1 && Flow(Interrupted(x, y).core) == [x, y] && Fifo(Interrupted(x, y))
    ensures Room(Tested(Interrupted(x, y).core))
  {
    var c := Interrupted(x, y).core;
    assert [0, 1][1..] == [1] && [x][0..] == [x] && [x][1..] == [] && [] + [x][..0] == [];
    assert Drain(c) == c.(moves := [1]);
    assert Tested(c).unread == [];
    assert CqesOf(Interrupted(x, y).log) == [x, y];
  }

  lemma InterruptedOvertakes(x: Cqe, y: Cqe, z: Cqe)
    requires y != z
    ensures Overtakes(Interrupted(x, y), ForeignEmit(z))
  {
    InterruptedLate(x, y);
    var s := Interrupted(x, y);
    var t := Apply(s, ForeignEmit(z));
    assert t.log == s.log + [LogItem(-1, z, false)];
    assert Flow(s.core)[1] == y && t.log[|s.log|].cqe == z;
  }

  /** Three messages to a ring of one entry, the caller reading the first one while the third is
      posted: the third comes before the second. */
  lemma OvertakingReached(x: Cqe, y: Cqe, z: Cqe) returns (acts: seq<Action>)
    requires y != z
    ensures ValidRun(Setup(1), acts) && Conserved(Run(Setup(1), acts)) && !Fifo(Run(Setup(1), acts))
  {
    acts := InterruptedReached(x, y);
    InterruptedLate(x, y);
    InterruptedOvertakes(x, y, z);
    FifoExact(Interrupted(x, y), ForeignEmit(z));
    RunSnoc(Setup(1), acts, ForeignEmit(z));
    acts := acts + [ForeignEmit(z)];
    SetupSound(1);
    FlowAlways(Setup(1), acts);
  }

  lemma InterruptedReached(x: Cqe, y: Cqe) returns (acts: seq<Action>)
    ensures ValidRun(Setup(1), acts) && Run(Setup(1), acts) == Interrupted(x, y) && Owned(Interrupted(x, y))
  {
    FilledRun(x, y);
    acts := [ForeignEmit(x), ForeignEmit(y)];
    RunSnoc(Setup(1), acts, Meanwhile([0, 1]));
    acts := acts + [Meanwhile([0, 1])];
    SetupSound(1);
    SoundAlways(Setup(1), acts);
  }
}
