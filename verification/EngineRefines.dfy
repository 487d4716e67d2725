/** Every pass the ring makes is a run of the interleaved machine in which nobody else moves,
    so whatever holds over all runs of the machine holds of the ring's own state. */
module EngineRefines {
  import opened Lists
  import opened EngineCore
  import opened EngineSystem
  import opened EngineOwnership
  import opened EngineTickets
  import opened EngineThreads
  import opened EngineCancel
  import opened EnginePasses
  import IntrusiveList

  // ---- runs one after the other ------------------------------------------

  lemma RunStep(s: System, act: Action, rest: seq<Action>)
    requires Enabled(s, act) && ValidRun(Apply(s, act), rest)
    ensures ValidRun(s, [act] + rest) && Run(s, [act] + rest) == Run(Apply(s, act), rest)
  {
    assert ([act] + rest)[1..] == rest;
  }

  lemma FrontOfConcat(p: seq<Action>, q: seq<Action>)
    requires p != []
    ensures p + q != [] && (p + q)[0] == p[0] && (p + q)[1..] == p[1..] + q
  {
  }

  lemma {:induction false} RunConcat(s: System, p: seq<Action>, q: seq<Action>)
    requires ValidRun(s, p) && ValidRun(Run(s, p), q)
    ensures ValidRun(s, p + q) && Run(s, p + q) == Run(Run(s, p), q)
    decreases |p|
  {
    if p == [] {
      assert p + q == q;
    } else {
      FrontOfConcat(p, q);
      RunConcat(Apply(s, p[0]), p[1..], q);
    }
  }

  lemma RunOne(s: System, act: Action)
    requires Enabled(s, act)
    ensures ValidRun(s, [act]) && Run(s, [act]) == Apply(s, act)
  {
    assert [act][1..] == [];
  }

  lemma RunThree(s: System, a: Action, b: Action, c: Action)
    requires Enabled(s, a) && Enabled(Apply(s, a), b) && Enabled(Apply(Apply(s, a), b), c)
    ensures ValidRun(s, [a, b, c]) && Run(s, [a, b, c]) == Apply(Apply(Apply(s, a), b), c)
  {
    var t := Apply(s, a);
    RunOne(Apply(t, b), c);
    RunStep(t, b, [c]);
    RunStep(s, a, [b] + [c]);
    assert [a] + ([b] + [c]) == [a, b, c];
  }

  lemma RunTwo(s: System, a: Action, b: Action)
    requires Enabled(s, a) && Enabled(Apply(s, a), b)
    ensures ValidRun(s, [a, b]) && Run(s, [a, b]) == Apply(Apply(s, a), b)
  {
    RunOne(Apply(s, a), b);
    RunStep(s, a, [b]);
    assert [a] + [b] == [a, b];
  }

  lemma RunSnoc(s: System, acts: seq<Action>, act: Action)
    requires ValidRun(s, acts) && Enabled(Run(s, acts), act)
    ensures ValidRun(s, acts + [act]) && Run(s, acts + [act]) == Apply(Run(s, acts), act)
  {
    RunOne(Run(s, acts), act);
    RunConcat(s, acts, [act]);
  }

  /** Only the submitter moves, and it takes from the world what env holds for the op it tries: the
      descriptor looked up, the emissions, the verdict and the result. */
  ghost predicate Heeds(s: System, act: Action, env: Addr -> Attempt)
    requires Enabled(s, act)
  {
    match act
    case AdvanceHead(_) => false
    case Meanwhile(_) => false
    case TakeWork => false
    case RaiseTicket(_) => false
    case PostWork(_) => false
    case Lookup(realfd) => realfd == env(s.pc.op).lookup
    case ForeignEmit(cqe) => s.pc.Holding? && env(s.pc.op).toSelf && cqe == env(s.pc.op).msg
    case Emission(res, flags) =>
      exists k :: 0 <= k < |env(s.pc.op).emits| && flags.more
             && Shot(res, flags.buffer, flags.bid) == env(s.pc.op).emits[k]
    case Finish(res) => Finishes(OpAt(s.core, s.pc.op).sqe.opcode, env(s.pc.op).verdict, res)
    case ParkIt => env(s.pc.op).verdict == WouldBlock(true)
    case HandOff => env(s.pc.op).verdict == FileOp
    case RetryAnswer(res) => RetryAnswers(env(s.pc.op).verdict, res)
    case Repark => env(s.pc.op).verdict == WouldBlock(true)
    case _ => true
  }

  /** What an executed op answers: what the attempt finished with, or that nobody could be asked to
      wait for it. A message that went out answers 0, and a cancel what it found. */
  predicate Finishes(opcode: Opcode, v: Verdict, res: int) {
    match opcode
    case MsgRing => res == if v.Finished? then v.res else 0
    case AsyncCancel => true
    case PollRemove => true
    case _ => v == Finished(res) || (v == WouldBlock(false) && res == -EBUSY)
  }

  /** What a retried op answers. */
  predicate RetryAnswers(v: Verdict, res: int) {
    v == Finished(res) || (v == WouldBlock(false) && res == -EBUSY) || (v == FileOp && res == -EOPNOTSUPP)
  }

  ghost predicate HeedsAll(s: System, acts: seq<Action>, env: Addr -> Attempt)
    requires ValidRun(s, acts)
    decreases |acts|
  {
    acts == [] || (Heeds(s, acts[0], env) && HeedsAll(Apply(s, acts[0]), acts[1..], env))
  }

  lemma {:induction false} HeedsConcat(s: System, p: seq<Action>, q: seq<Action>, env: Addr -> Attempt)
    requires ValidRun(s, p) && HeedsAll(s, p, env) && ValidRun(Run(s, p), q) && HeedsAll(Run(s, p), q, env)
    requires ValidRun(s, p + q)
    ensures HeedsAll(s, p + q, env)
    decreases |p|
  {
    if p == [] {
      assert p + q == q;
    } else {
      FrontOfConcat(p, q);
      HeedsConcat(Apply(s, p[0]), p[1..], q, env);
    }
  }

  /** The run leads from s to a state with this core and this pc, and only the submitter moves, on
      the answers env gives it. */
  ghost predicate Leads(s: System, acts: seq<Action>, c: Core, pc: Pc, env: Addr -> Attempt) {
    ValidRun(s, acts) && Run(s, acts).core == c && Run(s, acts).pc == pc && HeedsAll(s, acts, env)
  }

  lemma LeadsOne(s: System, act: Action, env: Addr -> Attempt)
    requires Enabled(s, act) && Heeds(s, act, env)
    ensures ValidRun(s, [act]) && Run(s, [act]) == Apply(s, act) && HeedsAll(s, [act], env)
  {
    RunOne(s, act);
    assert [act][1..] == [];
  }

  lemma LeadsFrom(s: System, act: Action, rest: seq<Action>, c: Core, pc: Pc, env: Addr -> Attempt)
    requires Enabled(s, act) && Heeds(s, act, env) && Leads(Apply(s, act), rest, c, pc, env)
    ensures Leads(s, [act] + rest, c, pc, env)
  {
    RunStep(s, act, rest);
    assert ([act] + rest)[1..] == rest;
  }

  lemma LeadsOn(s: System, p: seq<Action>, q: seq<Action>, c: Core, pc: Pc, env: Addr -> Attempt)
    requires ValidRun(s, p) && HeedsAll(s, p, env) && Leads(Run(s, p), q, c, pc, env)
    ensures Leads(s, p + q, c, pc, env)
  {
    RunConcat(s, p, q);
    HeedsConcat(s, p, q, env);
  }

  lemma SoundApart(s: System)
    requires Sound(s)
    ensures Apart(s.core)
  {
    forall x ensures Listed(s.core, x) <= if 0 <= x < |s.core.ops| then 1 else 0 {
      assert Places(s, x) == if 0 <= x < |s.core.ops| then 1 else 0;
    }
  }

  // ---- emissions ---------------------------------------------------------

  lemma ShotStep(s: System, shot: Shot)
    requires Sound(s) && CanEmit(s)
    ensures var act := Emission(shot.res, CqeFlags(true, shot.buffer, shot.bid));
      && Enabled(s, act) && Sound(Apply(s, act)) && CanEmit(Apply(s, act))
      && Apply(s, act).core == Emit(s.core, ShotCqe(s.core, s.pc.op, shot))
      && Apply(s, act).pc == s.pc && Apply(s, act).worker == s.worker
      && OpAt(Apply(s, act).core, s.pc.op) == OpAt(s.core, s.pc.op)
  {
    var act := Emission(shot.res, CqeFlags(true, shot.buffer, shot.bid));
    SoundKept(s, act);
    HandNotIdle(s);
    EmitKeeps(s.core, ShotCqe(s.core, s.pc.op, shot), s.pc.op);
  }

  lemma HandNotIdle(s: System)
    requires Sound(s) && (s.pc.Holding? || s.pc.Retry?)
    ensures Idle(s.core, s.pc.op) == 0
  {
    assert HandCnt(s.pc, s.pc.op) > 0;
    assert Places(s, s.pc.op) <= 1;
  }

  lemma {:induction false} EmitRun(s: System, shots: seq<Shot>, env: Addr -> Attempt) returns (acts: seq<Action>)
    requires Sound(s) && CanEmit(s) && forall k | 0 <= k < |shots| :: shots[k] in env(s.pc.op).emits
    ensures ValidRun(s, acts) && HeedsAll(s, acts, env) && Sound(Run(s, acts)) && CanEmit(Run(s, acts))
    ensures Run(s, acts).core == EmitAll(s.core, s.pc.op, shots)
    ensures Run(s, acts).pc == s.pc && Run(s, acts).worker == s.worker
    ensures OpAt(Run(s, acts).core, s.pc.op) == OpAt(s.core, s.pc.op)
    decreases |shots|
  {
    if shots == [] {
      acts := [];
    } else {
      var act := Emission(shots[0].res, CqeFlags(true, shots[0].buffer, shots[0].bid));
      ShotStep(s, shots[0]);
      assert shots[0] in env(s.pc.op).emits;
      assert Heeds(s, act, env);
      var rest := EmitRun(Apply(s, act), shots[1..], env);
      LeadsFrom(s, act, rest, Run(Apply(s, act), rest).core, Run(Apply(s, act), rest).pc, env);
      RunStep(s, act, rest);
      acts := [act] + rest;
    }
  }

  // ---- cancel ------------------------------------------------------------

  function CancelAct(w: Where, t: Addr): Action {
    match w
    case InWaiting => CancelParkedOne(t)
    case InQueue => CancelQueuedOne(t)
    case AtWorker => CancelAtWorkerOne(t)
  }

  predicate CancelHeld(s: System) {
    Executing(s) && IsCancel(OpAt(s.core, s.pc.op).sqe)
  }

  lemma WithoutAt(q: seq<Addr>, i: nat)
    requires IntrusiveList.Distinct(q) && i < |q|
    ensures Without(q, q[i]) == IntrusiveList.Cut(q, i)
  {
    assert IndexOf(q, q[i]) == i;
  }

  lemma ApartDistinct(c: Core, w: Where)
    requires Apart(c)
    ensures IntrusiveList.Distinct(ListOf(c, w))
  {
    forall x ensures Cnt(ListOf(c, w), x) <= if 0 <= x < |c.ops| then 1 else 0 {
      assert Listed(c, x) <= if 0 <= x < |c.ops| then 1 else 0;
    }
    CntDistinctList(ListOf(c, w), |c.ops|);
  }

  lemma CancelStep(s: System, w: Where, i: nat)
    requires Sound(s) && CancelHeld(s) && i < |ListOf(s.core, w)|
    requires Matches(s.core, OpAt(s.core, s.pc.op).sqe, ListOf(s.core, w)[i])
    ensures var act := CancelAct(w, ListOf(s.core, w)[i]);
      && Enabled(s, act) && Sound(Apply(s, act)) && CancelHeld(Apply(s, act))
      && Apply(s, act).core == CancelAt(s.core, w, i) && Apply(s, act).pc == s.pc
  {
    var t := ListOf(s.core, w)[i];
    var act := CancelAct(w, t);
    SoundApart(s);
    ApartDistinct(s.core, w);
    if w == InWaiting { UnparkAt(s.core, i); } else { WithoutAt(ListOf(s.core, w), i); }
    assert Apply(s, act).core == CancelAt(s.core, w, i);
    SoundKept(s, act);
    CancelAtHeld(s, w, i);
  }

  lemma CancelAtHeld(s: System, w: Where, i: nat)
    requires Sound(s) && CancelHeld(s) && i < |ListOf(s.core, w)|
    ensures OpAt(CancelAt(s.core, w, i), s.pc.op).sqe == OpAt(s.core, s.pc.op).sqe
  {
    CancelAtFrame(s.core, w, i);
  }

  lemma CancelHeldOn(s: System, t: System)
    requires CancelHeld(s) && t.pc == s.pc && SameSqes(s.core, t.core)
    ensures CancelHeld(t) && OpAt(t.core, t.pc.op).sqe == OpAt(s.core, s.pc.op).sqe
  {
  }

  lemma {:induction false} ScanRun(s: System, cancel: Sqe, all: bool, w: Where, i: nat, env: Addr -> Attempt)
    returns (acts: seq<Action>)
    requires Sound(s) && CancelHeld(s) && cancel == OpAt(s.core, s.pc.op).sqe
    ensures Leads(s, acts, ScanFrom(s.core, cancel, all, w, i).core, s.pc, env)
    decreases |ListOf(s.core, w)| - i
  {
    if i >= |ListOf(s.core, w)| {
      acts := [];
    } else if !Matches(s.core, cancel, ListOf(s.core, w)[i]) {
      acts := ScanRun(s, cancel, all, w, i + 1, env);
    } else {
      acts := HitRun(s, cancel, all, w, i, env);
    }
  }

  lemma {:induction false} HitRun(s: System, cancel: Sqe, all: bool, w: Where, i: nat, env: Addr -> Attempt)
    returns (acts: seq<Action>)
    requires Sound(s) && CancelHeld(s) && cancel == OpAt(s.core, s.pc.op).sqe
    requires i < |ListOf(s.core, w)| && Matches(s.core, cancel, ListOf(s.core, w)[i])
    ensures Leads(s, acts, ScanFrom(s.core, cancel, all, w, i).core, s.pc, env)
    decreases |ListOf(s.core, w)| - i, 0
  {
    var act := CancelAct(w, ListOf(s.core, w)[i]);
    CancelStep(s, w, i);
    CancelAtFrame(s.core, w, i);
    ScanHit(s.core, cancel, all, w, i);
    var t := Apply(s, act);
    acts := [];
    if all {
      CancelAtHeld(s, w, i);
      acts := ScanRun(t, cancel, all, w, i, env);
    }
    LeadsFrom(s, act, acts, ScanFrom(s.core, cancel, all, w, i).core, s.pc, env);
    acts := [act] + acts;
  }

  lemma ScanOn(s: System, acts: seq<Action>, cancel: Sqe, all: bool, w: Where, env: Addr -> Attempt)
    returns (more: seq<Action>)
    requires Sound(s) && CancelHeld(s) && cancel == OpAt(s.core, s.pc.op).sqe
    requires ValidRun(s, acts) && HeedsAll(s, acts, env)
    requires Run(s, acts).pc == s.pc && SameSqes(s.core, Run(s, acts).core)
    ensures Leads(s, more, ScanFrom(Run(s, acts).core, cancel, all, w, 0).core, s.pc, env)
  {
    var t := Run(s, acts);
    SoundAlways(s, acts);
    CancelHeldOn(s, t);
    more := ScanRun(t, cancel, all, w, 0, env);
    LeadsOn(s, acts, more, ScanFrom(t.core, cancel, all, w, 0).core, s.pc, env);
    more := acts + more;
  }

  lemma CancelRun(s: System, env: Addr -> Attempt) returns (acts: seq<Action>)
    requires Sound(s) && CancelHeld(s)
    ensures Leads(s, acts, CancelMatching(s.core, OpAt(s.core, s.pc.op).sqe).core, s.pc, env)
  {
    var cancel := OpAt(s.core, s.pc.op).sqe;
    var all := IsAll(cancel);
    acts := ScanRun(s, cancel, all, InWaiting, 0, env);
    var p := ScanFrom(s.core, cancel, all, InWaiting, 0);
    if p.count > 0 && !all { return; }
    ScanFrame(s.core, cancel, all, InWaiting, 0);
    acts := ScanOn(s, acts, cancel, all, InQueue, env);
    var q := ScanFrom(p.core, cancel, all, InQueue, 0);
    if q.count > 0 && !all { return; }
    ScanFrame(p.core, cancel, all, InQueue, 0);
    acts := ScanOn(s, acts, cancel, all, AtWorker, env);
  }

  // ---- the op in hand ----------------------------------------------------

  /** Trying it: the run stops when the op is gone or about to be answered. */
  lemma FinishRun(s: System, res: int, env: Addr -> Attempt) returns (acts: seq<Action>)
    requires Sound(s) && Executing(s) && OpAt(s.core, s.pc.op).sqe.opcode != MsgRing
    requires Finishes(OpAt(s.core, s.pc.op).sqe.opcode, env(s.pc.op).verdict, res)
    ensures Leads(s, acts, Post(Standing(s.core, s.pc.op, res), s.pc.op, res), Running, env)
  {
    acts := [Finish(res)];
    LeadsOne(s, Finish(res), env);
  }

  lemma MsgRun(s: System, t: Attempt, env: Addr -> Attempt) returns (acts: seq<Action>)
    requires Sound(s) && Executing(s) && OpAt(s.core, s.pc.op).sqe.opcode == MsgRing && t == env(s.pc.op)
    ensures Leads(s, acts, Post(Message(s.core, t), s.pc.op, MsgRes(t)), Running, env)
  {
    var u := s;
    var pre: seq<Action> := [];
    if t.toSelf {
      pre := [ForeignEmit(t.msg)];
      LeadsOne(s, ForeignEmit(t.msg), env);
      u := Apply(s, ForeignEmit(t.msg));
      HandNotIdle(s);
      EmitKeeps(s.core, t.msg, s.pc.op);
    }
    LeadsOne(u, Finish(MsgRes(t)), env);
    LeadsOn(s, pre, [Finish(MsgRes(t))], Post(Message(s.core, t), s.pc.op, MsgRes(t)), Running, env);
    acts := pre + [Finish(MsgRes(t))];
  }

  lemma FileRun(s: System, env: Addr -> Attempt) returns (acts: seq<Action>)
    requires Sound(s) && Pendable(s) && env(s.pc.op).verdict == FileOp
    ensures Leads(s, acts, Stall(HandToWorker(s.core, s.pc.op), s.pc.op, OpAt(s.core, s.pc.op).sqe.link), Running, env)
  {
    var u := Apply(s, HandOff);
    LeadsOne(u, NoteStall, env);
    LeadsFrom(s, HandOff, [NoteStall], Apply(u, NoteStall).core, Running, env);
    acts := [HandOff] + [NoteStall];
  }

  function Concluded(e: Executed, a: Addr, linked: bool): Core {
    if e.done then Post(Standing(e.core, a, e.res), a, e.res) else Stall(e.core, a, linked)
  }

  lemma TryRun(s: System, t: Attempt, env: Addr -> Attempt) returns (acts: seq<Action>)
    requires Sound(s) && Pendable(s) && t == env(s.pc.op)
    ensures Leads(s, acts, Concluded(TryOp(s.core, s.pc.op, t), s.pc.op, OpAt(s.core, s.pc.op).sqe.link), Running, env)
  {
    if t.verdict.FileOp? {
      acts := FileRun(s, env);
      return;
    }
    acts := EmitRun(s, t.emits, env);
    var u := Run(s, acts);
    var last := if t.verdict.Finished? then Finish(t.verdict.res)
                  else if t.verdict.armed then ParkIt else Finish(-EBUSY);
    LeadsOne(u, last, env);
    LeadsOn(s, acts, [last], Concluded(TryOp(s.core, s.pc.op, t), s.pc.op, OpAt(s.core, s.pc.op).sqe.link), Running,
            env);
    acts := acts + [last];
  }

  lemma ExecuteRun(s: System, t: Attempt, env: Addr -> Attempt) returns (acts: seq<Action>)
    requires Sound(s) && Executing(s) && OpAt(s.core, s.pc.op).sqe.opcode != MsgRing && t == env(s.pc.op)
    ensures Leads(s, acts, Concluded(ExecuteOp(s.core, s.pc.op, t), s.pc.op, OpAt(s.core, s.pc.op).sqe.link), Running,
                  env)
  {
    if !IsCancel(OpAt(s.core, s.pc.op).sqe) {
      acts := TryRun(s, t, env);
      return;
    }
    acts := CancelRun(s, env);
    var u := Run(s, acts);
    SoundAlways(s, acts);
    CancelFrame(s.core, OpAt(s.core, s.pc.op).sqe);
    CancelHeldOn(s, u);
    var e := ExecuteOp(s.core, s.pc.op, t);
    var last := FinishRun(u, e.res, env);
    LeadsOn(s, acts, last, Post(Standing(e.core, s.pc.op, e.res), s.pc.op, e.res), Running, env);
    acts := acts + last;
  }

  lemma TranslatedRun(s: System, t: Attempt, env: Addr -> Attempt) returns (acts: seq<Action>)
    requires Sound(s) && Executing(s) && t == env(s.pc.op)
    ensures Leads(s, acts, RunHeld(s.core, s.pc.op, t), Running, env)
  {
    if OpAt(s.core, s.pc.op).sqe.opcode == MsgRing {
      acts := MsgRun(s, t, env);
    } else {
      acts := ExecuteRun(s, t, env);
    }
  }

  lemma HeldRun(s: System, t: Attempt, env: Addr -> Attempt) returns (acts: seq<Action>)
    requires Sound(s) && s.pc.Holding? && t == env(s.pc.op)
    ensures Leads(s, acts, RunHeld(s.core, s.pc.op, t), Running, env)
  {
    if !NeedsLookup(OpAt(s.core, s.pc.op)) {
      acts := TranslatedRun(s, t, env);
      return;
    }
    var u := Apply(s, Lookup(t.lookup));
    SoundKept(s, Lookup(t.lookup));
    HandNotIdle(s);
    assert Places(s, s.pc.op) == 1 && 0 <= s.pc.op < |s.core.ops|;
    acts := [];
    if t.lookup >= 0 { acts := TranslatedRun(u, t, env); }
    LeadsFrom(s, Lookup(t.lookup), acts, RunHeld(s.core, s.pc.op, t), Running, env);
    acts := [Lookup(t.lookup)] + acts;
  }

  // ---- passes ------------------------------------------------------------

  /** The queue pass of the ring is a run of the machine. */
  lemma {:induction false} QueueRun(s: System, env: Addr -> Attempt) returns (acts: seq<Action>)
    requires Sound(s) && s.pc == Running
    ensures Leads(s, acts, RunQueue(s.core, env), Between, env)
    decreases |s.core.queue|
  {
    if !QueueRuns(s.core) {
      LeadsOne(s, QueueRests, env);
      acts := [QueueRests];
      return;
    }
    var first := FrontRun(s, env);
    SoundAlways(s, first);
    acts := QueueRun(Run(s, first), env);
    LeadsOn(s, first, acts, RunQueue(s.core, env), Between, env);
    acts := first + acts;
  }

  /** What becomes of the front of the queue. */
  function AfterFront(c: Core, env: Addr -> Attempt): Core
    requires c.queue != []
  {
    if c.chainFailed != Holds then CancelFront(c) else RunHeld(Pop(c), c.queue[0], env(c.queue[0]))
  }

  lemma FrontRun(s: System, env: Addr -> Attempt) returns (first: seq<Action>)
    requires Sound(s) && s.pc == Running && QueueRuns(s.core)
    ensures Leads(s, first, AfterFront(s.core, env), Running, env)
    ensures |AfterFront(s.core, env).queue| < |s.core.queue|
    ensures RunQueue(s.core, env) == RunQueue(AfterFront(s.core, env), env)
  {
    var a := s.core.queue[0];
    if s.core.chainFailed != Holds {
      LeadsOne(s, CancelChained, env);
      first := [CancelChained];
      PostLeaves(Pop(s.core), a, -ECANCELED);
    } else {
      SoundKept(s, Dequeue);
      first := HeldRun(Apply(s, Dequeue), env(a), env);
      RunHeldShrinks(Pop(s.core), a, env(a));
      LeadsFrom(s, Dequeue, first, RunHeld(Pop(s.core), a, env(a)), Running, env);
      first := [Dequeue] + first;
    }
  }

  // ---- the wait ----------------------------------------------------------

  lemma AnswerRetry(s: System, res: int, env: Addr -> Attempt) returns (acts: seq<Action>)
    requires s.pc.Retry? && RetryAnswers(env(s.pc.op).verdict, res)
    ensures Leads(s, acts, s.core, Retrying(s.pc.ready, s.pc.done + [Done(s.pc.op, res)]), env)
  {
    acts := [RetryAnswer(res)];
    LeadsOne(s, RetryAnswer(res), env);
  }

  lemma RetriedRun(s: System, t: Attempt, env: Addr -> Attempt) returns (acts: seq<Action>)
    requires Sound(s) && s.pc.Retry? && t == env(s.pc.op)
    ensures var u := s.core;
      var d := if t.verdict.FileOp? then u else EmitAll(u, s.pc.op, t.emits);
      if t.verdict.WouldBlock? && t.verdict.armed
      then Leads(s, acts, Park(d, s.pc.op), Retrying(s.pc.ready, s.pc.done), env)
      else Leads(s, acts, d, Retrying(s.pc.ready, s.pc.done + [Done(s.pc.op, RetryRes(t))]), env)
  {
    acts := [];
    if !t.verdict.FileOp? { acts := EmitRun(s, t.emits, env); }
    var u := Run(s, acts);
    var last: seq<Action>;
    if t.verdict.WouldBlock? && t.verdict.armed {
      last := [Repark];
      LeadsOne(u, Repark, env);
      LeadsOn(s, acts, last, Park(u.core, s.pc.op), Retrying(s.pc.ready, s.pc.done), env);
    } else {
      last := AnswerRetry(u, RetryRes(t), env);
      LeadsOn(s, acts, last, u.core, Retrying(s.pc.ready, s.pc.done + [Done(s.pc.op, RetryRes(t))]), env);
    }
    acts := acts + last;
  }

  function RetryRes(t: Attempt): int {
    match t.verdict
    case Finished(res) => res
    case WouldBlock(_) => -EBUSY
    case FileOp => -EOPNOTSUPP
  }

  lemma RetryRun(s: System, t: Attempt, env: Addr -> Attempt) returns (acts: seq<Action>)
    requires Sound(s) && s.pc.Retrying? && s.pc.ready != [] && t == env(s.pc.ready[0])
    ensures var r := RetryOne(s.core, s.pc.ready[0], t);
      Leads(s, acts, r.core, Retrying(s.pc.ready[1..], s.pc.done + r.done), env)
  {
    var u := Apply(s, UnparkNext);
    SoundKept(s, UnparkNext);
    acts := RetriedRun(u, t, env);
    var r := RetryOne(s.core, s.pc.ready[0], t);
    assert r.done == [] ==> s.pc.done + r.done == s.pc.done;
    LeadsFrom(s, UnparkNext, acts, r.core, Retrying(s.pc.ready[1..], s.pc.done + r.done), env);
    acts := [UnparkNext] + acts;
  }

  lemma {:induction false} ReadyRun(s: System, max: nat, env: Addr -> Attempt) returns (acts: seq<Action>)
    requires Sound(s) && s.pc.Retrying? && |s.pc.done| + |s.pc.ready| <= max
    ensures var r := FinishReady(s.core, s.pc.ready, max, env, s.pc.done);
      Leads(s, acts, r.core, Retrying([], r.done), env)
    decreases |s.pc.ready|
  {
    if s.pc.ready == [] {
      acts := [];
      return;
    }
    var t := env(s.pc.ready[0]);
    acts := RetryRun(s, t, env);
    var r := FinishReady(s.core, s.pc.ready, max, env, s.pc.done);
    SoundAlways(s, acts);
    var more := ReadyRun(Run(s, acts), max, env);
    LeadsOn(s, acts, more, r.core, Retrying([], r.done), env);
    acts := acts + more;
  }

  lemma {:induction false} CompleteRun(s: System, env: Addr -> Attempt) returns (acts: seq<Action>)
    requires Sound(s) && s.pc.Completing?
    ensures Leads(s, acts, CompleteAll(s.core, s.pc.done), Completing([]), env)
    decreases |s.pc.done|
  {
    if s.pc.done == [] {
      acts := [];
      return;
    }
    SoundKept(s, CompleteNext);
    acts := CompleteRun(Apply(s, CompleteNext), env);
    LeadsFrom(s, CompleteNext, acts, CompleteAll(s.core, s.pc.done), Completing([]), env);
    acts := [CompleteNext] + acts;
  }

  lemma CompletedRun(s: System, env: Addr -> Attempt) returns (acts: seq<Action>)
    requires Sound(s) && s.pc.Completing?
    ensures Leads(s, acts, RunQueue(CompleteAll(s.core, s.pc.done), env), Between, env)
  {
    acts := CompleteRun(s, env);
    SoundAlways(s, acts);
    var v := Run(s, acts);
    SoundKept(v, EndComplete);
    var q := QueueRun(Apply(v, EndComplete), env);
    LeadsFrom(v, EndComplete, q, RunQueue(v.core, env), Between, env);
    LeadsOn(s, acts, [EndComplete] + q, RunQueue(v.core, env), Between, env);
    acts := acts + ([EndComplete] + q);
  }

  /** From the retried ops to the end of the pass. */
  lemma AfterRetries(s: System, env: Addr -> Attempt) returns (acts: seq<Action>)
    requires Sound(s) && s.pc.Retrying? && s.pc.ready == []
    ensures Leads(s, acts, Settle(RunQueue(CompleteAll(s.core, s.pc.done), env)), Between, env)
    ensures acts != [] && acts[|acts| - 1] == SettleTicket
  {
    var u := Apply(s, EndRetries);
    SoundKept(s, EndRetries);
    var d := RunQueue(CompleteAll(s.core, s.pc.done), env);
    acts := CompletedRun(u, env);
    LeadsFrom(s, EndRetries, acts, d, Between, env);
    acts := [EndRetries] + acts;
    LeadsOne(Run(s, acts), SettleTicket, env);
    LeadsOn(s, acts, [SettleTicket], Settle(d), Between, env);
    acts := acts + [SettleTicket];
  }

  /** The ring's wait pass is a run of the machine, from the ready ops the backend named to the settling
      of the worker's ticket. */
  lemma WaitRun(s: System, ready: seq<Addr>, env: Addr -> Attempt) returns (acts: seq<Action>)
    requires Sound(s) && CanWait(s, ready)
    ensures Leads(s, acts, WaitPass(s.core, ready, env), Between, env)
    ensures |acts| > 1 && acts[0] == BeginWait(ready) && acts[|acts| - 1] == SettleTicket
  {
    SoundApart(s);
    ReadyFits(s.core, ready);
    SoundKept(s, BeginWait(ready));
    var u := Apply(s, BeginWait(ready));
    acts := ReadyRun(u, |s.core.ops|, env);
    SoundAlways(u, acts);
    var more := AfterRetries(Run(u, acts), env);
    LeadsOn(u, acts, more, WaitPass(s.core, ready, env), Between, env);
    acts := acts + more;
    LeadsFrom(s, BeginWait(ready), acts, WaitPass(s.core, ready, env), Between, env);
    acts := [BeginWait(ready)] + acts;
  }

  // ---- the worker --------------------------------------------------------

  /** One turn of the worker's loop is a run in which only the worker moves. */
  lemma WorkerRun(s: System, res: int) returns (acts: seq<Action>)
    requires s.worker.WIdle? && s.core.wq != []
    ensures ValidRun(s, acts) && Run(s, acts).core == WorkerTurn(s.core, res)
    ensures Run(s, acts).pc == s.pc && Run(s, acts).worker.WIdle?
    ensures forall i | 0 <= i < |acts| :: acts[i] == TakeWork || acts[i] == RaiseTicket(res) || acts[i] == PostWork(res)
  {
    if OpAt(s.core, s.core.wq[0]).stallsQueue {
      acts := [TakeWork, RaiseTicket(res), PostWork(res)];
      TicketedTurn(s, res);
      RunThree(s, TakeWork, RaiseTicket(res), PostWork(res));
    } else {
      acts := [TakeWork, PostWork(res)];
      PlainTurn(s, res);
      RunTwo(s, TakeWork, PostWork(res));
    }
  }

  lemma TicketedTurn(s: System, res: int)
    requires s.worker.WIdle? && s.core.wq != [] && OpAt(s.core, s.core.wq[0]).stallsQueue
    ensures var t := Apply(s, TakeWork);
      Enabled(t, RaiseTicket(res)) && Enabled(Apply(t, RaiseTicket(res)), PostWork(res))
    ensures var r := Apply(Apply(Apply(s, TakeWork), RaiseTicket(res)), PostWork(res));
      r.core == WorkerTurn(s.core, res) && r.pc == s.pc && r.worker.WIdle?
  {
  }

  lemma PlainTurn(s: System, res: int)
    requires s.worker.WIdle? && s.core.wq != [] && !OpAt(s.core, s.core.wq[0]).stallsQueue
    ensures Enabled(Apply(s, TakeWork), PostWork(res))
    ensures var r := Apply(Apply(s, TakeWork), PostWork(res));
      r.core == WorkerTurn(s.core, res) && r.pc == s.pc && r.worker.WIdle?
  {
  }

  // ---- submissions -------------------------------------------------------

  /** Taking in these submissions, one after the other. */
  function TakeActs(q: seq<Sqe>): (r: seq<Action>)
    ensures |r| == |q| && forall j | 0 <= j < |q| :: r[j] == TakeSqe(q[j])
  {
    seq(|q|, j requires 0 <= j < |q| => TakeSqe(q[j]))
  }

  lemma TakeActsFront(ring: seq<RingEntry>, n: nat)
    requires 0 < n <= |ring|
    ensures TakeActs(SqesOf(ring[..n]))
         == (if ring[0].Filled? then [TakeSqe(ring[0].sqe)] else []) + TakeActs(SqesOf(ring[1..][..n - 1]))
  {
    SqesFront(ring, n);
  }

  lemma {:induction false} IntakeRun(s: System, ring: seq<RingEntry>, toSubmit: nat, env: Addr -> Attempt)
    returns (acts: seq<Action>)
    requires s.pc.Intake?
    ensures var r := TakeIn(s.core, ring, toSubmit);
      && Leads(s, acts, r.core, Intake(s.pc.batch + r.batch), env)
      && r.submitted <= |ring| && acts == TakeActs(SqesOf(ring[..r.submitted]))
    decreases |ring|
  {
    if IntakeOver(s.core, ring, toSubmit) {
      acts := [];
      IntakeNone(s, ring, toSubmit, env);
    } else if ring[0].PastEnd? {
      acts := IntakeRun(s, ring[1..], toSubmit - 1, env);
      IntakeBad(s, ring, toSubmit);
    } else {
      acts := IntakeRun(DoTakeSqe(s, ring[0].sqe), ring[1..], toSubmit - 1, env);
      IntakeOne(s, ring, toSubmit, acts, env);
      acts := [TakeSqe(ring[0].sqe)] + acts;
    }
  }

  predicate IntakeOver(c: Core, ring: seq<RingEntry>, toSubmit: nat) {
    ring == [] || toSubmit == 0 || (ring[0].Filled? && c.free == [])
  }

  lemma IntakeNone(s: System, ring: seq<RingEntry>, toSubmit: nat, env: Addr -> Attempt)
    requires s.pc.Intake? && IntakeOver(s.core, ring, toSubmit)
    ensures TakeIn(s.core, ring, toSubmit) == Taken(s.core, [], 0, 0)
    ensures Leads(s, [], s.core, Intake(s.pc.batch + []), env) && TakeActs(SqesOf(ring[..0])) == []
  {
    assert s.pc.batch + [] == s.pc.batch;
  }

  lemma IntakeBad(s: System, ring: seq<RingEntry>, toSubmit: nat)
    requires ring != [] && toSubmit > 0 && ring[0].PastEnd?
    requires TakeIn(s.core, ring[1..], toSubmit - 1).submitted < |ring|
    ensures var r, rest := TakeIn(s.core, ring, toSubmit), TakeIn(s.core, ring[1..], toSubmit - 1);
      && r.core == rest.core && r.batch == rest.batch && r.submitted == rest.submitted + 1
      && TakeActs(SqesOf(ring[..r.submitted])) == TakeActs(SqesOf(ring[1..][..rest.submitted]))
  {
    TakeActsFront(ring, TakeIn(s.core, ring, toSubmit).submitted);
  }

  lemma IntakeOne(s: System, ring: seq<RingEntry>, toSubmit: nat, acts: seq<Action>, env: Addr -> Attempt)
    requires s.pc.Intake? && ring != [] && toSubmit > 0 && ring[0].Filled? && s.core.free != []
    requires var u := DoTakeSqe(s, ring[0].sqe);
      var rest := TakeIn(u.core, ring[1..], toSubmit - 1);
      && Leads(u, acts, rest.core, Intake(u.pc.batch + rest.batch), env)
      && rest.submitted < |ring| && acts == TakeActs(SqesOf(ring[1..][..rest.submitted]))
    ensures var r := TakeIn(s.core, ring, toSubmit);
      && Leads(s, [TakeSqe(ring[0].sqe)] + acts, r.core, Intake(s.pc.batch + r.batch), env)
      && r.submitted <= |ring| && [TakeSqe(ring[0].sqe)] + acts == TakeActs(SqesOf(ring[..r.submitted]))
  {
    var act, r := TakeSqe(ring[0].sqe), TakeIn(s.core, ring, toSubmit);
    var u := Apply(s, act);
    TakeActsFront(ring, r.submitted);
    IntakeJoined(s.pc.batch, s.core.free[0], TakeIn(u.core, ring[1..], toSubmit - 1).batch);
    LeadsFrom(s, act, acts, r.core, Intake(s.pc.batch + r.batch), env);
  }

  lemma IntakeJoined(p: seq<Addr>, a: Addr, q: seq<Addr>)
    ensures (p + [a]) + q == p + ([a] + q)
  {
  }

  /** The ring's submit is a run of the machine: it takes in exactly the good entries of those it counts
      as submitted, in order, and queues them. */
  lemma SubmitRun(s: System, ring: seq<RingEntry>, toSubmit: nat, env: Addr -> Attempt) returns (acts: seq<Action>)
    requires Sound(s) && s.pc.Outside?
    ensures Leads(s, acts, SubmitPass(s.core, ring, toSubmit, env), Between, env)
    ensures var n := TakeIn(s.core, ring, toSubmit).submitted;
      n <= |ring| && [EnterCall] + TakeActs(SqesOf(ring[..n])) + [EngineSystem.Submit] <= acts
  {
    var u := Apply(s, EnterCall);
    SoundKept(s, EnterCall);
    var taken := IntakeRun(u, ring, toSubmit, env);
    SoundAlways(u, taken);
    var rest := EnqueueRun(u, ring, toSubmit, taken, env);
    var all := taken + ([EngineSystem.Submit] + rest);
    LeadsFrom(s, EnterCall, all, SubmitPass(s.core, ring, toSubmit, env), Between, env);
    acts := [EnterCall] + all;
    SubmitShape(taken, rest);
  }

  lemma SubmitShape(taken: seq<Action>, rest: seq<Action>)
    ensures [EnterCall] + taken + [EngineSystem.Submit] <= [EnterCall] + (taken + ([EngineSystem.Submit] + rest))
  {
    assert [EnterCall] + (taken + ([EngineSystem.Submit] + rest))
        == ([EnterCall] + taken + [EngineSystem.Submit]) + rest;
  }

  /** The batch goes to the end of the queue, and a nonempty one runs it. */
  lemma EnqueueRun(u: System, ring: seq<RingEntry>, toSubmit: nat, taken: seq<Action>, env: Addr -> Attempt)
    returns (rest: seq<Action>)
    requires Sound(u) && u.pc == Intake([]) && ValidRun(u, taken) && HeedsAll(u, taken, env)
    requires var r := TakeIn(u.core, ring, toSubmit);
      Run(u, taken).core == r.core && Run(u, taken).pc == Intake([] + r.batch)
    requires Sound(Run(u, taken))
    ensures Leads(u, taken + ([EngineSystem.Submit] + rest), SubmitPass(u.core, ring, toSubmit, env), Between, env)
  {
    var r, v := TakeIn(u.core, ring, toSubmit), Run(u, taken);
    assert [] + r.batch == r.batch;
    rest := [];
    SoundKept(v, EngineSystem.Submit);
    if r.batch != [] { rest := QueueRun(Apply(v, EngineSystem.Submit), env); }
    assert r.batch == [] ==> r.core.queue + r.batch == r.core.queue;
    LeadsFrom(v, EngineSystem.Submit, rest, SubmitPass(u.core, ring, toSubmit, env), Between, env);
    LeadsOn(u, taken, [EngineSystem.Submit] + rest, SubmitPass(u.core, ring, toSubmit, env), Between, env);
  }
}
