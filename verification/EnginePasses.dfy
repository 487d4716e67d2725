/** What one pass of the submitter does to the engine: running the queue, retrying the ready
    ops, taking submissions in. What a backend or a system call answers is a parameter
    (src/slipstream_engine.c:313-371 and 766-794, src/engine_posix.c:1008-1055). */
module EnginePasses {
  import opened Lists
  import opened EngineCore
  import opened EngineSystem
  import opened EngineOwnership
  import opened IntrusiveList
  import opened EngineThreads
  import opened EngineCancel

  /** One attempt at an op: finished, would block (and whether the backend took it), or to be
      run where blocking is allowed. */
  datatype Verdict = Finished(res: int) | WouldBlock(armed: bool) | FileOp

  /** One multishot emission: its result, and its provided buffer if it carries one. */
  datatype Shot = Shot(res: int, buffer: bool, bid: nat)

  /** What the world answers while one op is tried: the fixed table for its descriptor, what the
      attempt emits, and the verdict. For a MSG_RING, whether its target is this very ring and
      the completion it puts there. */
  datatype Attempt = Attempt(lookup: int, emits: seq<Shot>, verdict: Verdict, toSelf: bool, msg: Cqe)

  /** An emission answers for its op and says that more may come. */
  function ShotCqe(c: Core, a: Addr, shot: Shot): Cqe {
    Cqe(OpAt(c, a).sqe.userData, shot.res, CqeFlags(true, shot.buffer, shot.bid))
  }

  function EmitAll(c: Core, a: Addr, shots: seq<Shot>): Core
    decreases |shots|
  {
    if shots == [] then c else EmitAll(Emit(c, ShotCqe(c, a, shots[0])), a, shots[1..])
  }

  function Message(c: Core, t: Attempt): Core {
    if t.toSelf then Emit(c, t.msg) else c
  }

  /** `done` is EXEC_DONE with its result, the rest is EXEC_PENDING. */
  datatype Executed = Executed(core: Core, done: bool, res: int)

  function TryOp(c: Core, a: Addr, t: Attempt): Executed {
    var d := EmitAll(c, a, t.emits);
    match t.verdict
    case Finished(res) => Executed(d, true, res)
    case WouldBlock(armed) => if armed then Executed(Park(d, a), false, 0) else Executed(d, true, -EBUSY)
    case FileOp => Executed(HandToWorker(c, a), false, 0)
  }

  function ExecuteOp(c: Core, a: Addr, t: Attempt): Executed {
    var sqe := OpAt(c, a).sqe;
    if IsCancel(sqe) then
      var r := CancelMatching(c, sqe);
      Executed(r.core, true, r.res)
    else TryOp(c, a, t)
  }

  /** A message to another ring: the emission is that ring's, unless it is this one. */
  function MsgRes(t: Attempt): int {
    if t.verdict.Finished? then t.verdict.res else 0
  }

  /** The op taken off the queue, its chain standing. */
  function RunHeld(c: Core, a: Addr, t: Attempt): Core {
    var op := OpAt(c, a);
    if NeedsLookup(op) && t.lookup < 0 then Post(Standing(c, a, -EBADF), a, -EBADF)
    else
      var d := Translate(c, a, t.lookup);
      if op.sqe.opcode == MsgRing then Post(Message(d, t), a, MsgRes(t))
      else
        var e := ExecuteOp(d, a, t);
        if e.done then Post(Standing(e.core, a, e.res), a, e.res)
        else Stall(e.core, a, op.sqe.link)
  }

  lemma {:induction false} EmitAllFrame(c: Core, a: Addr, shots: seq<Shot>)
    ensures SameSubmission(c, EmitAll(c, a, shots))
    decreases |shots|
  {
    if shots != [] {
      var cqe := ShotCqe(c, a, shots[0]);
      EmitFrame(c, cqe);
      EmitAllFrame(Emit(c, cqe), a, shots[1..]);
    }
  }

  lemma CancelFrame(c: Core, cancel: Sqe)
    ensures |CancelMatching(c, cancel).core.queue| <= |c.queue|
    ensures SameSqes(c, CancelMatching(c, cancel).core)
  {
    var all := IsAll(cancel);
    var p := ScanFrom(c, cancel, all, InWaiting, 0).core;
    var q := ScanFrom(p, cancel, all, InQueue, 0).core;
    ScanFrame(c, cancel, all, InWaiting, 0);
    ScanFrame(p, cancel, all, InQueue, 0);
    ScanFrame(q, cancel, all, AtWorker, 0);
    assert ListOf(p, InQueue) == c.queue;
    assert ListOf(ScanFrom(q, cancel, all, AtWorker, 0).core, InQueue) == q.queue;
  }

  lemma ExecuteShrinks(c: Core, a: Addr, t: Attempt)
    ensures |ExecuteOp(c, a, t).core.queue| <= |c.queue|
  {
    EmitAllFrame(c, a, t.emits);
    CancelFrame(c, OpAt(c, a).sqe);
  }

  lemma RunHeldShrinks(c: Core, a: Addr, t: Attempt)
    ensures |RunHeld(c, a, t).queue| <= |c.queue|
  {
    var d := Translate(c, a, t.lookup);
    var e := ExecuteOp(d, a, t);
    PostLeaves(Standing(c, a, -EBADF), a, -EBADF);
    EmitFrame(d, t.msg);
    PostLeaves(Message(d, t), a, MsgRes(t));
    ExecuteShrinks(d, a, t);
    PostLeaves(Standing(e.core, a, e.res), a, e.res);
  }

  function RunQueue(c: Core, env: Addr -> Attempt): Core
    decreases |c.queue|
  {
    if !QueueRuns(c) then c
    else if c.chainFailed != Holds then
      PostLeaves(Pop(c), c.queue[0], -ECANCELED);
      RunQueue(CancelFront(c), env)
    else
      RunHeldShrinks(Pop(c), c.queue[0], env(c.queue[0]));
      RunQueue(RunHeld(Pop(c), c.queue[0], env(c.queue[0])), env)
  }

  // ---- ready ops ---------------------------------------------------------

  datatype Retried = Retried(core: Core, done: seq<Done>)

  /** One ready op: taken out of waiting[], tried again, and answered or parked again. */
  function RetryOne(c: Core, a: Addr, t: Attempt): Retried {
    var u := Unpark(c, a);
    var d := EmitAll(u, a, t.emits);
    match t.verdict
    case Finished(res) => Retried(d, [Done(a, res)])
    case WouldBlock(armed) => if armed then Retried(Park(d, a), []) else Retried(d, [Done(a, -EBUSY)])
    case FileOp => Retried(u, [Done(a, -EOPNOTSUPP)])
  }

  /** The answers so far are `done`; no more than max of them fit. */
  function FinishReady(c: Core, ready: seq<Addr>, max: nat, env: Addr -> Attempt, done: seq<Done>): Retried
    decreases |ready|
  {
    if ready == [] || |done| >= max then Retried(c, done)
    else
      var r := RetryOne(c, ready[0], env(ready[0]));
      FinishReady(r.core, ready[1..], max, env, done + r.done)
  }

  function CompleteAll(c: Core, done: seq<Done>): Core
    decreases |done|
  {
    if done == [] then c else CompleteAll(Complete(c, done[0].op, done[0].res), done[1..])
  }

  // ---- submissions -------------------------------------------------------

  /** An entry of the submission ring's array: an index into the entries, or one past them. */
  datatype RingEntry = Filled(sqe: Sqe) | PastEnd

  datatype Taken = Taken(core: Core, batch: seq<Addr>, submitted: nat, dropped: nat)

  /** The next free op, holding a submission and nothing else. */
  function Filling(c: Core, sqe: Sqe): Core
    requires c.free != []
  {
    SetOp(Alloc(c), c.free[0], Zeroed().(sqe := sqe))
  }

  /** Taken until the ring is empty, to_submit are taken, or the pool is. */
  function TakeIn(c: Core, ring: seq<RingEntry>, toSubmit: nat): Taken
    decreases |ring|
  {
    if ring == [] || toSubmit == 0 then Taken(c, [], 0, 0)
    else match ring[0]
      case PastEnd =>
        var r := TakeIn(c, ring[1..], toSubmit - 1);
        r.(submitted := r.submitted + 1, dropped := r.dropped + 1)
      case Filled(sqe) =>
        if c.free == [] then Taken(c, [], 0, 0)
        else
          var r := TakeIn(Filling(c, sqe), ring[1..], toSubmit - 1);
          r.(batch := [c.free[0]] + r.batch, submitted := r.submitted + 1)
  }

  function Enqueue(c: Core, batch: seq<Addr>): Core {
    c.(queue := c.queue + batch)
  }

  // ---- what is in hand stays in hand -------------------------------------

  lemma PostListed(c: Core, a: Addr, res: int, x: Addr)
    ensures Listed(Post(c, a, res), x) == Listed(c, x) + if x == a then 1 else 0
  {
    PostLeaves(c, a, res);
    PostIdle(c, a, res, x);
  }

  lemma EmitListed(c: Core, cqe: Cqe, x: Addr)
    ensures Listed(Emit(c, cqe), x) == Listed(c, x) && |Emit(c, cqe).ops| == |c.ops|
  {
    EmitFrame(c, cqe);
    EmitIdle(c, cqe, x);
  }

  lemma {:induction false} EmitAllListed(c: Core, a: Addr, shots: seq<Shot>, x: Addr)
    ensures Listed(EmitAll(c, a, shots), x) == Listed(c, x) && |EmitAll(c, a, shots).ops| == |c.ops|
    decreases |shots|
  {
    if shots != [] {
      var cqe := ShotCqe(c, a, shots[0]);
      EmitListed(c, cqe, x);
      EmitAllListed(Emit(c, cqe), a, shots[1..], x);
    }
  }

  lemma TakeOutCount(c: Core, w: Where, i: nat, x: Addr)
    requires i < |ListOf(c, w)|
    ensures Listed(c, x) == Listed(TakeOut(c, w, i), x) + if x == ListOf(c, w)[i] then 1 else 0
  {
    RemovedCnt(w, ListOf(c, w), i, x);
  }

  lemma TargetListed(d: Core, t: Addr, x: Addr)
    ensures Listed(CancelTarget(d, t), x) == Listed(d, x) + if x == t then 1 else 0
  {
    PostListed(CancelStanding(d, t), t, -ECANCELED, x);
  }

  lemma CancelAtListed(c: Core, w: Where, i: nat, x: Addr)
    requires i < |ListOf(c, w)|
    ensures Listed(CancelAt(c, w, i), x) == Listed(c, x)
  {
    var d, t := TakeOut(c, w, i), ListOf(c, w)[i];
    TakeOutCount(c, w, i, x);
    TargetListed(d, t, x);
  }

  lemma {:induction false} ScanListed(c: Core, cancel: Sqe, all: bool, w: Where, i: nat, x: Addr)
    ensures Listed(ScanFrom(c, cancel, all, w, i).core, x) == Listed(c, x)
    decreases |ListOf(c, w)| - i
  {
    if i < |ListOf(c, w)| {
      if !Matches(c, cancel, ListOf(c, w)[i]) {
        ScanListed(c, cancel, all, w, i + 1, x);
      } else {
        CancelAtListed(c, w, i, x);
        CancelAtFrame(c, w, i);
        if all { ScanListed(CancelAt(c, w, i), cancel, all, w, i, x); }
      }
    }
  }

  /** A cancel moves slots from list to list; what is in hand stays in hand. */
  lemma CancelListed(c: Core, cancel: Sqe, x: Addr)
    ensures Listed(CancelMatching(c, cancel).core, x) == Listed(c, x)
  {
    var all := IsAll(cancel);
    var p := ScanFrom(c, cancel, all, InWaiting, 0).core;
    var q := ScanFrom(p, cancel, all, InQueue, 0).core;
    ScanListed(c, cancel, all, InWaiting, 0, x);
    ScanListed(p, cancel, all, InQueue, 0, x);
    ScanListed(q, cancel, all, AtWorker, 0, x);
  }

  // ---- retrying the ready ops --------------------------------------------

  lemma RetryCounts(c: Core, a: Addr, t: Attempt, x: Addr)
    requires a in c.waiting
    ensures var r := RetryOne(c, a, t);
      && Cnt(r.core.waiting, x) + DoneCnt(r.done, x) == Cnt(c.waiting, x)
      && |r.done| <= 1 && (x != a ==> DoneCnt(r.done, x) == 0)
  {
    CntSwapRemove(c.waiting, IndexOf(c.waiting, a), x);
    var u := Unpark(c, a);
    EmitAllFrame(u, a, t.emits);
    CntSnoc(EmitAll(u, a, t.emits).waiting, a, x);
  }

  lemma {:induction false} DoneConcat(p: seq<Done>, q: seq<Done>, x: Addr)
    ensures DoneCnt(p + q, x) == DoneCnt(p, x) + DoneCnt(q, x)
  {
    if p == [] { assert p + q == q; } else { assert (p + q)[1..] == p[1..] + q; DoneConcat(p[1..], q, x); }
  }

  /** Distinct parked ops, with room for the answers. */
  ghost predicate Visitable(c: Core, ready: seq<Addr>, max: nat, done: seq<Done>) {
    && Distinct(ready) && (forall i | 0 <= i < |ready| :: ready[i] in c.waiting)
    && |done| + |ready| <= max
  }

  lemma VisitableNext(c: Core, ready: seq<Addr>, max: nat, env: Addr -> Attempt, done: seq<Done>)
    requires Visitable(c, ready, max, done) && ready != []
    ensures var r := RetryOne(c, ready[0], env(ready[0]));
      Visitable(r.core, ready[1..], max, done + r.done)
  {
    var r := RetryOne(c, ready[0], env(ready[0]));
    RetryCounts(c, ready[0], env(ready[0]), ready[0]);
    var rest := ready[1..];
    forall i | 0 <= i < |rest| ensures rest[i] in r.core.waiting {
      var x := ready[i + 1];
      RetryCounts(c, ready[0], env(ready[0]), x);
      CntIn(c.waiting, x);
      CntIn(r.core.waiting, x);
    }
  }

  /** Every ready op comes back exactly once, answered or parked again; every other parked op
      stays where it is counted. */
  lemma {:induction false} FinishReadyExact(c: Core, ready: seq<Addr>, max: nat, env: Addr -> Attempt,
                                              done: seq<Done>, x: Addr)
    requires Visitable(c, ready, max, done)
    ensures var r := FinishReady(c, ready, max, env, done);
      && Cnt(r.core.waiting, x) + DoneCnt(r.done, x) == Cnt(c.waiting, x) + DoneCnt(done, x)
      && (x !in ready ==> DoneCnt(r.done, x) == DoneCnt(done, x))
    decreases |ready|
  {
    if ready != [] {
      var r := RetryOne(c, ready[0], env(ready[0]));
      VisitableNext(c, ready, max, env, done);
      RetryCounts(c, ready[0], env(ready[0]), x);
      DoneConcat(done, r.done, x);
      FinishReadyExact(r.core, ready[1..], max, env, done + r.done, x);
      assert ready == [ready[0]] + ready[1..];
    }
  }

  /** The scratch arrays are as long as the pool, so what a wait finds ready always fits. */
  lemma ReadyFits(c: Core, ready: seq<Addr>)
    requires Apart(c) && Distinct(ready) && forall i | 0 <= i < |ready| :: ready[i] in c.waiting
    ensures Visitable(c, ready, |c.ops|, [])
  {
    forall x ensures Cnt(ready, x) <= if 0 <= x < |c.ops| then 1 else 0 {
      CntDistinct(ready, x);
      CntIn(ready, x);
      CntIn(c.waiting, x);
      assert Listed(c, x) <= if 0 <= x < |c.ops| then 1 else 0;
    }
    Pigeonhole(ready, |c.ops|);
  }

  /** What the ring's submit does to the state. */
  function SubmitPass(c: Core, ring: seq<RingEntry>, toSubmit: nat, env: Addr -> Attempt): Core {
    var r := TakeIn(c, ring, toSubmit);
    if r.batch == [] then r.core else RunQueue(Enqueue(r.core, r.batch), env)
  }

  /** One wait pass: the ready ops, their completions, the queue, the worker's ticket. */
  function WaitPass(c: Core, ready: seq<Addr>, env: Addr -> Attempt): Core {
    var r := FinishReady(c, ready, |c.ops|, env, []);
    Settle(RunQueue(CompleteAll(r.core, r.done), env))
  }

  /** One turn of the worker's loop, for an op that answers res: take it, raise the ticket if the queue
      stalls on it, post. */
  function WorkerTurn(c: Core, res: int): Core
    requires c.wq != []
  {
    var a, d := c.wq[0], WorkerTake(c);
    Post(if OpAt(d, a).stallsQueue then Ticket(d, a, res) else d, a, res)
  }

  /** The answered ops are in hand, each once, on no list. */
  ghost predicate InHand(c: Core, done: seq<Done>) {
    forall x :: Listed(c, x) + DoneCnt(done, x) <= if 0 <= x < |c.ops| then 1 else 0
  }

  lemma UnparkCount(c: Core, a: Addr, x: Addr)
    requires a in c.waiting
    ensures Listed(c, x) == Listed(Unpark(c, a), x) + if x == a then 1 else 0
  {
    CntSwapRemove(c.waiting, IndexOf(c.waiting, a), x);
  }

  lemma ParkCount(c: Core, a: Addr, x: Addr)
    ensures Listed(Park(c, a), x) == Listed(c, x) + if x == a then 1 else 0
  {
    CntSnoc(c.waiting, a, x);
  }

  lemma RetryListed(c: Core, a: Addr, t: Attempt, x: Addr)
    requires a in c.waiting
    ensures var r := RetryOne(c, a, t);
      Listed(r.core, x) + DoneCnt(r.done, x) == Listed(c, x) && |r.core.ops| == |c.ops|
  {
    UnparkCount(c, a, x);
    if t.verdict.FileOp? { return; }
    var d := EmitAll(Unpark(c, a), a, t.emits);
    EmitAllListed(Unpark(c, a), a, t.emits, x);
    ParkCount(d, a, x);
  }

  lemma {:induction false} FinishReadyListed(c: Core, ready: seq<Addr>, max: nat, env: Addr -> Attempt,
                                              done: seq<Done>, x: Addr)
    requires Visitable(c, ready, max, done)
    ensures var r := FinishReady(c, ready, max, env, done);
      Listed(r.core, x) + DoneCnt(r.done, x) == Listed(c, x) + DoneCnt(done, x) && |r.core.ops| == |c.ops|
    decreases |ready|
  {
    if ready != [] {
      var r := RetryOne(c, ready[0], env(ready[0]));
      VisitableNext(c, ready, max, env, done);
      RetryListed(c, ready[0], env(ready[0]), x);
      DoneConcat(done, r.done, x);
      FinishReadyListed(r.core, ready[1..], max, env, done + r.done, x);
    }
  }

  lemma FinishReadyInHand(c: Core, ready: seq<Addr>, max: nat, env: Addr -> Attempt)
    requires Apart(c) && Visitable(c, ready, max, [])
    ensures var r := FinishReady(c, ready, max, env, []); InHand(r.core, r.done)
  {
    var r := FinishReady(c, ready, max, env, []);
    forall x ensures Listed(r.core, x) + DoneCnt(r.done, x) <= if 0 <= x < |r.core.ops| then 1 else 0 {
      FinishReadyListed(c, ready, max, env, [], x);
      assert Listed(c, x) <= if 0 <= x < |c.ops| then 1 else 0;
    }
  }

  lemma CompleteListed(c: Core, a: Addr, res: int, x: Addr)
    ensures Listed(Complete(c, a, res), x) == Listed(c, x) + if x == a then 1 else 0
    ensures |Complete(c, a, res).ops| == |c.ops|
  {
    var d := CompleteStanding(c, a, res);
    PostLeaves(d, a, res);
    PostListed(d, a, res, x);
  }

  lemma CompleteInHand(c: Core, done: seq<Done>)
    requires InHand(c, done) && done != []
    ensures Loose(c, done[0].op) && InHand(Complete(c, done[0].op, done[0].res), done[1..])
  {
    var a, res := done[0].op, done[0].res;
    assert Listed(c, a) + DoneCnt(done, a) <= if 0 <= a < |c.ops| then 1 else 0;
    forall x
      ensures Listed(Complete(c, a, res), x) + DoneCnt(done[1..], x)
           <= if 0 <= x < |Complete(c, a, res).ops| then 1 else 0
    {
      assert Listed(c, x) + DoneCnt(done, x) <= if 0 <= x < |c.ops| then 1 else 0;
      CompleteListed(c, a, res, x);
    }
  }

  // ---- taking submissions in ---------------------------------------------

  /** What was taken first, and what was taken after it. */
  function Joined(first: Taken, rest: Taken): Taken {
    Taken(rest.core, first.batch + rest.batch, first.submitted + rest.submitted, first.dropped + rest.dropped)
  }

  lemma JoinedTake(first: Taken, a: Addr, c: Core, rest: Taken)
    ensures Joined(first, Taken(rest.core, [a] + rest.batch, rest.submitted + 1, rest.dropped))
         == Joined(Taken(c, first.batch + [a], first.submitted + 1, first.dropped), rest)
  {
    assert first.batch + ([a] + rest.batch) == (first.batch + [a]) + rest.batch;
  }

  lemma JoinedNone(c: Core, rest: Taken)
    ensures Joined(Taken(c, [], 0, 0), rest) == rest
  {
    assert [] + rest.batch == rest.batch;
  }

  lemma JoinedLast(first: Taken)
    ensures Joined(first, Taken(first.core, [], 0, 0)) == first
  {
    assert first.batch + [] == first.batch;
  }

  /** The submissions among the entries. */
  function SqesOf(ring: seq<RingEntry>): seq<Sqe> {
    if ring == [] then [] else (if ring[0].Filled? then [ring[0].sqe] else []) + SqesOf(ring[1..])
  }

  lemma SqesFront(ring: seq<RingEntry>, n: nat)
    requires 0 < n <= |ring|
    ensures SqesOf(ring[..n]) == (if ring[0].Filled? then [ring[0].sqe] else []) + SqesOf(ring[1..][..n - 1])
  {
    assert ring[..n][1..] == ring[1..][..n - 1];
  }

  /** Submissions stop at the first of: the ring's end, the caller's number, an entry that
      finds the pool empty. */
  lemma {:induction false} TakeInStops(c: Core, ring: seq<RingEntry>, toSubmit: nat)
    ensures var r := TakeIn(c, ring, toSubmit);
      && r.submitted <= |ring| && r.submitted <= toSubmit
      && (r.submitted < |ring| && r.submitted < toSubmit ==> ring[r.submitted].Filled? && r.core.free == [])
    decreases |ring|
  {
    if ring != [] && toSubmit > 0 {
      if ring[0].PastEnd? {
        TakeInStops(c, ring[1..], toSubmit - 1);
      } else if c.free != [] {
        TakeInStops(Filling(c, ring[0].sqe), ring[1..], toSubmit - 1);
      }
    }
  }

  /** Each good entry taken has its op, from the front of the free list, in order; the others
      are counted as dropped. */
  lemma {:induction false} TakeInTakes(c: Core, ring: seq<RingEntry>, toSubmit: nat)
    ensures var r := TakeIn(c, ring, toSubmit);
      && r.submitted <= |ring|
      && |r.batch| == |SqesOf(ring[..r.submitted])| && r.dropped == r.submitted - |r.batch|
      && r.batch + r.core.free == c.free
    decreases |ring|
  {
    if ring != [] && toSubmit > 0 {
      var r := TakeIn(c, ring, toSubmit);
      if ring[0].PastEnd? {
        TakeInTakes(c, ring[1..], toSubmit - 1);
        SqesFront(ring, r.submitted);
      } else if c.free != [] {
        var d := Filling(c, ring[0].sqe);
        TakeInTakes(d, ring[1..], toSubmit - 1);
        SqesFront(ring, r.submitted);
        TakeInFront(c.free[0], TakeIn(d, ring[1..], toSubmit - 1).batch, r.core.free, c.free);
      }
    }
  }

  lemma TakeInFront(a: Addr, batch: seq<Addr>, free: seq<Addr>, all: seq<Addr>)
    requires all != [] && a == all[0] && batch + free == all[1..]
    ensures ([a] + batch) + free == all
  {
  }

  /** Slots off the free list keep what they hold. */
  lemma {:induction false} TakeInKeeps(c: Core, ring: seq<RingEntry>, toSubmit: nat, x: Addr)
    requires x !in c.free
    ensures OpAt(TakeIn(c, ring, toSubmit).core, x) == OpAt(c, x)
    decreases |ring|
  {
    if ring != [] && toSubmit > 0 {
      if ring[0].PastEnd? {
        TakeInKeeps(c, ring[1..], toSubmit - 1, x);
      } else if c.free != [] {
        TakeInKeeps(Filling(c, ring[0].sqe), ring[1..], toSubmit - 1, x);
      }
    }
  }

  /** The ops of the batch hold the submissions in order, everything else zeroed. */
  lemma {:induction false} TakeInCopies(c: Core, ring: seq<RingEntry>, toSubmit: nat, j: nat)
    requires Distinct(c.free) && Within(|c.ops|, c.free)
    requires j < |TakeIn(c, ring, toSubmit).batch|
    ensures var r := TakeIn(c, ring, toSubmit);
      && r.submitted <= |ring| && j < |SqesOf(ring[..r.submitted])|
      && OpAt(r.core, r.batch[j]) == Zeroed().(sqe := SqesOf(ring[..r.submitted])[j])
    decreases |ring|
  {
    TakeInTakes(c, ring, toSubmit);
    SqesFront(ring, TakeIn(c, ring, toSubmit).submitted);
    if ring[0].PastEnd? {
      TakeInCopies(c, ring[1..], toSubmit - 1, j);
    } else if j == 0 {
      CopyFirst(c, ring, toSubmit);
    } else {
      TakeInCopies(Filling(c, ring[0].sqe), ring[1..], toSubmit - 1, j - 1);
    }
  }

  lemma CopyFirst(c: Core, ring: seq<RingEntry>, toSubmit: nat)
    requires Distinct(c.free) && Within(|c.ops|, c.free) && c.free != []
    requires ring != [] && toSubmit > 0 && ring[0].Filled?
    ensures var r := TakeIn(c, ring, toSubmit);
      r.batch != [] && r.batch[0] == c.free[0] && OpAt(r.core, c.free[0]) == Zeroed().(sqe := ring[0].sqe)
  {
    var a, d := c.free[0], Filling(c, ring[0].sqe);
    assert a !in d.free && OpAt(d, a) == Zeroed().(sqe := ring[0].sqe);
    TakeInKeeps(d, ring[1..], toSubmit - 1, a);
  }
}
