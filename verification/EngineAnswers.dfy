/** What the submitter's passes say to the caller and leave behind: the completion of every op in hand
    with its result, where an op that is not answered goes, whom a cancel takes, and what a turn of
    the wait ends with. The caller does not read while a pass runs. */
module EngineAnswers {
  import opened Lists
  import opened EngineCore
  import opened EngineSystem
  import opened EngineOwnership
  import opened IntrusiveList
  import opened EngineThreads
  import opened EngineCancel
  import opened EnginePasses

  /** Op a is in the submitter's hand. */
  ghost predicate InGrip(c: Core, a: Addr) {
    Apart(c) && Loose(c, a) && c.moves == []
  }

  lemma GripIdle(c: Core, a: Addr)
    requires InGrip(c, a)
    ensures Idle(c, a) == 0 && forall x :: Idle(c, x) <= if 0 <= x < |c.ops| then 1 else 0
  {
    forall x ensures Idle(c, x) <= if 0 <= x < |c.ops| then 1 else 0 {
      assert Listed(c, x) <= if 0 <= x < |c.ops| then 1 else 0;
    }
  }

  lemma PostTells(c: Core, a: Addr, res: int)
    requires InGrip(c, a)
    ensures Flow(Post(c, a, res)) == Flow(c) + Answers(OpAt(c, a), res) && SameSubmission(c, Post(c, a, res))
  {
    GripIdle(c, a);
    PostFacts(c, a, res);
    NotLate(c);
    InsertedLast(Flow(c), Answers(OpAt(c, a), res));
  }

  // ---- emissions ---------------------------------------------------------

  /** The completions these emissions are: they name the submission and say that more may come. */
  function Emissions(userData: int, shots: seq<Shot>): seq<Cqe> {
    if shots == [] then []
    else [Cqe(userData, shots[0].res, CqeFlags(true, shots[0].buffer, shots[0].bid))] + Emissions(userData, shots[1..])
  }

  /** Those of them that are not dropped. */
  function Heard(c: Core, userData: int, shots: seq<Shot>): seq<Cqe>
    decreases |shots|
  {
    if shots == [] then []
    else
      var cqe := Cqe(userData, shots[0].res, CqeFlags(true, shots[0].buffer, shots[0].bid));
      (if EmitDropped(c) then [] else [cqe]) + Heard(Emit(c, cqe), userData, shots[1..])
  }

  lemma EmitTells(c: Core, a: Addr, cqe: Cqe)
    requires InGrip(c, a)
    ensures InGrip(Emit(c, cqe), a) && OpAt(Emit(c, cqe), a) == OpAt(c, a) && SameSubmission(c, Emit(c, cqe))
    ensures Flow(Emit(c, cqe)) == Flow(c) + if EmitDropped(c) then [] else [cqe]
  {
    GripIdle(c, a);
    EmitFacts(c, cqe);
    NotLate(c);
    InsertedLast(Flow(c), if EmitDropped(c) then [] else [cqe]);
    EmitKeeps(c, cqe, a);
    PostMoves(c, NIL, 0, cqe);
    forall x ensures Listed(Emit(c, cqe), x) == Listed(c, x) { EmitListed(c, cqe, x); }
  }

  lemma {:induction false} EmitAllTells(c: Core, a: Addr, shots: seq<Shot>)
    requires InGrip(c, a)
    ensures var d := EmitAll(c, a, shots);
      && InGrip(d, a) && OpAt(d, a) == OpAt(c, a) && SameSubmission(c, d)
      && Flow(d) == Flow(c) + Heard(c, OpAt(c, a).sqe.userData, shots)
    decreases |shots|
  {
    if shots == [] {
      assert Flow(c) + [] == Flow(c);
    } else {
      var cqe := Cqe(OpAt(c, a).sqe.userData, shots[0].res, CqeFlags(true, shots[0].buffer, shots[0].bid));
      EmitTells(c, a, cqe);
      EmitAllTells(Emit(c, cqe), a, shots[1..]);
      Assoc(Flow(c), if EmitDropped(c) then [] else [cqe],
            Heard(Emit(c, cqe), OpAt(c, a).sqe.userData, shots[1..]));
    }
  }

  lemma {:induction false} DrainFreeGrows(c: Core)
    ensures |Drain(c).free| >= |c.free|
    decreases |c.backlog|
  {
    if c.backlog != [] && Room(Glance(c)) { DrainFreeGrows(DrainOne(Glance(c))); }
  }

  /** With as many free ops as emissions none is dropped. */
  lemma {:induction false} HeardAll(c: Core, userData: int, shots: seq<Shot>)
    requires |c.free| >= |shots|
    ensures Heard(c, userData, shots) == Emissions(userData, shots)
    decreases |shots|
  {
    if shots != [] {
      var cqe := Cqe(userData, shots[0].res, CqeFlags(true, shots[0].buffer, shots[0].bid));
      DrainFreeGrows(c);
      TestedFacts(c);
      HeardAll(Emit(c, cqe), userData, shots[1..]);
    }
  }

  // ---- the op in hand ----------------------------------------------------

  /** Everything else stays as it was. */
  ghost predicate Aside(c: Core, r: Core) {
    r.queue == c.queue && r.waiting == c.waiting && r.wq == c.wq && r.blocking == c.blocking
  }

  /** The caller gets `more` and then the completion of the op in slot a, with exactly this result or
      not at all if that is a silent success; a failure of a linked op is the chain's. */
  ghost predicate Concludes(c: Core, r: Core, a: Addr, more: seq<Cqe>, res: int) {
    var sqe := OpAt(c, a).sqe;
    && Flow(r) == Flow(c) + more + Answers(OpAt(c, a), res) && Aside(c, r)
    && r.chainFailed == if res < 0 && sqe.link then (if sqe.skip then CancelsQuietly else Cancels) else c.chainFailed
  }

  /** The descriptor is the one looked up, and nothing else of the op, or of any other, changes. */
  lemma TranslateTells(c: Core, a: Addr, realfd: int)
    requires InGrip(c, a)
    ensures var d, sqe := Translate(c, a, realfd), OpAt(c, a).sqe;
      && InGrip(d, a) && Flow(d) == Flow(c) && d == c.(ops := d.ops)
      && (forall b | b != a :: OpAt(d, b) == OpAt(c, b))
      && OpAt(d, a) == OpAt(c, a).(sqe := OpAt(d, a).sqe)
      && OpAt(d, a).sqe == if sqe.fixedFile && sqe.opcode != Socket && sqe.opcode != Nop
                           then sqe.(fd := realfd, fixedFile := false) else sqe
  {
    GripIdle(c, a);
    NotBacklogged(c, a);
    var d := Translate(c, a, realfd);
    assert Cqes(d.ops, c.backlog) == Cqes(c.ops, c.backlog);
    ApartSame(c, d);
  }

  predicate LookedUp(sqe: Sqe, realfd: int) {
    sqe.fixedFile && sqe.opcode != Socket && sqe.opcode != Nop ==> realfd >= 0
  }

  /** A fixed file that is not in the table: -EBADF, and the op is not tried. */
  lemma LookupFailTells(c: Core, a: Addr, t: Attempt)
    requires InGrip(c, a) && !LookedUp(OpAt(c, a).sqe, t.lookup)
    ensures Concludes(c, RunHeld(c, a, t), a, [], -9)
  {
    StandingTells(c, a, -EBADF);
  }

  lemma StandingTells(d: Core, a: Addr, res: int)
    requires InGrip(d, a)
    ensures Concludes(d, Post(Standing(d, a, res), a, res), a, [], res)
  {
    var e := Standing(d, a, res);
    ApartSame(d, e);
    PostTells(e, a, res);
    assert Flow(d) + [] == Flow(d);
  }

  /** An attempt that finished: the caller gets its emissions and then its result. */
  lemma FinishTells(c: Core, a: Addr, t: Attempt, res: int)
    requires InGrip(c, a) && LookedUp(OpAt(c, a).sqe, t.lookup) && MayPend(OpAt(c, a).sqe)
    requires t.verdict == Finished(res) || (t.verdict == WouldBlock(false) && res == -16)
    ensures var d := Translate(c, a, t.lookup);
      Concludes(c, RunHeld(c, a, t), a, Heard(d, OpAt(c, a).sqe.userData, t.emits), res)
  {
    var d := Translate(c, a, t.lookup);
    TranslateTells(c, a, t.lookup);
    EmitAllTells(d, a, t.emits);
    var e := EmitAll(d, a, t.emits);
    StandingTells(e, a, res);
    assert Flow(e) + [] == Flow(e);
  }

  /** One that would block, armed by the backend: the op is the last of waiting[], and a linked one
      stalls the queue. */
  lemma ParkTells(c: Core, a: Addr, t: Attempt)
    requires InGrip(c, a) && LookedUp(OpAt(c, a).sqe, t.lookup) && MayPend(OpAt(c, a).sqe)
    requires t.verdict == WouldBlock(true)
    ensures var d, r := Translate(c, a, t.lookup), RunHeld(c, a, t);
      && Flow(r) == Flow(c) + Heard(d, OpAt(c, a).sqe.userData, t.emits)
      && r.waiting == c.waiting + [a] && r.queue == c.queue && r.wq == c.wq && r.chainFailed == c.chainFailed
      && r.blocking == (if OpAt(c, a).sqe.link then a else c.blocking) && OpAt(r, a) == OpAt(d, a)
  {
    TranslateTells(c, a, t.lookup);
    EmitAllTells(Translate(c, a, t.lookup), a, t.emits);
  }

  /** One for the worker: nothing is said, the op is the last of the worker's queue, and marked if it is
      linked, for then the queue stalls on it. */
  lemma FileTells(c: Core, a: Addr, t: Attempt)
    requires InGrip(c, a) && LookedUp(OpAt(c, a).sqe, t.lookup) && MayPend(OpAt(c, a).sqe)
    requires t.verdict == FileOp
    ensures var d, r, link := Translate(c, a, t.lookup), RunHeld(c, a, t), OpAt(c, a).sqe.link;
      && Flow(r) == Flow(c) && r.wq == c.wq + [a] && r.queue == c.queue && r.waiting == c.waiting
      && r.chainFailed == c.chainFailed && r.blocking == (if link then a else c.blocking)
      && OpAt(r, a) == OpAt(d, a).(stallsQueue := OpAt(c, a).stallsQueue || link)
  {
    var d := Translate(c, a, t.lookup);
    TranslateTells(c, a, t.lookup);
    GripIdle(d, a);
    NotBacklogged(d, a);
    var r := RunHeld(c, a, t);
    assert Cqes(r.ops, d.backlog) == Cqes(d.ops, d.backlog);
  }

  /** A message: what it puts into this very ring, if that is its target, and then its own answer. The
      chain is left alone. */
  lemma MsgTells(c: Core, a: Addr, t: Attempt)
    requires InGrip(c, a) && LookedUp(OpAt(c, a).sqe, t.lookup) && OpAt(c, a).sqe.opcode == MsgRing
    ensures var d, r := Translate(c, a, t.lookup), RunHeld(c, a, t);
      && Flow(r) == Flow(c) + (if t.toSelf && !EmitDropped(d) then [t.msg] else [])
                    + Answers(OpAt(c, a), if t.verdict.Finished? then t.verdict.res else 0)
      && Aside(c, r) && r.chainFailed == c.chainFailed
  {
    var d := Translate(c, a, t.lookup);
    TranslateTells(c, a, t.lookup);
    EmitTells(d, a, t.msg);
    var e := if t.toSelf then Emit(d, t.msg) else d;
    PostTells(e, a, if t.verdict.Finished? then t.verdict.res else 0);
    assert Flow(d) + [] == Flow(d);
  }

  // ---- cancel ------------------------------------------------------------

  /** Of every op cancelled the caller is told so. */
  ghost predicate CancelledEach(c: Core, victims: seq<Addr>, said: seq<Cqe>) {
    |said| == |victims|
    && forall j | 0 <= j < |said| :: said[j].userData == OpAt(c, victims[j]).sqe.userData && said[j].res == -125
  }

  /** What a cancel aims by: POLL_REMOVE takes polls alone, and by user_data; ASYNC_CANCEL goes by the
      descriptor with CANCEL_FD and by user_data without. */
  ghost predicate WellAimed(c: Core, cancel: Sqe, victims: seq<Addr>) {
    forall j | 0 <= j < |victims| :: AimedAt(cancel, OpAt(c, victims[j]).sqe)
  }

  predicate AimedAt(cancel: Sqe, sqe: Sqe) {
    && (cancel.opcode == PollRemove ==> sqe.opcode == PollAdd)
    && (cancel.opcode == AsyncCancel && cancel.cancelFd ==> sqe.fd == cancel.fd)
    && (cancel.opcode == PollRemove || (cancel.opcode == AsyncCancel && !cancel.cancelFd) ==>
          sqe.userData == cancel.addr)
  }

  /** Every op on the three lists stays or is a victim, once. */
  ghost predicate StaysOrGoes(c: Core, r: Core, victims: seq<Addr>, x: Addr) {
    Cnt(c.waiting, x) + Cnt(c.queue, x) + Cnt(c.wq, x)
      == Cnt(r.waiting, x) + Cnt(r.queue, x) + Cnt(r.wq, x) + Cnt(victims, x)
  }

  /** From c to r exactly these ops were cancelled; what is in hand stays as it is. */
  ghost predicate Took(c: Core, r: Core, cancel: Sqe, victims: seq<Addr>, said: seq<Cqe>) {
    && Apart(r) && r.moves == [] && SameSqes(c, r)
    && Flow(r) == Flow(c) + said && CancelledEach(c, victims, said) && WellAimed(c, cancel, victims)
    && (forall x :: StaysOrGoes(c, r, victims, x))
    && (forall b | Loose(c, b) :: OpAt(r, b) == OpAt(c, b))
    && (forall b | Loose(c, b) && b !in victims :: Loose(r, b))
  }

  lemma TookNone(c: Core, cancel: Sqe)
    requires Apart(c) && c.moves == []
    ensures Took(c, c, cancel, [], [])
  {
    assert Flow(c) + [] == Flow(c);
  }

  lemma TookListed(c: Core, r: Core, cancel: Sqe, victims: seq<Addr>, said: seq<Cqe>, b: Addr)
    requires Took(c, r, cancel, victims, said) && Loose(c, b)
    ensures b !in victims && Loose(r, b)
  {
    assert StaysOrGoes(c, r, victims, b);
    CntIn(victims, b);
  }

  lemma TookThen(c: Core, p: Core, q: Core, cancel: Sqe, v: seq<Addr>, w: seq<Addr>, sv: seq<Cqe>, sw: seq<Cqe>)
    requires Took(c, p, cancel, v, sv) && Took(p, q, cancel, w, sw)
    ensures Took(c, q, cancel, v + w, sv + sw)
  {
    forall x ensures StaysOrGoes(c, q, v + w, x) {
      CntConcat(v, w, x);
      assert StaysOrGoes(c, p, v, x) && StaysOrGoes(p, q, w, x);
    }
    Assoc(Flow(c), sv, sw);
    forall b | Loose(c, b) ensures OpAt(q, b) == OpAt(c, b) && Loose(q, b) {
      TookListed(c, p, cancel, v, sv, b);
      TookListed(p, q, cancel, w, sw, b);
    }
  }

  lemma TargetTells(e: Core, t: Addr)
    requires InGrip(e, t)
    ensures var d := CancelTarget(e, t);
      && d.moves == [] && SameSqes(e, d) && |d.ops| == |e.ops| && (forall b | b != t :: OpAt(d, b) == OpAt(e, b))
      && Flow(d) == Flow(e) + [Cqe(OpAt(e, t).sqe.userData, -125, OpAt(e, t).cqeFlags)]
  {
    var f := CancelStanding(e, t);
    ApartSame(e, f);
    PostTells(f, t, -ECANCELED);
    PostMoves(f, t, -ECANCELED, CqeOf(OpAt(e, t)));
    PostFrame(f, t, -ECANCELED);
  }

  lemma CancelAtCounts(c: Core, w: Where, i: nat, x: Addr)
    requires i < |ListOf(c, w)|
    ensures StaysOrGoes(c, CancelAt(c, w, i), [ListOf(c, w)[i]], x)
  {
    CancelAtFrame(c, w, i);
    RemovedCnt(w, ListOf(c, w), i, x);
    var d := CancelAt(c, w, i);
    assert [ListOf(c, w)[i]][1..] == [];
    assert ListOf(c, InWaiting) == c.waiting && ListOf(c, InQueue) == c.queue && ListOf(c, AtWorker) == c.wq;
    assert ListOf(d, InWaiting) == d.waiting && ListOf(d, InQueue) == d.queue && ListOf(d, AtWorker) == d.wq;
  }

  lemma CancelAtTook(c: Core, cancel: Sqe, w: Where, i: nat)
    requires Apart(c) && c.moves == [] && i < |ListOf(c, w)| && Matches(c, cancel, ListOf(c, w)[i])
    ensures var t := ListOf(c, w)[i];
      Took(c, CancelAt(c, w, i), cancel, [t], [Cqe(OpAt(c, t).sqe.userData, -125, OpAt(c, t).cqeFlags)])
  {
    var d, t := CancelAt(c, w, i), ListOf(c, w)[i];
    TakeOutListed(c, w, i);
    TargetTells(TakeOut(c, w, i), t);
    forall x ensures Listed(d, x) == Listed(c, x) { CancelAtListed(c, w, i, x); }
    forall x ensures StaysOrGoes(c, d, [t], x) { CancelAtCounts(c, w, i, x); }
    CntIn(ListOf(c, w), t);
    assert Listed(c, t) > 0;
  }

  lemma {:induction false} ScanTook(c: Core, cancel: Sqe, all: bool, w: Where, i: nat)
    returns (victims: seq<Addr>, said: seq<Cqe>)
    requires Apart(c) && c.moves == []
    ensures var r := ScanFrom(c, cancel, all, w, i);
      Took(c, r.core, cancel, victims, said) && |victims| == r.count && (!all ==> r.count <= 1)
    decreases |ListOf(c, w)| - i
  {
    victims, said := [], [];
    if i >= |ListOf(c, w)| {
      TookNone(c, cancel);
    } else if !Matches(c, cancel, ListOf(c, w)[i]) {
      victims, said := ScanTook(c, cancel, all, w, i + 1);
    } else {
      victims, said := HitTook(c, cancel, all, w, i);
    }
  }

  lemma {:induction false} HitTook(c: Core, cancel: Sqe, all: bool, w: Where, i: nat)
    returns (victims: seq<Addr>, said: seq<Cqe>)
    requires Apart(c) && c.moves == [] && i < |ListOf(c, w)| && Matches(c, cancel, ListOf(c, w)[i])
    ensures var r := ScanFrom(c, cancel, all, w, i);
      Took(c, r.core, cancel, victims, said) && |victims| == r.count && (!all ==> r.count <= 1)
    decreases |ListOf(c, w)| - i, 0
  {
    var t, d := ListOf(c, w)[i], CancelAt(c, w, i);
    var cqe := Cqe(OpAt(c, t).sqe.userData, -125, OpAt(c, t).cqeFlags);
    ScanHit(c, cancel, all, w, i);
    CancelAtTook(c, cancel, w, i);
    CancelAtFrame(c, w, i);
    victims, said := [t], [cqe];
    if all {
      var more, rest := ScanTook(d, cancel, all, w, i);
      TookThen(c, d, ScanFrom(d, cancel, all, w, i).core, cancel, [t], more, [cqe], rest);
      victims, said := [t] + more, [cqe] + rest;
    }
  }

  /** The answer is the number of victims for ASYNC_CANCEL with CANCEL_ALL, 0 for a single one, and an
      error if there is none. */
  predicate CancelAnswer(c: Core, cancel: Sqe, n: nat, res: int) {
    if n == 0 then res == if c.blocking != NIL && c.blockedDone == NIL then -114 else -2
    else if cancel.opcode == AsyncCancel && cancel.cancelAll then res == n
    else n == 1 && res == 0
  }

  /** Whatever a cancel does: it takes nobody it does not aim at, everyone it takes is told -ECANCELED,
      and its answer says how many. */
  lemma CancelMatchingTells(c: Core, cancel: Sqe) returns (victims: seq<Addr>, said: seq<Cqe>)
    requires Apart(c) && c.moves == []
    ensures var m := CancelMatching(c, cancel);
      Took(c, m.core, cancel, victims, said) && CancelAnswer(c, cancel, |victims|, m.res)
  {
    var all := IsAll(cancel);
    var p := ScanFrom(c, cancel, all, InWaiting, 0);
    victims, said := ScanTook(c, cancel, all, InWaiting, 0);
    if p.count > 0 && !all { return; }
    var q := ScanFrom(p.core, cancel, all, InQueue, 0);
    var w, sw := ScanTook(p.core, cancel, all, InQueue, 0);
    TookThen(c, p.core, q.core, cancel, victims, w, said, sw);
    victims, said := victims + w, said + sw;
    if q.count > 0 && !all { return; }
    var r := ScanFrom(q.core, cancel, all, AtWorker, 0);
    w, sw := ScanTook(q.core, cancel, all, AtWorker, 0);
    TookThen(c, q.core, r.core, cancel, victims, w, said, sw);
    victims, said := victims + w, said + sw;
    CancelFails(c, cancel);
  }

  /** With CANCEL_ALL everyone it aims at goes. */
  lemma CancelAllTakes(c: Core, cancel: Sqe, x: Addr)
    requires cancel.opcode == AsyncCancel && cancel.cancelAll
    ensures var r := CancelMatching(c, cancel).core;
      var aimed := if cancel.cancelFd then OpAt(c, x).sqe.fd == cancel.fd else OpAt(c, x).sqe.userData == cancel.addr;
      && Cnt(r.waiting, x) == (if aimed then 0 else Cnt(c.waiting, x))
      && Cnt(r.queue, x) == (if aimed then 0 else Cnt(c.queue, x))
      && Cnt(r.wq, x) == (if aimed then 0 else Cnt(c.wq, x))
  {
    CancelAllExact(c, cancel, x);
    var r := CancelMatching(c, cancel).core;
    assert ListOf(r, InWaiting) == r.waiting && ListOf(r, InQueue) == r.queue && ListOf(r, AtWorker) == r.wq;
  }

  ghost predicate NoPoll(c: Core, userData: int, w: Where) {
    forall j | 0 <= j < |ListOf(c, w)| ::
      OpAt(c, ListOf(c, w)[j]).sqe.opcode != PollAdd || OpAt(c, ListOf(c, w)[j]).sqe.userData != userData
  }

  /** POLL_REMOVE finds nobody if and only if there is no poll with that user_data, whatever else has
      it. */
  lemma PollRemoveFinds(c: Core, cancel: Sqe)
    requires cancel.opcode == PollRemove
    ensures CancelMatching(c, cancel).res < 0 <==> forall w :: NoPoll(c, cancel.addr, w)
  {
    CancelFails(c, cancel);
    forall w ensures NoMatch(c, cancel, w) <==> NoPoll(c, cancel.addr, w) {
      assert forall j | 0 <= j < |ListOf(c, w)| :: Matches(c, cancel, ListOf(c, w)[j]) <==>
        OpAt(c, ListOf(c, w)[j]).sqe.opcode == PollAdd && OpAt(c, ListOf(c, w)[j]).sqe.userData == cancel.addr;
    }
  }

  /** A cancel in hand: its victims are told first, then its own answer comes. */
  lemma CancelTells(c: Core, a: Addr, t: Attempt) returns (victims: seq<Addr>, said: seq<Cqe>, res: int)
    requires InGrip(c, a) && LookedUp(OpAt(c, a).sqe, t.lookup) && IsCancel(OpAt(c, a).sqe)
    ensures var d, r := Translate(c, a, t.lookup), RunHeld(c, a, t);
      && Flow(r) == Flow(c) + said + Answers(OpAt(c, a), res)
      && CancelledEach(d, victims, said) && WellAimed(d, OpAt(d, a).sqe, victims)
      && CancelAnswer(c, OpAt(c, a).sqe, |victims|, res) && (forall x :: StaysOrGoes(c, r, victims, x))
      && (res < 0 && OpAt(c, a).sqe.link ==>
            r.chainFailed == if OpAt(c, a).sqe.skip then CancelsQuietly else Cancels)
  {
    var d := Translate(c, a, t.lookup);
    TranslateTells(c, a, t.lookup);
    var cancel := OpAt(d, a).sqe;
    victims, said := CancelMatchingTells(d, cancel);
    var m := CancelMatching(d, cancel);
    res := m.res;
    TookListed(d, m.core, cancel, victims, said, a);
    StandingTells(m.core, a, res);
    assert Flow(m.core) + [] == Flow(m.core);
    var r := RunHeld(c, a, t);
    forall x ensures StaysOrGoes(c, r, victims, x) { assert StaysOrGoes(d, m.core, victims, x); }
  }

  // ---- the wait ----------------------------------------------------------

  /** A ready op that is tried again: what it emits is said at once, its answer is handed on with exactly
      the attempt's result, and it is parked again if and only if it would block and the backend armed it. */
  lemma RetryTells(c: Core, a: Addr, t: Attempt)
    requires Apart(c) && c.moves == [] && a in c.waiting
    ensures var r := RetryOne(c, a, t);
      && Flow(r.core) == Flow(c) + (if t.verdict.FileOp? then []
                                    else Heard(Unpark(c, a), OpAt(c, a).sqe.userData, t.emits))
      && (match t.verdict
          case Finished(res) => r.done == [Done(a, res)]
          case FileOp => r.done == [Done(a, -95)]
          case WouldBlock(armed) => r.done == if armed then [] else [Done(a, -16)])
      && r.core.queue == c.queue && r.core.wq == c.wq && r.core.chainFailed == c.chainFailed
      && r.core.blocking == c.blocking && r.core.blockedDone == c.blockedDone
      && r.core.blockedFailed == c.blockedFailed && r.core.entries == c.entries && r.core.moves == []
  {
    UnparkListed(c, a);
    EmitAllTells(Unpark(c, a), a, t.emits);
    assert Flow(c) + [] == Flow(c);
  }

  ghost predicate FromEnv(done: seq<Done>, env: Addr -> Attempt) {
    forall j | 0 <= j < |done| :: AnswerFrom(done[j], env)
  }

  predicate AnswerFrom(d: Done, env: Addr -> Attempt) {
    match env(d.op).verdict
    case Finished(res) => d.res == res
    case FileOp => d.res == -95
    case WouldBlock(armed) => !armed && d.res == -16
  }

  /** Every answer handed on is the one of its own op's attempt. */
  lemma {:induction false} FinishReadyTells(c: Core, ready: seq<Addr>, max: nat, env: Addr -> Attempt, done: seq<Done>)
    requires FromEnv(done, env)
    ensures FromEnv(FinishReady(c, ready, max, env, done).done, env)
    decreases |ready|
  {
    if ready != [] && |done| < max {
      var r := RetryOne(c, ready[0], env(ready[0]));
      assert FromEnv(r.done, env);
      assert FromEnv(done + r.done, env);
      FinishReadyTells(r.core, ready[1..], max, env, done + r.done);
    }
  }

  /** The stall and the ticket stay as they are while ready ops are retried and completed, unless one of
      them is the op the queue stalls on. */
  ghost predicate Ticketing(c: Core, r: Core) {
    && r.blocking == c.blocking && r.blockedDone == c.blockedDone && r.blockedFailed == c.blockedFailed
    && r.queue == c.queue && r.entries == c.entries
  }

  lemma RetryTicketing(c: Core, a: Addr, t: Attempt)
    ensures Ticketing(c, RetryOne(c, a, t).core)
  {
    EmitAllFrame(Unpark(c, a), a, t.emits);
  }

  lemma {:induction false} FinishReadyTicketing(c: Core, ready: seq<Addr>, max: nat, env: Addr -> Attempt,
                                                 done: seq<Done>, b: Addr)
    requires b !in ready && forall j | 0 <= j < |done| :: done[j].op != b
    ensures var r := FinishReady(c, ready, max, env, done);
      Ticketing(c, r.core) && forall j | 0 <= j < |r.done| :: r.done[j].op != b
    decreases |ready|
  {
    if ready != [] && |done| < max {
      var r := RetryOne(c, ready[0], env(ready[0]));
      RetryTicketing(c, ready[0], env(ready[0]));
      FinishReadyTicketing(r.core, ready[1..], max, env, done + r.done, b);
    }
  }

  lemma {:induction false} CompleteTicketing(c: Core, done: seq<Done>)
    requires forall j | 0 <= j < |done| :: done[j].op != c.blocking
    ensures Ticketing(c, CompleteAll(c, done))
    decreases |done|
  {
    if done != [] {
      var d := CompleteStanding(c, done[0].op, done[0].res);
      PostFrame(d, done[0].op, done[0].res);
      CompleteTicketing(Complete(c, done[0].op, done[0].res), done[1..]);
    }
  }

  /** What every turn of the wait ends with, and what it does for a queue that stalls on an op whose
      ticket is up: the stall and the ticket are over, the op's failure is the chain's, and nothing of
      the queue has run meanwhile. */
  lemma WaitTells(c: Core, ready: seq<Addr>, env: Addr -> Attempt)
    ensures var r := WaitPass(c, ready, env);
      && (r.blockedDone == NIL || r.blockedDone != r.blocking)
      && (r.backlog == [] || |r.unread| >= r.entries)
      && (c.blocking != NIL && c.blockedDone == c.blocking && c.blocking !in ready ==>
            && r.blocking == NIL && r.blockedDone == NIL && r.queue == c.queue
            && (c.blockedFailed != Holds ==> r.chainFailed == c.blockedFailed && r.blockedFailed == Holds))
  {
    var p := FinishReady(c, ready, |c.ops|, env, []);
    var d := CompleteAll(p.core, p.done);
    DrainFacts(SettleStanding(RunQueue(d, env)));
    if c.blocking !in ready {
      FinishReadyTicketing(c, ready, |c.ops|, env, [], c.blocking);
      CompleteTicketing(p.core, p.done);
      assert c.blocking != NIL ==> RunQueue(d, env) == d;
    }
  }

  // ---- the worker --------------------------------------------------------

  /** The worker answers the op that waited longest, with what the call gave; for one the queue stalls on
      the ticket names it and says whether its chain failed. The submission side is left alone. */
  lemma WorkerTells(c: Core, res: int)
    requires Apart(c) && c.moves == [] && c.wq != []
    ensures var a, r := c.wq[0], WorkerTurn(c, res);
      var op := OpAt(c, a);
      && Flow(r) == Flow(c) + Answers(op, res) && r.wq == c.wq[1..]
      && r.queue == c.queue && r.waiting == c.waiting && r.blocking == c.blocking && r.chainFailed == c.chainFailed
      && (if op.stallsQueue
          then r.blockedDone == a
            && r.blockedFailed == (if res >= 0 then Holds else if op.sqe.skip then CancelsQuietly else Cancels)
          else r.blockedDone == c.blockedDone && r.blockedFailed == c.blockedFailed)
  {
    var a, d := c.wq[0], WorkerTake(c);
    TakeListed(c);
    var e := if OpAt(d, a).stallsQueue then Ticket(d, a, res) else d;
    ApartSame(d, e);
    PostTells(e, a, res);
  }
}
