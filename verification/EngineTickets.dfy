/** The stall: at most one linked op is out at a time, `blocking` and the worker's ticket
    name it soundly although slots are reused, and the queue is taken apart in submission
    order. */
module EngineTickets {
  import opened Lists
  import opened EngineCore
  import opened EngineSystem
  import opened EngineOwnership

  // ---- submission order --------------------------------------------------

  function PendSeq(s: System): seq<Addr> {
    s.core.queue + if s.pc.Intake? then s.pc.batch else []
  }

  function Serials(s: System, q: seq<Addr>): (r: seq<int>)
    ensures |r| == |q|
    ensures forall i {:trigger r[i]} | 0 <= i < |q| :: r[i] == SerialAt(s, q[i])
  {
    seq(|q|, i requires 0 <= i < |q| => SerialAt(s, q[i]))
  }

  /** Submissions in the order the queue gave or will give them up. */
  function Stream(s: System): seq<int> {
    s.order + Serials(s, PendSeq(s))
  }

  ghost predicate Increasing(q: seq<int>) {
    forall i, j | 0 <= i < j < |q| :: q[i] < q[j]
  }

  ghost predicate Ordered(s: System) {
    Increasing(Stream(s)) && Within(Stream(s), |s.hist|)
  }

  lemma SerialsSame(s: System, t: System, q: seq<Addr>)
    requires forall i | 0 <= i < |q| :: SerialAt(t, q[i]) == SerialAt(s, q[i])
    ensures Serials(t, q) == Serials(s, q)
  {
  }

  lemma StreamSame(s: System, t: System)
    requires t.serialOf == s.serialOf && t.order == s.order && PendSeq(t) == PendSeq(s)
    ensures Stream(t) == Stream(s)
  {
    assert Serials(t, PendSeq(t)) == Serials(s, PendSeq(s));
  }

  lemma PendSeqLive(s: System, i: int)
    requires 0 <= i < |PendSeq(s)|
    ensures PendCnt(s, PendSeq(s)[i]) > 0
  {
    var x := PendSeq(s)[i];
    CntIn(s.core.queue, x);
    if s.pc.Intake? { CntIn(s.pc.batch, x); }
  }

  lemma TakeSqeStream(s: System, sqe: Sqe)
    requires Owned(s) && Ordered(s) && s.pc.Intake? && s.core.free != []
    ensures Ordered(DoTakeSqe(s, sqe))
    ensures Stream(DoTakeSqe(s, sqe)) == Stream(s) + [|s.hist|]
  {
    var t := DoTakeSqe(s, sqe);
    var a := s.core.free[0];
    assert Cnt(s.core.free, a) > 0;
    assert Places(s, a) == if 0 <= a < |s.core.ops| then 1 else 0;
    forall i | 0 <= i < |PendSeq(s)|
      ensures SerialAt(t, PendSeq(s)[i]) == SerialAt(s, PendSeq(s)[i])
    {
      PendSeqLive(s, i);
    }
    SerialsSame(s, t, PendSeq(s));
    assert PendSeq(t) == PendSeq(s) + [a];
    assert Serials(t, PendSeq(t)) == Serials(t, PendSeq(s)) + [|s.hist|];
    assert Stream(t) == Stream(s) + [|s.hist|];
  }

  /** The front of the queue joins the order. */
  lemma DequeueStream(s: System, t: System)
    requires s.core.queue != [] && !s.pc.Intake? && !t.pc.Intake?
    requires t.serialOf == s.serialOf && t.core.queue == s.core.queue[1..]
    requires t.order == s.order + [SerialAt(s, s.core.queue[0])]
    ensures Stream(t) == Stream(s)
  {
    var q := PendSeq(s);
    assert PendSeq(t) == q[1..];
    assert Serials(s, q) == [SerialAt(s, q[0])] + Serials(t, q[1..]);
  }

  ghost predicate Within(q: seq<int>, n: nat) {
    forall i | 0 <= i < |q| :: 0 <= q[i] < n
  }

  lemma DropOne(o: seq<int>, w: seq<int>, i: nat, n: nat)
    requires i < |w| && Increasing(o + w) && Within(o + w, n)
    ensures Increasing(o + (w[..i] + w[i + 1..])) && Within(o + (w[..i] + w[i + 1..]), n)
  {
    var u, v := o + w, o + (w[..i] + w[i + 1..]);
    assert forall j | 0 <= j < |v| :: v[j] == u[if j < |o| + i then j else j + 1];
  }

  lemma SerialsWithout(s: System, q: seq<Addr>, x: Addr)
    requires x in q
    ensures var i := IndexOf(q, x); Serials(s, Without(q, x)) == Serials(s, q)[..i] + Serials(s, q)[i + 1..]
  {
  }

  lemma CancelQueuedStream(s: System, t: System, x: Addr)
    requires Ordered(s) && x in s.core.queue && !s.pc.Intake? && t.pc == s.pc
    requires t.serialOf == s.serialOf && t.order == s.order && |t.hist| == |s.hist|
    requires t.core.queue == Without(s.core.queue, x)
    ensures Ordered(t)
  {
    assert PendSeq(s) == s.core.queue && PendSeq(t) == t.core.queue;
    SerialsWithout(s, s.core.queue, x);
    SerialsSame(s, t, t.core.queue);
    DropOne(s.order, Serials(s, s.core.queue), IndexOf(s.core.queue, x), |s.hist|);
  }

  // ---- the stall ---------------------------------------------------------

  function Last(s: System): int {
    if s.order == [] then -1 else s.order[|s.order| - 1]
  }

  predicate Link(s: System, x: Addr) {
    OpAt(s.core, x).sqe.link
  }

  /** The worker has the result of the op in slot x and has raised the ticket for it. */
  predicate Told(s: System, x: Addr) {
    s.worker.WTicketed? && s.worker.op == x
  }

  /** The op the queue waits for; between handing it over and noting so, it waits in the pc. */
  function StalledOn(s: System): Addr {
    if s.pc.Handed? && s.pc.linked then s.pc.op else s.core.blocking
  }

  ghost predicate LinkedOut(s: System, x: Addr) {
    OutCnt(s, x) > 0 && Link(s, x) && !Told(s, x)
  }

  /** At most one linked op is out, and it is the last one taken off the queue. */
  ghost predicate LastLinked(s: System) {
    forall x | LinkedOut(s, x) || s.pc == Holding(x) :: SerialAt(s, x) == Last(s)
  }

  ghost predicate NoStall(s: System) {
    StalledOn(s) == NIL ==>
      s.core.blockedDone == NIL && forall x | LinkedOut(s, x) :: s.pc == Holding(x)
  }

  function Outcome(e: Entry, res: int): Chain {
    if res < 0 then (if e.skip then CancelsQuietly else Cancels) else Holds
  }

  /** `a` names the submission k: its slot while it is unanswered, and once the worker
      answered it a ticket that is raised, whatever the slot holds by then. */
  ghost predicate TicketFits(s: System, a: Addr, k: int) {
    && 0 <= k < |s.hist| && s.hist[k].link && !s.pc.Holding?
    && match s.hist[k].fate
       case InFlight(b) =>
         && b == a && OutCnt(s, a) > 0
         && (if Told(s, a)
             then s.core.blockedDone == a && s.core.blockedFailed == Outcome(s.hist[k], s.worker.res)
             else s.core.blockedDone == NIL)
       case Ran(res) =>
         OutCnt(s, a) == 0 && s.core.blockedDone == a && s.core.blockedFailed == Outcome(s.hist[k], res)
       case ChainCancelled(_) => false
  }

  ghost predicate OneStall(s: System) {
    StalledOn(s) != NIL ==> TicketFits(s, StalledOn(s), Last(s))
  }

  ghost predicate PcFree(s: System) {
    s.pc.Holding? || s.pc.Handed? ==> s.core.blocking == NIL
  }

  /** An op stalls the queue exactly when it is linked and went to the worker. */
  ghost predicate Flagged(s: System) {
    forall x | LiveCnt(s, x) > 0 ::
      OpAt(s.core, x).stallsQueue == (Link(s, x) && Cnt(s.core.wq, x) + WorkCnt(s.worker, x) > 0)
  }

  ghost predicate Ticketed(s: System) {
    LastLinked(s) && NoStall(s) && OneStall(s) && PcFree(s)
  }

  // ---- steps that leave the stall alone ----------------------------------

  ghost predicate QuietAt(s: System, t: System, x: Addr) {
    && OutCnt(t, x) <= OutCnt(s, x)
    && (OutCnt(s, x) > 0 && Link(s, x) ==> OutCnt(t, x) == OutCnt(s, x))
    && (OutCnt(t, x) > 0 ==> Link(t, x) == Link(s, x) && SerialAt(t, x) == SerialAt(s, x))
  }

  ghost predicate Undisturbed(s: System, t: System) {
    && t.order == s.order && StalledOn(t) == StalledOn(s) && PcFree(t)
    && t.core.blockedDone == s.core.blockedDone && t.core.blockedFailed == s.core.blockedFailed
    && (t.worker == s.worker || (!t.worker.WTicketed? && !s.worker.WTicketed?))
    && (0 <= Last(s) < |s.hist| && s.hist[Last(s)].link ==>
          Last(s) < |t.hist| && t.hist[Last(s)] == s.hist[Last(s)])
    && (t.pc.Holding? ==> t.pc == s.pc)
    && (s.pc.Holding? ==> t.pc == s.pc || !Link(s, s.pc.op))
    && (forall x :: QuietAt(s, t, x))
  }

  lemma TicketsKept(s: System, t: System)
    requires Tracking(s) && Ticketed(s) && Undisturbed(s, t)
    ensures Ticketed(t)
  {
    forall x | LinkedOut(t, x)
      ensures LinkedOut(s, x) && SerialAt(t, x) == SerialAt(s, x)
    {
      assert QuietAt(s, t, x);
    }
    if t.pc.Holding? { assert QuietAt(s, t, t.pc.op); }
    if StalledOn(s) != NIL {
      var a := StalledOn(s);
      assert QuietAt(s, t, a);
      if s.hist[Last(s)].fate.InFlight? { assert Tracked(s, a); }
    }
  }

  ghost predicate SameFlagAt(s: System, t: System, x: Addr) {
    LiveCnt(t, x) > 0 ==>
      && LiveCnt(s, x) > 0 && Link(t, x) == Link(s, x)
      && OpAt(t.core, x).stallsQueue == OpAt(s.core, x).stallsQueue
      && Cnt(t.core.wq, x) + WorkCnt(t.worker, x) == Cnt(s.core.wq, x) + WorkCnt(s.worker, x)
  }

  lemma FlaggedKept(s: System, t: System)
    requires Flagged(s) && forall x :: SameFlagAt(s, t, x)
    ensures Flagged(t)
  {
    forall x | LiveCnt(t, x) > 0
      ensures OpAt(t.core, x).stallsQueue == (Link(t, x) && Cnt(t.core.wq, x) + WorkCnt(t.worker, x) > 0)
    {
      assert SameFlagAt(s, t, x);
    }
  }

  /** What is out was taken off the queue. */
  ghost predicate OutDequeued(s: System) {
    forall x | OutCnt(s, x) > 0 :: SerialAt(s, x) in s.order
  }

  ghost predicate Sound(s: System) {
    Owned(s) && Ordered(s) && OutDequeued(s) && Ticketed(s) && Flagged(s)
  }

  /** All a step has to show when it leaves the stall alone. */
  ghost predicate QuietStep(s: System, t: System) {
    && Undisturbed(s, t) && PendSeq(t) == PendSeq(s) && t.serialOf == s.serialOf
    && |t.hist| == |s.hist|
    && (forall x :: SameFlagAt(s, t, x))
  }

  lemma QuietSound(s: System, t: System)
    requires Sound(s) && Owned(t) && QuietStep(s, t)
    ensures Sound(t)
  {
    TicketsKept(s, t);
    StreamSame(s, t);
    FlaggedKept(s, t);
    forall x | OutCnt(t, x) > 0
      ensures SerialAt(t, x) in t.order
    {
      assert QuietAt(s, t, x);
    }
  }

  lemma EmittedQuiet(s: System, serial: int, cqe: Cqe, x: Addr)
    requires Owned(s)
    ensures QuietAt(s, Emitted(s, serial, cqe), x) && SameFlagAt(s, Emitted(s, serial, cqe), x)
  {
    EmittedShift(s, serial, cqe, x);
    DrainFacts(s.core);
    if LiveCnt(s, x) > 0 { LiveNotIdle(s, x); EmitKeeps(s.core, cqe, x); }
  }

  lemma EmittedSound(s: System, serial: int, cqe: Cqe)
    requires Sound(s)
    ensures Sound(Emitted(s, serial, cqe))
  {
    var t := Emitted(s, serial, cqe);
    EmitFrame(s.core, cqe);
    forall x ensures QuietAt(s, t, x) && SameFlagAt(s, t, x) { EmittedQuiet(s, serial, cqe, x); }
    EmittedOwned(s, serial, cqe);
    QuietSound(s, t);
  }

  /** The op in the submitter's hand, if linked, is the last one and nothing stalls. */
  lemma HeldFacts(s: System)
    requires Sound(s) && s.pc.Holding?
    ensures StalledOn(s) == NIL && s.core.blockedDone == NIL && s.core.blocking == NIL
    ensures forall x | LinkedOut(s, x) :: x == s.pc.op
    ensures Cnt(s.core.wq, s.pc.op) == 0 && WorkCnt(s.worker, s.pc.op) == 0
    ensures Cnt(s.core.waiting, s.pc.op) == 0 && PendCnt(s, s.pc.op) == 0
  {
    assert Places(s, s.pc.op) <= 1;
  }

  /** The held op is answered. */
  lemma AnsweredSound(s: System, t: System)
    requires Sound(s) && s.pc.Holding? && Owned(t)
    requires t.pc == Running && StalledOn(t) == NIL && t.core.blockedDone == NIL
    requires t.worker == s.worker && t.order == s.order && t.serialOf == s.serialOf
    requires PendSeq(t) == PendSeq(s) && |t.hist| == |s.hist|
    requires forall x :: OutCnt(t, x) == OutCnt(s, x) - One(x, s.pc.op) && SameFlagAt(s, t, x)
    ensures Sound(t)
  {
    HeldFacts(s);
    StreamSame(s, t);
    forall x | OutCnt(t, x) > 0
      ensures OutCnt(s, x) > 0 && SameFlagAt(s, t, x) && x != s.pc.op && SerialAt(t, x) in t.order
    {
      assert Places(s, x) <= 1;
      assert OutCnt(t, x) == OutCnt(s, x) - One(x, s.pc.op);
      assert SameFlagAt(s, t, x);
    }
    FlaggedKept(s, t);
    assert forall x | LinkedOut(t, x) :: LinkedOut(s, x);
  }

  /** The held op is posted: every other slot keeps its flags. */
  lemma HeldPosted(s: System, t: System, c: Core, res: int, x: Addr)
    requires Owned(s) && s.pc.Holding?
    requires c == s.core.(chainFailed := c.chainFailed)
    requires t.core == Post(c, s.pc.op, res) && t.pc == Running && t.worker == s.worker
    ensures OutCnt(t, x) == OutCnt(s, x) - One(x, s.pc.op) && SameFlagAt(s, t, x)
    ensures SameSubmission(c, t.core)
  {
    PostFrame(c, s.pc.op, res);
    PostIdle(c, s.pc.op, res, x);
    if x != s.pc.op { PostKeeps(c, s.pc.op, res, x); }
    assert Places(s, s.pc.op) <= 1;
  }

  lemma LookupFailsSound(s: System, realfd: int)
    requires Sound(s) && CanLookup(s) && realfd < 0
    ensures Sound(DoLookup(s, realfd))
  {
    var t := DoLookup(s, realfd);
    var c := Standing(s.core, s.pc.op, -EBADF);
    LookupOwned(s, realfd);
    HeldFacts(s);
    forall x ensures OutCnt(t, x) == OutCnt(s, x) - One(x, s.pc.op) && SameFlagAt(s, t, x) {
      HeldPosted(s, t, c, -EBADF, x);
    }
    HeldPosted(s, t, c, -EBADF, NIL);
    AnsweredSound(s, t);
  }

  lemma TranslateSound(s: System, realfd: int)
    requires Sound(s) && CanLookup(s) && realfd >= 0
    ensures Sound(DoLookup(s, realfd))
  {
    var t := DoLookup(s, realfd);
    LookupOwned(s, realfd);
    forall x ensures QuietAt(s, t, x) && SameFlagAt(s, t, x) { TranslatedSlot(s, realfd, x); }
    QuietSound(s, t);
  }

  lemma TranslatedSlot(s: System, realfd: int, x: Addr)
    requires CanLookup(s) && realfd >= 0
    ensures QuietAt(s, DoLookup(s, realfd), x) && SameFlagAt(s, DoLookup(s, realfd), x)
  {
  }

  lemma FinishSound(s: System, res: int)
    requires Sound(s) && Executing(s)
    ensures Sound(DoFinish(s, res))
  {
    var t := DoFinish(s, res);
    var c := AnswerStanding(s.core, s.pc.op, res);
    FinishOwned(s, res);
    HeldFacts(s);
    forall x ensures OutCnt(t, x) == OutCnt(s, x) - One(x, s.pc.op) && SameFlagAt(s, t, x) {
      HeldPosted(s, t, c, res, x);
    }
    HeldPosted(s, t, c, res, NIL);
    AnsweredSound(s, t);
  }

  /** The held op is parked or handed over: if linked, the queue stalls on it. */
  lemma PendedSound(s: System, t: System)
    requires Sound(s) && s.pc.Holding? && Owned(t)
    requires t.pc.Running? || t.pc.Handed?
    requires StalledOn(t) == (if Link(s, s.pc.op) then s.pc.op else NIL) && t.core.blockedDone == NIL && PcFree(t)
    requires t.worker == s.worker && t.order == s.order && t.serialOf == s.serialOf
    requires PendSeq(t) == PendSeq(s) && t.hist == s.hist
    requires forall x :: OutCnt(t, x) == OutCnt(s, x) && (LiveCnt(s, x) > 0 ==> Link(t, x) == Link(s, x))
    requires Flagged(t)
    ensures Sound(t)
  {
    var a := s.pc.op;
    HeldFacts(s);
    HeldIsLive(s);
    StreamSame(s, t);
    forall x | OutCnt(t, x) > 0
      ensures OutCnt(s, x) > 0 && SerialAt(t, x) in t.order
    {
      assert OutCnt(t, x) == OutCnt(s, x);
    }
    assert forall x | LinkedOut(t, x) :: LinkedOut(s, x);
    if Link(s, a) {
      assert LinkedOut(s, a) && SerialAt(s, a) == Last(s);
      assert Tracked(s, a) && OutCnt(t, a) == OutCnt(s, a);
    }
  }

  lemma ParkSound(s: System)
    requires Sound(s) && Pendable(s)
    ensures Sound(DoPark(s))
  {
    var t := DoPark(s);
    ParkOwned(s);
    HeldFacts(s);
    HeldIsLive(s);
    forall x ensures OutCnt(t, x) == OutCnt(s, x) { ParkShift(s, x); }
    PendedSound(s, t);
  }

  lemma HandOffSound(s: System)
    requires Sound(s) && Pendable(s)
    ensures Sound(DoHandOff(s))
  {
    var t := DoHandOff(s);
    var a := s.pc.op;
    HandOffOwned(s);
    HeldFacts(s);
    HeldIsLive(s);
    forall x ensures OutCnt(t, x) == OutCnt(s, x) && FlagRight(t, x) { HandOffSlot(s, x); }
    assert Flagged(t) by { assert forall x | LiveCnt(t, x) > 0 :: FlagRight(t, x); }
    PendedSound(s, t);
  }

  lemma HandOffSlot(s: System, x: Addr)
    requires Sound(s) && Pendable(s)
    ensures OutCnt(DoHandOff(s), x) == OutCnt(s, x) && FlagRight(DoHandOff(s), x)
  {
    HeldFacts(s);
    HeldIsLive(s);
    HandOffShift(s, x);
    CntSnoc(s.core.wq, s.pc.op, x);
  }

  lemma NoteStallQuiet(s: System, t: System, x: Addr)
    requires s.pc.Handed? && t == s.(pc := Running, core := s.core.(blocking := t.core.blocking))
    ensures QuietAt(s, t, x) && SameFlagAt(s, t, x)
  {
  }

  lemma NoteStallSound(s: System)
    requires Sound(s) && s.pc.Handed?
    ensures Sound(DoNoteStall(s))
  {
    var t := DoNoteStall(s);
    NoteStallOwned(s);
    assert t.core == s.core.(blocking := t.core.blocking) && t.pc == Running;
    forall x ensures QuietAt(s, t, x) && SameFlagAt(s, t, x) { NoteStallQuiet(s, t, x); }
    QuietSound(s, t);
  }

  // ---- the queue ---------------------------------------------------------

  lemma TakeSqeSound(s: System, sqe: Sqe)
    requires Sound(s) && s.pc.Intake? && s.core.free != []
    ensures Sound(DoTakeSqe(s, sqe))
  {
    var t := DoTakeSqe(s, sqe);
    TakeSqeOwned(s, sqe);
    TakeSqeStream(s, sqe);
    assert Last(s) < |s.hist| by { if s.order != [] { assert Last(s) == Stream(s)[|s.order| - 1]; } }
    forall x ensures QuietAt(s, t, x) && OutOrdered(t, x) && FlagRight(t, x) { TakeSqeSlot(s, sqe, x); }
    TicketsKept(s, t);
    assert forall x | LiveCnt(t, x) > 0 :: FlagRight(t, x);
    assert forall x | OutCnt(t, x) > 0 :: OutOrdered(t, x);
  }

  ghost predicate OutOrdered(s: System, x: Addr) {
    OutCnt(s, x) > 0 ==> SerialAt(s, x) in s.order
  }

  ghost predicate FlagRight(s: System, x: Addr) {
    LiveCnt(s, x) > 0 ==>
      OpAt(s.core, x).stallsQueue == (Link(s, x) && Cnt(s.core.wq, x) + WorkCnt(s.worker, x) > 0)
  }

  lemma TakeSqeSlot(s: System, sqe: Sqe, x: Addr)
    requires Sound(s) && s.pc.Intake? && s.core.free != []
    ensures var t := DoTakeSqe(s, sqe); QuietAt(s, t, x) && OutOrdered(t, x) && FlagRight(t, x)
  {
    TakeSqeGrows(s, sqe, x);
    TakeSqeShift(s, sqe, x);
  }

  lemma SubmitSound(s: System)
    requires Sound(s) && s.pc.Intake?
    ensures Sound(DoSubmit(s))
  {
    var t := DoSubmit(s);
    SubmitOwned(s);
    forall x ensures QuietAt(s, t, x) && SameFlagAt(s, t, x) { SubmitShift(s, x); }
    assert PendSeq(t) == PendSeq(s);
    QuietSound(s, t);
  }

  lemma RunningFacts(s: System)
    requires Sound(s) && s.pc.Running? && QueueRuns(s.core)
    ensures StalledOn(s) == NIL && s.core.blockedDone == NIL
    ensures forall x :: !LinkedOut(s, x)
    ensures PendCnt(s, s.core.queue[0]) > 0 && OutCnt(s, s.core.queue[0]) == 0
    ensures Link(s, s.core.queue[0]) ==> 0 <= SerialAt(s, s.core.queue[0]) < |s.hist|
  {
    assert Cnt(s.core.queue, s.core.queue[0]) > 0;
    assert Places(s, s.core.queue[0]) <= 1;
    assert Tracked(s, s.core.queue[0]);
  }

  /** The front of the queue is taken: nothing linked was out before. */
  lemma FrontSound(s: System, t: System)
    requires Sound(s) && s.pc.Running? && QueueRuns(s.core) && Owned(t)
    requires t.pc == Running || t.pc == Holding(s.core.queue[0])
    requires t.serialOf == s.serialOf && t.core.queue == s.core.queue[1..] && t.worker == s.worker
    requires t.order == s.order + [SerialAt(s, s.core.queue[0])] && |t.hist| == |s.hist|
    requires t.core.blocking == NIL && t.core.blockedDone == s.core.blockedDone
    requires forall x :: OutCnt(t, x) == OutCnt(s, x) + (if t.pc.Holding? then One(x, s.core.queue[0]) else 0)
    requires forall x :: SameFlagAt(s, t, x)
    ensures Sound(t)
  {
    RunningFacts(s);
    DequeueStream(s, t);
    forall x | OutCnt(t, x) > 0
      ensures SerialAt(t, x) in t.order
      ensures LinkedOut(t, x) ==> t.pc == Holding(x) && SerialAt(t, x) == Last(t)
    {
      assert SameFlagAt(s, t, x);
      assert OutCnt(t, x) == OutCnt(s, x) + (if t.pc.Holding? then One(x, s.core.queue[0]) else 0);
      assert !LinkedOut(s, x);
    }
    FlaggedKept(s, t);
  }

  lemma DequeueSound(s: System)
    requires Sound(s) && CanDequeue(s)
    ensures Sound(DoDequeue(s))
  {
    var t := DoDequeue(s);
    DequeueOwned(s);
    forall x ensures OutCnt(t, x) == OutCnt(s, x) + One(x, s.core.queue[0]) && SameFlagAt(s, t, x) {
      DequeueShift(s, x);
    }
    FrontSound(s, t);
  }

  lemma CancelChainedSlot(s: System, x: Addr)
    requires Owned(s) && CanCancelChained(s)
    ensures OutCnt(DoCancelChained(s), x) == OutCnt(s, x) && SameFlagAt(s, DoCancelChained(s), x)
    ensures var d := DoCancelChained(s).core;
      d.queue == s.core.queue[1..] && d.blocking == s.core.blocking && d.blockedDone == s.core.blockedDone
  {
    var a := s.core.queue[0];
    CancelChainedShift(s, x);
    PostFrame(Pop(s.core), a, -ECANCELED);
    if x != a { PostKeeps(Pop(s.core), a, -ECANCELED, x); }
    assert Places(s, a) <= 1;
  }

  lemma CancelChainedSound(s: System)
    requires Sound(s) && CanCancelChained(s)
    ensures Sound(DoCancelChained(s))
  {
    var t := DoCancelChained(s);
    CancelChainedOwned(s);
    forall x ensures OutCnt(t, x) == OutCnt(s, x) && SameFlagAt(s, t, x) { CancelChainedSlot(s, x); }
    CancelChainedSlot(s, NIL);
    RunningFacts(s);
    FrontSound(s, t);
  }

  // ---- cancel ------------------------------------------------------------

  /** What a cancel finds parked or at the worker is never linked, and nothing stalls. */
  lemma CancelFindsUnlinked(s: System, t: Addr)
    requires Sound(s) && s.pc.Holding? && (t in s.core.waiting || t in s.core.wq)
    ensures !Link(s, t) && t != s.core.blocking && OutCnt(s, t) == 1 && t != s.pc.op
  {
    CntIn(s.core.waiting, t);
    CntIn(s.core.wq, t);
    HeldFacts(s);
    assert Places(s, t) <= 1;
    LiveNotIdle(s, t);
    assert LinkedOut(s, t) == Link(s, t);
  }

  lemma CancelTargetSlot(s: System, c: Core, t: Addr, x: Addr)
    requires c.ops == s.core.ops
    ensures var d := CancelTarget(c, t);
      && (x != t ==> OpAt(d, x) == OpAt(s.core, x))
      && d.queue == c.queue && d.wq == c.wq && d.blockedDone == c.blockedDone && d.blockedFailed == c.blockedFailed
      && (t != c.blocking ==> d.blocking == c.blocking)
  {
    var d := CancelStanding(c, t);
    PostFrame(d, t, -ECANCELED);
    if x != t { PostKeeps(d, t, -ECANCELED, x); }
  }

  lemma CancelOutSound(s: System, c: Core, t: Addr)
    requires Sound(s) && s.pc.Holding? && (t in s.core.waiting || t in s.core.wq)
    requires c == s.core.(waiting := c.waiting, wq := c.wq)
    requires forall x :: OutCnt(Answered(s, CancelTarget(c, t), t, -ECANCELED), x) == OutCnt(s, x) - One(x, t)
    requires forall x | x != t :: Cnt(c.wq, x) == Cnt(s.core.wq, x)
    requires Owned(Answered(s, CancelTarget(c, t), t, -ECANCELED))
    ensures Sound(Answered(s, CancelTarget(c, t), t, -ECANCELED))
  {
    var u := Answered(s, CancelTarget(c, t), t, -ECANCELED);
    CancelFindsUnlinked(s, t);
    HeldFacts(s);
    CancelTargetSlot(s, c, t, NIL);
    assert Tracked(s, t);
    forall x ensures QuietAt(s, u, x) && SameFlagAt(s, u, x) {
      assert OutCnt(u, x) == OutCnt(s, x) - One(x, t);
      CancelOutSlot(s, c, t, x);
    }
    QuietSound(s, u);
  }

  lemma CancelOutSlot(s: System, c: Core, t: Addr, x: Addr)
    requires Sound(s) && OutCnt(s, t) > 0 && !Link(s, t)
    requires c == s.core.(waiting := c.waiting, wq := c.wq) && (x != t ==> Cnt(c.wq, x) == Cnt(s.core.wq, x))
    requires var u := Answered(s, CancelTarget(c, t), t, -ECANCELED); OutCnt(u, x) == OutCnt(s, x) - One(x, t)
    ensures var u := Answered(s, CancelTarget(c, t), t, -ECANCELED); QuietAt(s, u, x) && SameFlagAt(s, u, x)
  {
    CancelTargetSlot(s, c, t, x);
    assert Places(s, x) <= 1;
  }

  lemma CancelParkedSound(s: System, t: Addr)
    requires Sound(s) && s.pc.Holding? && t in s.core.waiting
    ensures Sound(DoCancelParked(s, t))
  {
    CancelParkedOwned(s, t);
    forall x ensures OutCnt(DoCancelParked(s, t), x) == OutCnt(s, x) - One(x, t) { CancelParkedShift(s, t, x); }
    CancelOutSound(s, Unpark(s.core, t), t);
  }

  lemma CancelAtWorkerSound(s: System, t: Addr)
    requires Sound(s) && s.pc.Holding? && t in s.core.wq
    ensures Sound(DoCancelAtWorker(s, t))
  {
    CancelAtWorkerOwned(s, t);
    forall x ensures OutCnt(DoCancelAtWorker(s, t), x) == OutCnt(s, x) - One(x, t) {
      CancelAtWorkerShift(s, t, x);
    }
    forall x | x != t ensures Cnt(Without(s.core.wq, t), x) == Cnt(s.core.wq, x) { CntWithout(s.core.wq, t, x); }
    CancelOutSound(s, s.core.(wq := Without(s.core.wq, t)), t);
  }

  lemma CancelQueuedSound(s: System, t: Addr)
    requires Sound(s) && s.pc.Holding? && t in s.core.queue
    ensures Sound(DoCancelQueued(s, t))
  {
    var c := s.core.(queue := Without(s.core.queue, t));
    var u := DoCancelQueued(s, t);
    CntIn(s.core.queue, t);
    CancelQueuedOwned(s, t);
    HeldFacts(s);
    LiveNotIdle(s, t);
    CancelTargetSlot(s, c, t, NIL);
    CancelQueuedStream(s, u, t);
    assert Tracked(s, t);
    forall x ensures QuietAt(s, u, x) && SameFlagAt(s, u, x) { CancelQueuedSlot(s, t, x); }
    QuietTickets(s, u);
  }

  lemma CancelQueuedSlot(s: System, t: Addr, x: Addr)
    requires Sound(s) && t in s.core.queue
    ensures QuietAt(s, DoCancelQueued(s, t), x) && SameFlagAt(s, DoCancelQueued(s, t), x)
  {
    CntIn(s.core.queue, t);
    CancelQueuedShift(s, t, x);
    CancelTargetSlot(s, s.core.(queue := Without(s.core.queue, t)), t, x);
    assert Places(s, x) <= 1;
  }

  /** The parts of QuietSound that do not need the queue to stay. */
  lemma QuietTickets(s: System, u: System)
    requires Sound(s) && Owned(u) && Ordered(u) && s.pc.Holding? && u.pc == s.pc
    requires u.order == s.order && u.serialOf == s.serialOf && u.worker == s.worker
    requires u.core.blocking == s.core.blocking && u.core.blockedDone == s.core.blockedDone
    requires forall x :: QuietAt(s, u, x) && SameFlagAt(s, u, x)
    ensures Sound(u)
  {
    HeldFacts(s);
    FlaggedKept(s, u);
    forall x | OutCnt(u, x) > 0
      ensures SerialAt(u, x) in u.order
      ensures LinkedOut(u, x) ==> LinkedOut(s, x)
    {
      assert QuietAt(s, u, x);
    }
  }

  // ---- the wait ----------------------------------------------------------

  lemma UnparkSound(s: System)
    requires Sound(s) && s.pc.Retrying? && s.pc.ready != []
    ensures Sound(DoUnpark(s))
  {
    UnparkOwned(s);
    forall x ensures QuietAt(s, DoUnpark(s), x) && SameFlagAt(s, DoUnpark(s), x) { UnparkShift(s, x); }
    QuietSound(s, DoUnpark(s));
  }

  lemma RetryAnswerSound(s: System, res: int)
    requires Sound(s) && s.pc.Retry?
    ensures Sound(DoRetryAnswer(s, res))
  {
    RetryAnswerOwned(s, res);
    forall x ensures QuietAt(s, DoRetryAnswer(s, res), x) && SameFlagAt(s, DoRetryAnswer(s, res), x) {
      RetryAnswerShift(s, res, x);
    }
    QuietSound(s, DoRetryAnswer(s, res));
  }

  lemma ReparkSound(s: System)
    requires Sound(s) && s.pc.Retry?
    ensures Sound(DoRepark(s))
  {
    ReparkOwned(s);
    forall x ensures QuietAt(s, DoRepark(s), x) && SameFlagAt(s, DoRepark(s), x) { ReparkShift(s, x); }
    QuietSound(s, DoRepark(s));
  }

  /** `complete` compares a pointer with `blocking`: they are equal exactly when the op is the
      linked one the queue stalls on, though `blocking` may name a slot that was reused. */
  lemma CompleteComparesSoundly(s: System)
    requires Sound(s) && s.pc.Completing? && s.pc.done != []
    ensures var a := s.pc.done[0].op;
      && OutCnt(s, a) == 1 && Cnt(s.core.wq, a) == 0 && WorkCnt(s.worker, a) == 0
      && (a == s.core.blocking <==> Link(s, a))
      && (Link(s, a) ==> SerialAt(s, a) == Last(s) && s.core.blockedDone == NIL)
  {
    var a := s.pc.done[0].op;
    assert DoneCnt(s.pc.done, a) > 0;
    assert Places(s, a) <= 1;
    LiveNotIdle(s, a);
    assert Tracked(s, a);
    assert LinkedOut(s, a) == Link(s, a);
  }

  lemma CompleteSlot(s: System, x: Addr)
    requires Owned(s) && s.pc.Completing? && s.pc.done != []
    ensures var a, t := s.pc.done[0].op, DoComplete(s);
      && OutCnt(t, x) == OutCnt(s, x) - One(x, a)
      && (x != a ==> OpAt(t.core, x) == OpAt(s.core, x))
      && t.core.wq == s.core.wq && t.core.queue == s.core.queue
      && t.core.blockedDone == s.core.blockedDone && t.core.blockedFailed == s.core.blockedFailed
      && t.core.blocking == if a == s.core.blocking then NIL else s.core.blocking
  {
    var a, res := s.pc.done[0].op, s.pc.done[0].res;
    var c := CompleteStanding(s.core, a, res);
    CompleteShift(s, x);
    PostFrame(c, a, res);
    if x != a { PostKeeps(c, a, res, x); }
  }

  lemma CompleteSound(s: System)
    requires Sound(s) && s.pc.Completing? && s.pc.done != []
    ensures Sound(DoComplete(s))
  {
    CompleteComparesSoundly(s);
    if Link(s, s.pc.done[0].op) { CompleteLinkedSound(s); } else { CompletePlainSound(s); }
  }

  lemma CompletePlainSound(s: System)
    requires Sound(s) && s.pc.Completing? && s.pc.done != [] && !Link(s, s.pc.done[0].op)
    requires s.core.blocking != s.pc.done[0].op
    ensures Sound(DoComplete(s))
  {
    var t, a := DoComplete(s), s.pc.done[0].op;
    CompleteOwned(s);
    CompleteSlot(s, NIL);
    assert LiveCnt(s, a) > 0 by { assert DoneCnt(s.pc.done, a) > 0; }
    assert Tracked(s, a);
    forall x ensures QuietAt(s, t, x) && SameFlagAt(s, t, x) { CompletedSlot(s, x); }
    QuietSound(s, t);
  }

  lemma CompleteLinkedSound(s: System)
    requires Sound(s) && s.pc.Completing? && s.pc.done != [] && Link(s, s.pc.done[0].op)
    requires s.core.blocking == s.pc.done[0].op && s.core.blockedDone == NIL
    ensures Sound(DoComplete(s))
  {
    var t, a := DoComplete(s), s.pc.done[0].op;
    CompleteOwned(s);
    CompleteSlot(s, NIL);
    assert LiveCnt(s, a) > 0 by { assert DoneCnt(s.pc.done, a) > 0; }
    LiveNotIdle(s, a);
    forall x ensures SameFlagAt(s, t, x) && OutCnt(t, x) <= OutCnt(s, x) { CompletedSlot(s, x); }
    CompletedSlot(s, a);
    assert Places(s, a) <= 1;
    StallEnds(s, t, a);
  }

  lemma CompletedSlot(s: System, x: Addr)
    requires Owned(s) && s.pc.Completing? && s.pc.done != []
    ensures var t, a := DoComplete(s), s.pc.done[0].op;
      && SameFlagAt(s, t, x) && OutCnt(t, x) == OutCnt(s, x) - One(x, a)
      && (Link(s, a) || QuietAt(s, t, x))
  {
    CompleteSlot(s, x);
    assert Places(s, x) <= 1;
  }

  /** The one linked op that was out is settled. */
  lemma StallEnds(s: System, t: System, a: Addr)
    requires Sound(s) && Owned(t) && (t.pc.Completing? || t.pc.Between?)
    requires s.core.blocking == a && !s.pc.Handed? && a != NIL
    requires t.core.blocking == NIL && t.core.blockedDone == NIL
    requires PendSeq(t) == PendSeq(s) && t.serialOf == s.serialOf && t.order == s.order && |t.hist| == |s.hist|
    requires t.worker == s.worker
    requires forall x :: SameFlagAt(s, t, x) && OutCnt(t, x) <= OutCnt(s, x)
    requires OutCnt(t, a) == 0 || Told(s, a)
    ensures Sound(t)
  {
    StreamSame(s, t);
    forall x | OutCnt(t, x) > 0
      ensures SerialAt(t, x) in t.order && !LinkedOut(t, x)
    {
      assert SameFlagAt(s, t, x) && OutCnt(t, x) <= OutCnt(s, x);
      assert Tracked(s, x);
    }
    FlaggedKept(s, t);
  }

  /** settle compares the ticket with `blocking`: they are equal exactly when the op the queue
      stalls on has its result from the worker, posted or about to be. */
  lemma SettleComparesSoundly(s: System)
    requires Sound(s) && s.pc.Between? && s.core.blockedDone != NIL
    ensures s.core.blockedDone == s.core.blocking
    ensures OutCnt(s, s.core.blocking) == 0 || Told(s, s.core.blocking)
  {
  }

  lemma SettleQuiet(s: System, x: Addr)
    ensures var t := s.(core := Settle(s.core));
      && SameFlagAt(s, t, x) && OutCnt(t, x) == OutCnt(s, x) && OpAt(t.core, x) == OpAt(s.core, x)
      && PendSeq(t) == PendSeq(s)
  {
    SettleFrame(s.core, x);
  }

  lemma SettleSound(s: System)
    requires Sound(s) && s.pc.Between?
    ensures Sound(s.(core := Settle(s.core)))
  {
    var t := s.(core := Settle(s.core));
    SettleOwned(s);
    forall x ensures SameFlagAt(s, t, x) && OutCnt(t, x) == OutCnt(s, x) && OpAt(t.core, x) == OpAt(s.core, x) {
      SettleQuiet(s, x);
    }
    SettleQuiet(s, NIL);
    SettleEnds(s.core);
    if s.core.blockedDone != NIL {
      SettleComparesSoundly(s);
      StallEnds(s, t, s.core.blocking);
    } else {
      assert forall x :: QuietAt(s, t, x);
      QuietSound(s, t);
    }
  }

  lemma SettleEnds(c: Core)
    ensures var d := Settle(c);
      && (c.blockedDone != NIL && c.blockedDone == c.blocking ==> d.blocking == NIL && d.blockedDone == NIL)
      && (c.blockedDone == NIL || c.blockedDone != c.blocking ==>
            d.blocking == c.blocking && d.blockedDone == c.blockedDone && d.blockedFailed == c.blockedFailed)
  {
    DrainFacts(SettleStanding(c));
  }

  // ---- the worker --------------------------------------------------------

  lemma TakeWorkSound(s: System)
    requires Sound(s) && s.worker.WIdle? && s.core.wq != []
    ensures Sound(DoTakeWork(s))
  {
    TakeWorkOwned(s);
    forall x ensures QuietAt(s, DoTakeWork(s), x) && SameFlagAt(s, DoTakeWork(s), x) { TakeWorkShift(s, x); }
    QuietSound(s, DoTakeWork(s));
  }

  /** The op at the worker is the one the queue stalls on, and no ticket is up yet. */
  lemma RaiseFacts(s: System)
    requires Sound(s) && CanRaise(s)
    ensures Link(s, s.worker.op) && StalledOn(s) == s.worker.op && OutCnt(s, s.worker.op) == 1
    ensures s.core.blockedDone == NIL && s.worker.op != NIL
    ensures var k := Last(s);
      && 0 <= k < |s.hist| && s.hist[k].fate == InFlight(s.worker.op)
      && s.hist[k].link && s.hist[k].skip == OpAt(s.core, s.worker.op).sqe.skip && !s.pc.Holding?
  {
    var a := s.worker.op;
    assert Places(s, a) <= 1;
    LiveNotIdle(s, a);
    assert Tracked(s, a);
    assert LinkedOut(s, a);
  }

  lemma RaiseSound(s: System, res: int)
    requires Sound(s) && CanRaise(s)
    ensures Sound(DoRaise(s, res))
  {
    var t := DoRaise(s, res);
    RaiseOwned(s, res);
    RaiseFacts(s);
    StreamSame(s, t);
    assert forall x :: SameFlagAt(s, t, x);
    FlaggedKept(s, t);
    RaiseTickets(s, t, res);
    forall x | OutCnt(t, x) > 0 ensures SerialAt(t, x) in t.order { assert OutCnt(s, x) > 0; }
  }

  lemma RaiseTickets(s: System, t: System, res: int)
    requires Sound(s) && CanRaise(s) && t == DoRaise(s, res)
    requires Link(s, s.worker.op) && StalledOn(s) == s.worker.op && OutCnt(s, s.worker.op) == 1
    ensures Ticketed(t)
  {
    RaiseFacts(s);
    forall x ensures LinkedOut(t, x) ==> LinkedOut(s, x) {
      assert OutCnt(t, x) == OutCnt(s, x);
    }
    assert OutCnt(t, s.worker.op) == OutCnt(s, s.worker.op);
  }

  lemma PostWorkSlot(s: System, res: int, x: Addr)
    requires Owned(s) && CanPostWork(s, res)
    ensures var a, t := s.worker.op, DoPostWork(s, res);
      && OutCnt(t, x) == OutCnt(s, x) - One(x, a) && SameFlagAt(s, t, x)
      && (x != a ==> OpAt(t.core, x) == OpAt(s.core, x))
      && SameSubmission(s.core, t.core) && OutCnt(s, a) == 1
  {
    var a := s.worker.op;
    PostWorkShift(s, res, x);
    PostFrame(s.core, a, res);
    if x != a { PostKeeps(s.core, a, res, x); }
    assert Places(s, a) <= 1;
  }

  lemma PostWorkSound(s: System, res: int)
    requires Sound(s) && CanPostWork(s, res)
    ensures Sound(DoPostWork(s, res))
  {
    var t := DoPostWork(s, res);
    var a := s.worker.op;
    PostWorkOwned(s, res);
    PostWorkSlot(s, res, NIL);
    assert Tracked(s, a);
    forall x ensures SameFlagAt(s, t, x) && OutCnt(t, x) == OutCnt(s, x) - One(x, a) {
      PostWorkSlot(s, res, x);
    }
    if s.worker.WRunning? {
      PlainWorkDone(s, t, res);
    } else {
      StreamSame(s, t);
      FlaggedKept(s, t);
      forall x | OutCnt(t, x) > 0 ensures SerialAt(t, x) in t.order {
        assert OutCnt(t, x) == OutCnt(s, x) - One(x, a);
      }
      TicketedWorkDone(s, t);
    }
  }

  ghost predicate WorkPosted(s: System, t: System, res: int) {
    && !s.worker.WIdle? && Tracked(s, s.worker.op) && OutCnt(s, s.worker.op) == 1
    && t.pc == s.pc && t.worker == WIdle && SameSubmission(s.core, t.core)
    && t.serialOf == s.serialOf && t.order == s.order && t.hist == Settled(s, s.worker.op, Ran(res))
    && (forall x :: SameFlagAt(s, t, x) && OutCnt(t, x) == OutCnt(s, x) - One(x, s.worker.op))
  }

  lemma PlainWorkDone(s: System, t: System, res: int)
    requires Sound(s) && Owned(t) && s.worker.WRunning? && !OpAt(s.core, s.worker.op).stallsQueue
    requires WorkPosted(s, t, res)
    ensures Sound(t)
  {
    var a := s.worker.op;
    assert LiveCnt(s, a) > 0 && !Link(s, a);
    forall x ensures QuietAt(s, t, x) {
      assert SameFlagAt(s, t, x) && OutCnt(t, x) == OutCnt(s, x) - One(x, a);
    }
    QuietSound(s, t);
  }

  lemma TicketedWorkStall(s: System, t: System)
    requires Tracking(s) && Ticketed(s) && s.worker.WTicketed? && WorkPosted(s, t, s.worker.res)
    ensures OneStall(t)
  {
    var a, b, k := s.worker.op, StalledOn(s), Last(s);
    assert StalledOn(t) == b && Last(t) == k;
    if b != NIL {
      assert TicketFits(s, b, k);
      assert OutCnt(t, b) == OutCnt(s, b) - One(b, a);
      if s.hist[k].fate == InFlight(a) {
        assert SerialAt(s, a) == k;
        assert t.hist[k] == s.hist[k].(fate := Ran(s.worker.res));
      } else {
        assert t.hist[k] == s.hist[k];
      }
      assert TicketFits(t, b, k);
    }
  }

  lemma TicketedWorkDone(s: System, t: System)
    requires Tracking(s) && Ticketed(s) && s.worker.WTicketed? && WorkPosted(s, t, s.worker.res)
    ensures Ticketed(t)
  {
    TicketedWorkStall(s, t);
    forall x ensures LinkedOut(t, x) ==> LinkedOut(s, x) {
      assert SameFlagAt(s, t, x) && OutCnt(t, x) == OutCnt(s, x) - One(x, s.worker.op);
    }
    assert LastLinked(t) && NoStall(t);
  }

  lemma IdleStepSound(s: System, t: System)
    requires Sound(s) && Owned(t)
    requires t == s.(pc := t.pc,
                     core := s.core.(unread := t.core.unread, moves := t.core.moves, delivered := t.core.delivered))
    requires forall x :: PendCnt(t, x) == PendCnt(s, x) && HandCnt(t.pc, x) == HandCnt(s.pc, x)
    requires PendSeq(t) == PendSeq(s) && !s.pc.Handed? && !t.pc.Handed?
    requires (s.pc.Holding? || t.pc.Holding?) ==> t.pc == s.pc
    ensures Sound(t)
  {
    forall x ensures QuietAt(s, t, x) && SameFlagAt(s, t, x) { assert PendCnt(t, x) == PendCnt(s, x); }
    QuietSound(s, t);
  }

  /** The caller reads, or will read. */
  lemma ReadSound(s: System, t: System)
    requires Sound(s)
    requires t == s.(core := s.core.(unread := t.core.unread, moves := t.core.moves, delivered := t.core.delivered))
    ensures Sound(t)
  {
    IdleStepOwned(s, t);
    forall x ensures QuietAt(s, t, x) && SameFlagAt(s, t, x) { }
    QuietSound(s, t);
  }

  // ---- every run ---------------------------------------------------------

  lemma SoundKept(s: System, act: Action)
    requires Sound(s) && Enabled(s, act)
    ensures Sound(Apply(s, act))
  {
    if Handling(act) {
      HandlingSound(s, act);
    } else if MovesOn(act) {
      MovedOnSound(s, act);
    } else {
      PendingSound(s, act);
    }
  }

  /** The wait, the worker and the caller. */
  lemma PendingSound(s: System, act: Action)
    requires Sound(s) && Enabled(s, act) && !Handling(act) && !MovesOn(act)
    ensures Sound(Apply(s, act))
  {
    match act
    case UnparkNext => UnparkSound(s);
    case RetryAnswer(res) => RetryAnswerSound(s, res);
    case Repark => ReparkSound(s);
    case CompleteNext => CompleteSound(s);
    case SettleTicket => SettleSound(s);
    case TakeWork => TakeWorkSound(s);
    case RaiseTicket(res) => RaiseSound(s, res);
    case PostWork(res) => PostWorkSound(s, res);
    case AdvanceHead(_) => ReadSound(s, Apply(s, act));
    case Meanwhile(_) => ReadSound(s, Apply(s, act));
  }

  predicate MovesOn(act: Action) {
    act.EnterCall? || act.QueueRests? || act.BeginWait? || act.EndRetries? || act.EndComplete? || act.Leave?
  }

  lemma MovedOnSound(s: System, act: Action)
    requires Sound(s) && Enabled(s, act) && MovesOn(act)
    ensures Sound(Apply(s, act))
  {
    OwnedKept(s, act);
    IdleStepSound(s, Apply(s, act));
  }

  /** Taking submissions in, the queue and the op in hand; and completions without an op. */
  predicate Handling(act: Action) {
    act.TakeSqe? || act.Submit? || act.CancelChained? || act.Dequeue? || act.Lookup? || act.ForeignEmit?
    || act.Emission? || act.Finish? || act.ParkIt? || act.HandOff? || act.NoteStall?
    || act.CancelParkedOne? || act.CancelQueuedOne? || act.CancelAtWorkerOne?
  }

  lemma HandlingSound(s: System, act: Action)
    requires Sound(s) && Enabled(s, act) && Handling(act)
    ensures Sound(Apply(s, act))
  {
    match act
    case TakeSqe(sqe) => TakeSqeSound(s, sqe);
    case Submit => SubmitSound(s);
    case CancelChained => CancelChainedSound(s);
    case Dequeue => DequeueSound(s);
    case Lookup(realfd) => if realfd < 0 { LookupFailsSound(s, realfd); } else { TranslateSound(s, realfd); }
    case ForeignEmit(cqe) => EmittedSound(s, -1, cqe);
    case Emission(res, flags) =>
      EmittedSound(s, SerialAt(s, s.pc.op), Cqe(OpAt(s.core, s.pc.op).sqe.userData, res, flags));
    case Finish(res) => FinishSound(s, res);
    case ParkIt => ParkSound(s);
    case HandOff => HandOffSound(s);
    case NoteStall => NoteStallSound(s);
    case CancelParkedOne(t) => CancelParkedSound(s, t);
    case CancelQueuedOne(t) => CancelQueuedSound(s, t);
    case CancelAtWorkerOne(t) => CancelAtWorkerSound(s, t);
  }

  lemma SetupSound(n: nat)
    ensures Sound(Setup(n))
  {
    SetupOwned(n);
    assert Stream(Setup(n)) == [];
  }

  lemma {:induction false} SoundAlways(s: System, acts: seq<Action>)
    requires Sound(s) && ValidRun(s, acts)
    ensures Sound(Run(s, acts))
    decreases |acts|
  {
    if acts != [] {
      SoundKept(s, acts[0]);
      SoundAlways(Apply(s, acts[0]), acts[1..]);
    }
  }
}
