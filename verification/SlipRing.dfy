/** The ring as the source keeps it: ops in a fixed pool, one `next` link per op threading the
    free list, the submit queue, the worker queue and the backlog, waiting[] with each op
    knowing its place in it, and the completion queue's memory. Every method is one of the
    source's, proved to do to the abstract state what the function of EngineCore says. */
module SlipRing {
  import opened Lists
  import opened EngineCore
  import opened IntrusiveList
  import opened EngineThreads
  import opened EngineCancel
  import opened EnginePasses
  import opened EngineAnswers
  import opened CompletionRing
  import opened EngineSystem
  import opened EngineOwnership

  class Ring {
    const ops: array<EngOp>
    const next: array<Addr>
    const waiting: array<Addr>
    const waitSlot: array<nat>
    const cq: Cq
    var waitingN: nat
    var heads: Heads
    var chainFailed: Chain
    var blocking: Addr
    var blockedDone: Addr
    var blockedFailed: Chain

    ghost var free: seq<Addr>
    ghost var queue: seq<Addr>
    ghost var wq: seq<Addr>
    ghost var backlog: seq<Addr>

    ghost predicate Shaped()
      reads this, cq
    {
      && ops.Length == next.Length == waiting.Length == waitSlot.Length
      && next != waiting && next as object != waitSlot && waiting as object != waitSlot
      && waitingN <= waiting.Length
      && cq.Valid()
    }

    /** The state, links and ring memory abstracted away. While one of its methods runs, the caller
        does not move its head. */
    ghost function State(): Core
      reads this, ops, waiting, cq, cq.cqes
      requires Shaped()
    {
      Core(ops[..], free, queue, waiting[..waitingN], wq, backlog,
           chainFailed, blocking, blockedDone, blockedFailed,
           cq.Unread(), cq.cqes.Length, cq.overflow, [], [])
    }

    ghost predicate Valid()
      reads this, ops, next, waiting, waitSlot, cq, cq.cqes
    {
      && Shaped()
      && Apart(State())
      && Threaded(next[..], heads, State())
      && Slotted(waitSlot[..], waiting[..waitingN])
    }

    /** Setup: as many ops as the completion queue has entries, all of them free, first one
        first. */
    constructor (n: nat)
      requires Pow2(n) && n <= 0x8000_0000
      ensures Valid() && fresh(ops) && fresh(next) && fresh(waiting) && fresh(waitSlot)
      ensures fresh(cq) && fresh(cq.cqes)
      ensures State() == Setup(n).core
    {
      ops := new EngOp[n](_ => Zeroed());
      next := new Addr[n](_ => NIL);
      waiting := new Addr[n](_ => NIL);
      waitSlot := new nat[n](_ => 0);
      cq := new Cq(n);
      waitingN := 0;
      heads := Heads(NIL, NIL, NIL, NIL, NIL, NIL, NIL);
      chainFailed, blocking, blockedDone, blockedFailed := Holds, NIL, NIL, Holds;
      free, queue, wq, backlog := [], [], [], [];
      new;
      Carve(n);
    }

    /** The free list, threaded from the last op back to the first. */
    method Carve(n: nat)
      requires Shaped() && n == ops.Length && waitingN == 0 && |cq.Unread()| == 0
      requires heads == Heads(NIL, NIL, NIL, NIL, NIL, NIL, NIL)
      requires forall i | 0 <= i < n :: ops[i] == Zeroed()
      requires free == [] && queue == [] && wq == [] && backlog == []
      requires chainFailed == Holds && blocking == NIL && blockedDone == NIL && blockedFailed == Holds
      requires cq.cqes.Length == n && cq.overflow == 0
      modifies this`heads, this`free, next
      ensures Valid() && State() == Setup(n).core
    {
      ghost var all := Slots(n);
      var i := n;
      while i > 0
        invariant 0 <= i <= n
        invariant free == all[i..] && Linked(next[..], heads.free, free)
        invariant heads == Heads(heads.free, NIL, NIL, NIL, NIL, NIL, NIL)
      {
        i := i - 1;
        Pushed(next[..], heads.free, free, i);
        ghost var was, head := next[..], heads.free;
        next[i] := heads.free;
        heads := heads.(free := i);
        free := [i] + free;
        assert next[..] == was[i := head];
      }
      assert State() == Setup(n).core;
      forall x ensures Listed(State(), x) <= if 0 <= x < n then 1 else 0 { CntSlots(n, x); }
    }

    // ---- the pool ----------------------------------------------------------

    method AllocLocked() returns (a: Addr)
      requires Valid()
      modifies this, ops, next
      ensures Valid()
      ensures a == NIL <==> old(free) == []
      ensures a == NIL ==> State() == old(State()) && next[..] == old(next[..])
      ensures a != NIL ==> a == old(free)[0] && State() == Alloc(old(State())) && Loose(State(), a)
      ensures a != NIL ==> next[..] == old(next[..])[a := NIL]
      ensures heads == old(heads).(free := heads.free)
    {
      ghost var c, n := State(), next[..];
      a := heads.free;
      Empty(n, heads.free, free);
      if a == NIL { return; }
      AllocThreaded(n, heads, c, NIL);
      AllocListed(c);
      heads := heads.(free := next[a]);
      free := free[1..];
      ops[a] := Zeroed();
      next[a] := NIL;
      assert next[..] == n[a := NIL];
      assert State() == Alloc(c);
    }

    method ReleaseOp(a: Addr)
      requires Valid() && Loose(State(), a)
      modifies this`heads, this`free, next
      ensures Valid() && State() == Release(old(State()), a)
    {
      ghost var c, n := State(), next[..];
      ReleaseListed(c, a);
      ReleaseThreaded(n, heads, c, a);
      next[a] := heads.free;
      heads := heads.(free := a);
      free := [a] + free;
      assert next[..] == n[a := old(heads.free)];
      assert State() == Release(c, a);
    }

    // ---- completions -------------------------------------------------------

    method CqRoom() returns (room: bool)
      requires Valid()
      ensures room == Room(State())
    {
      room := cq.HasRoom();
    }

    method PostLocked(cqe: Cqe)
      requires Valid() && Room(State())
      modifies cq, cq.cqes
      ensures Valid() && State() == PostCqe(old(State()), cqe)
    {
      cq.Put(cqe);
      ApartSame(old(State()), State());
    }

    method ShiftBacklog() returns (a: Addr)
      requires Valid() && heads.backlog != NIL
      modifies this`heads, this`backlog
      ensures Valid() && old(backlog) != [] && a == old(backlog)[0]
      ensures State() == Unbacklog(old(State())) && Loose(State(), a)
    {
      ghost var c, n := State(), next[..];
      Empty(n, heads.backlog, backlog);
      UnbacklogThreaded(n, heads, c);
      UnbacklogListed(c);
      a := heads.backlog;
      heads := heads.(backlog := next[a], backlogTail := TailAfter(next[a], heads.backlogTail));
      backlog := backlog[1..];
      assert State() == Unbacklog(c);
    }

    method HasBacklog() returns (some: bool)
      requires Valid()
      ensures some == !Drained(State())
    {
      some := heads.backlog != NIL;
      Empty(next[..], heads.backlog, backlog);
      var room := CqRoom();
      some := some && room;
    }

    method DrainOneLocked()
      requires Valid() && !Drained(State())
      modifies this, next, cq, cq.cqes
      ensures Valid() && Drain(State()) == Drain(old(State()))
      ensures |backlog| < old(|backlog|)
    {
      Empty(next[..], heads.backlog, backlog);
      var a := ShiftBacklog();
      PostLocked(CqeOf(ops[a]));
      ReleaseOp(a);
    }

    method DrainBacklogLocked()
      requires Valid()
      modifies this, next, cq, cq.cqes
      ensures Valid() && State() == Drain(old(State()))
    {
      ghost var goal := Drain(State());
      var some := HasBacklog();
      while some
        invariant Valid() && Drain(State()) == goal && some == !Drained(State())
        decreases |backlog|
      {
        some := DrainNext();
      }
      DrainEnd(State());
    }

    method DrainNext() returns (some: bool)
      requires Valid() && !Drained(State())
      modifies this, next, cq, cq.cqes
      ensures Valid() && Drain(State()) == Drain(old(State())) && some == !Drained(State())
      ensures |backlog| < old(|backlog|)
    {
      DrainOneLocked();
      some := HasBacklog();
    }

    method CountOverflow()
      requires Valid()
      modifies cq
      ensures Valid() && State() == old(State()).(overflow := Tick(old(State()).overflow))
    {
      cq.overflow := Tick(cq.overflow);
      ApartSame(old(State()), State());
    }

    method BacklogLocked(a: Addr, res: int)
      requires Valid() && Loose(State(), a)
      modifies this, ops, next, cq
      ensures Valid() && State() == Backlog(old(State()), a, res)
    {
      ghost var c, n, h := State(), next[..], heads;
      ThreadedLoose(n, h, c, a, NIL);
      BacklogThreaded(n[a := NIL], h, c, a, res);
      BacklogListed(c, a, res);
      ops[a] := ops[a].(res := res);
      assert ops[..] == c.ops[a := c.ops[a].(res := res)];
      next[a] := NIL;
      if heads.backlogTail != NIL { next[heads.backlogTail] := a; } else { heads := heads.(backlog := a); }
      heads := heads.(backlogTail := a);
      backlog := backlog + [a];
      cq.overflow := Tick(cq.overflow);
      assert next[..] == Linking(n[a := NIL], h.backlogTail, a);
      assert State() == Backlog(c, a, res);
    }

    /** The final completion of an op nobody lists any more. */
    method PostOp(a: Addr, res: int)
      requires Valid() && Loose(State(), a)
      modifies this, ops, next, cq, cq.cqes
      ensures Valid() && State() == Post(old(State()), a, res)
    {
      DrainLoose(State(), a);
      TestedFacts(State());
      DrainBacklogLocked();
      var room := CqRoom();
      if res >= 0 && ops[a].sqe.skip {
        ReleaseOp(a);
      } else if room {
        PostLocked(CqeOf(ops[a].(res := res)));
        ReleaseOp(a);
      } else {
        BacklogLocked(a, res);
      }
    }

    /** A completion without an op: it borrows a free one to wait in. */
    method EmitCqe(cqe: Cqe)
      requires Valid()
      modifies this, ops, next, cq, cq.cqes
      ensures Valid() && State() == Emit(old(State()), cqe)
    {
      TestedFacts(State());
      DrainBacklogLocked();
      var room := CqRoom();
      if room {
        PostLocked(cqe);
      } else {
        var a := AllocLocked();
        if a != NIL {
          SetCarrier(a, cqe);
          BacklogLocked(a, cqe.res);
        } else {
          CountOverflow();
        }
      }
    }

    method SetCarrier(a: Addr, cqe: Cqe)
      requires Valid() && Loose(State(), a)
      modifies ops
      ensures Valid() && State() == SetOp(old(State()), a, Carrier(cqe)) && Loose(State(), a)
    {
      ops[a] := Carrier(cqe);
      assert ops[..] == old(ops[..])[a := Carrier(cqe)];
      ApartSame(old(State()), State());
    }

    // ---- chains ------------------------------------------------------------

    /** Engine fields that are on no list. */
    method SetStanding(newBlocking: Addr, newFailed: Chain)
      requires Valid()
      modifies this`blocking, this`chainFailed
      ensures Valid()
      ensures State() == old(State()).(blocking := newBlocking, chainFailed := newFailed)
      ensures forall a :: old(Loose(State(), a)) ==> Loose(State(), a)
    {
      blocking, chainFailed := newBlocking, newFailed;
      ApartSame(old(State()), State());
    }

    method CompleteOp(a: Addr, res: int)
      requires Valid() && Loose(State(), a)
      modifies this, ops, next, cq, cq.cqes
      ensures Valid() && State() == Complete(old(State()), a, res)
    {
      if a == blocking {
        SetStanding(NIL, if res < 0 then FailureOf(ops[a].sqe) else chainFailed);
      } else if res < 0 && ops[a].sqe.link {
        SetStanding(blocking, FailureOf(ops[a].sqe));
      }
      assert State() == CompleteStanding(old(State()), a, res);
      PostOp(a, res);
    }

    method SettleWorkerTicket()
      requires Valid()
      modifies this, next, cq, cq.cqes
      ensures Valid() && State() == Settle(old(State()))
    {
      if blockedDone != NIL && blockedDone == blocking {
        blocking, blockedDone := NIL, NIL;
        if blockedFailed != Holds {
          chainFailed, blockedFailed := blockedFailed, Holds;
        }
      }
      assert State() == SettleStanding(old(State()));
      ApartSame(old(State()), State());
      DrainBacklogLocked();
    }

    // ---- parking -----------------------------------------------------------

    /** The backend is armed and the op joins waiting[]; the set is never full. `armed` is the
        backend's word. */
    method ParkOp(a: Addr, armed: bool) returns (parked: bool)
      requires Valid() && Loose(State(), a)
      modifies this`waitingN, waiting, waitSlot
      ensures Valid() && parked == armed
      ensures State() == if parked then Park(old(State()), a) else old(State())
    {
      ParkFits(State(), a);
      if waitingN >= waiting.Length { return false; }
      if !armed { return false; }
      ghost var c, w := State(), waiting[..waitingN];
      LooseNowhere(c, a);
      ParkListed(c, a);
      waitSlot[a] := waitingN;
      waiting[waitingN] := a;
      waitingN := waitingN + 1;
      assert waiting[..waitingN] == w + [a];
      assert State() == Park(c, a);
      return true;
    }

    /** The last parked op takes its place; nothing happens for an op outside waiting[]. */
    method UnparkOp(a: Addr)
      requires Valid() && 0 <= a < ops.Length
      modifies this`waitingN, waiting, waitSlot
      ensures Valid() && State() == Unpark(old(State()), a)
      ensures a in old(State()).waiting ==> Loose(State(), a)
    {
      ghost var c, w := State(), waiting[..waitingN];
      var i := waitSlot[a];
      ghost var k := IndexOf(w, a);
      if i >= waitingN || waiting[i] != a { return; }
      assert w[i] == a;
      UnparkListed(c, a);
      WaitingDistinct(c);
      assert k == i;
      waitingN := waitingN - 1;
      waiting[i] := waiting[waitingN];
      waitSlot[waiting[i]] := i;
      assert waiting[..waitingN] == SwapRemove(w, i);
      assert State() == Unpark(c, a);
    }

    // ---- the worker --------------------------------------------------------

    method HandToWorkerOp(a: Addr)
      requires Valid() && Loose(State(), a) && next[a] == NIL
      modifies this`heads, this`wq, ops, next
      ensures Valid() && State() == HandToWorker(old(State()), a)
    {
      ghost var c, n, h := State(), next[..], heads;
      HandToWorkerThreaded(n, h, c, a);
      HandToWorkerListed(c, a);
      if ops[a].sqe.link { ops[a] := ops[a].(stallsQueue := true); }
      if heads.wqTail != NIL { next[heads.wqTail] := a; } else { heads := heads.(wq := a); }
      heads := heads.(wqTail := a);
      wq := wq + [a];
      assert next[..] == Linking(n, h.wqTail, a);
      assert State() == HandToWorker(c, a);
    }

    /** The worker's three locked sections: take, raise the ticket, and PostOp. */
    method WorkerTakeOp() returns (a: Addr)
      requires Valid() && heads.wq != NIL
      modifies this`heads, this`wq
      ensures Valid() && old(wq) != [] && a == old(wq)[0]
      ensures State() == WorkerTake(old(State())) && Loose(State(), a)
    {
      ghost var c, n := State(), next[..];
      Empty(n, heads.wq, wq);
      TakeThreaded(n, heads, c);
      TakeListed(c);
      a := heads.wq;
      heads := heads.(wq := next[a], wqTail := TailAfter(next[a], heads.wqTail));
      wq := wq[1..];
      assert State() == WorkerTake(c);
    }

    method RaiseTicketFor(a: Addr, res: int)
      requires Valid() && Loose(State(), a)
      modifies this`blockedDone, this`blockedFailed
      ensures Valid() && State() == Ticket(old(State()), a, res) && Loose(State(), a)
    {
      blockedDone := a;
      blockedFailed := if res < 0 then FailureOf(ops[a].sqe) else Holds;
      ApartSame(old(State()), State());
    }

    /** One turn of the worker's loop; `res` is what the blocking call answers. */
    method WorkerOnce(res: int)
      requires Valid() && wq != []
      modifies this, ops, next, cq, cq.cqes
      ensures Valid() && State() == WorkerTurn(old(State()), res)
    {
      Empty(next[..], heads.wq, wq);
      var a := WorkerTakeOp();
      if ops[a].stallsQueue { RaiseTicketFor(a, res); }
      PostOp(a, res);
    }

    // ---- cancel ------------------------------------------------------------

    method CancelTargetOp(t: Addr)
      requires Valid() && Loose(State(), t)
      modifies this, ops, next, cq, cq.cqes
      ensures Valid() && State() == CancelTarget(old(State()), t)
    {
      if t == blocking {
        SetStanding(NIL, FailureOf(ops[t].sqe));
      } else if ops[t].sqe.link {
        SetStanding(blocking, FailureOf(ops[t].sqe));
      }
      assert State() == CancelStanding(old(State()), t);
      PostOp(t, -ECANCELED);
    }

    method CancelParkedAt(i: nat)
      requires Valid() && i < waitingN
      modifies this, ops, next, waiting, waitSlot, cq, cq.cqes
      ensures Valid() && State() == CancelAt(old(State()), InWaiting, i)
      ensures waitingN == old(waitingN) - 1
    {
      var t := waiting[i];
      assert t == State().waiting[i];
      CancelAtFrame(State(), InWaiting, i);
      UnparkAt(State(), i);
      UnparkOp(t);
      CancelTargetOp(t);
    }

    /** Everything known at the head of a scan: `goal` is what is still to come, behind the
        `count` cancelled so far. */
    ghost predicate Scanning(w: Where, cancel: Sqe, all: bool, i: nat, count: nat, goal: Scan)
      reads this, ops, next, waiting, waitSlot, cq, cq.cqes
    {
      && Valid() && i <= |ListOf(State(), w)|
      && goal == More(count, ScanFrom(State(), cancel, all, w, i))
    }

    method ParkedStep(cancel: Sqe, all: bool, i: nat, count: nat, ghost goal: Scan)
      returns (stop: bool, i': nat, count': nat)
      requires Scanning(InWaiting, cancel, all, i, count, goal) && i < waitingN
      modifies this, ops, next, waiting, waitSlot, cq, cq.cqes
      ensures stop ==> Valid() && goal == Scan(State(), count')
      ensures !stop ==> Scanning(InWaiting, cancel, all, i', count', goal)
      ensures !stop ==> waitingN - i' < old(waitingN) - i
    {
      assert waiting[i] == State().waiting[i];
      WithinList(State(), InWaiting, i);
      if CancelNames(cancel, ops[waiting[i]].sqe) {
        ScanHit(State(), cancel, all, InWaiting, i);
        CancelParkedAt(i);
        return !all, i, count + 1;
      }
      ScanMiss(State(), cancel, all, InWaiting, i);
      return false, i + 1, count;
    }

    /** The swap-remove brings another op to place i, so the same place is looked at again. */
    method ScanParked(cancel: Sqe, all: bool) returns (count: nat)
      requires Valid()
      modifies this, ops, next, waiting, waitSlot, cq, cq.cqes
      ensures Valid() && Scan(State(), count) == ScanFrom(old(State()), cancel, all, InWaiting, 0)
    {
      ghost var goal := ScanFrom(State(), cancel, all, InWaiting, 0);
      var i: nat, stop := 0, false;
      count := 0;
      while i < waitingN
        invariant Scanning(InWaiting, cancel, all, i, count, goal)
        decreases waitingN - i
      {
        stop, i, count := ParkedStep(cancel, all, i, count, goal);
        if stop { return; }
      }
    }

    method FindTail(head: Addr, ghost s: seq<Addr>) returns (tail: Addr)
      requires Linked(next[..], head, s)
      ensures tail == LastOf(s)
    {
      tail := NIL;
      var q := head;
      ghost var rest := s;
      while q != NIL
        invariant Linked(next[..], q, rest)
        invariant if rest == [] then tail == LastOf(s) else LastOf(rest) == LastOf(s)
        decreases |rest|
      {
        Empty(next[..], q, rest);
        Popped(next[..], q, rest);
        tail := q;
        q := next[q];
        rest := rest[1..];
      }
    }

    method StoreList(w: Where, head: Addr, tail: Addr, ghost s: seq<Addr>)
      requires Shaped() && w != InWaiting
      modifies this`heads, this`queue, this`wq
      ensures Shaped() && State() == WithList(old(State()), w, s)
      ensures heads == WithEnds(old(heads), w, head, tail)
    {
      heads := WithEnds(heads, w, head, tail);
      if w == InQueue { queue := s; } else { wq := s; }
    }

    method BypassLink(prev: Addr, t: Addr)
      requires 0 <= t < next.Length && (prev == NIL || 0 <= prev < next.Length)
      modifies next
      ensures next[..] == Bypassed(old(next[..]), prev, t)
    {
      if prev != NIL { next[prev] := next[t]; }
    }

    method UnlinkAt(w: Where, prev: Addr, t: Addr, ghost i: nat)
      requires Valid() && w != InWaiting && i < |ListOf(State(), w)|
      requires t == ListOf(State(), w)[i] && prev == Prev(ListOf(State(), w), i)
      modifies this`heads, this`queue, this`wq, next
      ensures Valid() && State() == TakeOut(old(State()), w, i) && Loose(State(), t)
    {
      ghost var c, s := State(), ListOf(State(), w);
      CutThreaded(next[..], heads, c, w, i);
      TakeOutListed(c, w, i);
      var head, tail := CutEnds(w, prev, t, i);
      StoreList(w, head, tail, Cut(s, i));
    }

    /** The link goes past t; where the list now starts and ends. */
    method CutEnds(w: Where, prev: Addr, t: Addr, ghost i: nat) returns (head: Addr, tail: Addr)
      requires Valid() && w != InWaiting && i < |ListOf(State(), w)|
      requires t == ListOf(State(), w)[i] && prev == Prev(ListOf(State(), w), i)
      modifies next
      ensures next[..] == Bypassed(old(next[..]), prev, t)
      ensures head == (if i == 0 then old(next[..])[t] else HeadOf(heads, w))
      ensures tail == LastOf(Cut(ListOf(State(), w), i))
    {
      ghost var s := ListOf(State(), w);
      CutLinked(next[..], HeadOf(heads, w), s, i);
      head, tail := HeadOf(heads, w), TailOf(heads, w);
      if prev == NIL { head := next[t]; }
      BypassLink(prev, t);
      if tail == t { tail := FindTail(head, Cut(s, i)); }
    }

    method CancelLinkedAt(w: Where, prev: Addr, t: Addr, ghost i: nat)
      requires Valid() && w != InWaiting && i < |ListOf(State(), w)|
      requires t == ListOf(State(), w)[i] && prev == Prev(ListOf(State(), w), i)
      modifies this, ops, next, cq, cq.cqes
      ensures Valid() && State() == CancelAt(old(State()), w, i)
      ensures |ListOf(State(), w)| == |ListOf(old(State()), w)| - 1
      ensures prev == Prev(ListOf(State(), w), i)
    {
      CancelAtFrame(State(), w, i);
      UnlinkAt(w, prev, t, i);
      CancelTargetOp(t);
    }

    method TakeHit(w: Where, cancel: Sqe, all: bool, prev: Addr, t: Addr,
                   ghost i: nat, ghost count: nat, ghost goal: Scan)
      requires Scanning(w, cancel, all, i, count, goal) && prev == Prev(ListOf(State(), w), i) && w != InWaiting
      requires i < |ListOf(State(), w)| && t == ListOf(State(), w)[i] && Matches(State(), cancel, t)
      modifies this, ops, next, cq, cq.cqes
      ensures all ==> Scanning(w, cancel, all, i, count + 1, goal) && prev == Prev(ListOf(State(), w), i)
      ensures !all ==> Valid() && goal == Scan(State(), count + 1)
      ensures |ListOf(State(), w)| < |ListOf(old(State()), w)|
    {
      ScanHit(State(), cancel, all, w, i);
      CancelLinkedAt(w, prev, t, i);
    }

    method ScanStep(w: Where, cancel: Sqe, all: bool, prev: Addr, t: Addr, count: nat, ghost i: nat, ghost goal: Scan)
      returns (stop: bool, prev': Addr, count': nat, ghost i': nat)
      requires Scanning(w, cancel, all, i, count, goal) && prev == Prev(ListOf(State(), w), i) && w != InWaiting
      requires i < |ListOf(State(), w)| && t == ListOf(State(), w)[i]
      modifies this, ops, next, cq, cq.cqes
      ensures stop ==> Valid() && goal == Scan(State(), count')
      ensures !stop ==> Scanning(w, cancel, all, i', count', goal) && prev' == Prev(ListOf(State(), w), i')
      ensures !stop ==> |ListOf(State(), w)| - i' < |ListOf(old(State()), w)| - i
    {
      WithinList(State(), w, i);
      if CancelNames(cancel, ops[t].sqe) {
        TakeHit(w, cancel, all, prev, t, i, count, goal);
        return !all, prev, count + 1, i;
      }
      ScanMiss(State(), cancel, all, w, i);
      return false, t, count, i + 1;
    }

    method ScanNext(w: Where, cancel: Sqe, all: bool, prev: Addr, t: Addr, count: nat, ghost i: nat, ghost goal: Scan)
      returns (stop: bool, prev': Addr, t': Addr, count': nat, ghost i': nat)
      requires Scanning(w, cancel, all, i, count, goal) && prev == Prev(ListOf(State(), w), i) && w != InWaiting
      requires t != NIL && t == At(ListOf(State(), w), i)
      modifies this, ops, next, cq, cq.cqes
      ensures stop ==> Valid() && goal == Scan(State(), count')
      ensures !stop ==> Scanning(w, cancel, all, i', count', goal) && prev' == Prev(ListOf(State(), w), i')
      ensures !stop ==> t' == At(ListOf(State(), w), i')
      ensures !stop ==> |ListOf(State(), w)| - i' < |ListOf(old(State()), w)| - i
    {
      WithinList(State(), w, i);
      stop, prev', count', i' := ScanStep(w, cancel, all, prev, t, count, i, goal);
      t' := NIL;
      if !stop { t' := Behind(w, prev', i'); }
    }

    method ScanLinked(w: Where, cancel: Sqe, all: bool) returns (count: nat)
      requires Valid() && w != InWaiting
      modifies this, ops, next, cq, cq.cqes
      ensures Valid() && Scan(State(), count) == ScanFrom(old(State()), cancel, all, w, 0)
    {
      ghost var goal, i := ScanFrom(State(), cancel, all, w, 0), 0;
      var prev := NIL;
      var stop := false;
      count := 0;
      var t := Behind(w, prev, i);
      while t != NIL
        invariant Scanning(w, cancel, all, i, count, goal) && prev == Prev(ListOf(State(), w), i)
        invariant t == At(ListOf(State(), w), i)
        decreases |ListOf(State(), w)| - i
      {
        stop, prev, t, count, i := ScanNext(w, cancel, all, prev, t, count, i, goal);
        if stop { return; }
      }
      ScanEnd(State(), cancel, all, w, i);
    }

    /** What the head, or the link of prev, leads to. */
    method Behind(w: Where, prev: Addr, ghost i: nat) returns (t: Addr)
      requires Valid() && w != InWaiting && i <= |ListOf(State(), w)|
      requires prev == Prev(ListOf(State(), w), i)
      ensures t == At(ListOf(State(), w), i)
    {
      ghost var s := ListOf(State(), w);
      Empty(next[..], HeadOf(heads, w), s);
      if prev == NIL {
        t := HeadOf(heads, w);
      } else {
        assert Follows(next[..], s, i - 1);
        t := next[prev];
      }
    }

    method CancelMatchingOps(cancel: Sqe) returns (res: int)
      requires Valid()
      modifies this, ops, next, waiting, waitSlot, cq, cq.cqes
      ensures Valid() && Cancelled(State(), res) == CancelMatching(old(State()), cancel)
    {
      var all := IsAll(cancel);
      var p := ScanParked(cancel, all);
      if p > 0 && !all { return 0; }
      var q := ScanLinked(InQueue, cancel, all);
      if q > 0 && !all { return 0; }
      var w := ScanLinked(AtWorker, cancel, all);
      if w > 0 && !all { return 0; }
      if p + q + w > 0 { return p + q + w; }
      return if blocking != NIL && blockedDone == NIL then -EALREADY else -ENOENT;
    }

    // ---- the queue ---------------------------------------------------------

    method EmitEach(a: Addr, shots: seq<Shot>)
      requires Valid() && Loose(State(), a)
      modifies this, ops, next, cq, cq.cqes
      ensures Valid() && State() == EmitAll(old(State()), a, shots) && Loose(State(), a)
    {
      ghost var goal := EmitAll(State(), a, shots);
      var i := 0;
      assert shots[0..] == shots;
      while i < |shots|
        invariant Valid() && i <= |shots| && EmitAll(State(), a, shots[i..]) == goal
        invariant Loose(State(), a)
      {
        assert shots[i..][0] == shots[i] && shots[i..][1..] == shots[i + 1..];
        EmitShot(a, shots[i]);
        i := i + 1;
      }
    }

    method EmitShot(a: Addr, shot: Shot)
      requires Valid() && Loose(State(), a)
      modifies this, ops, next, cq, cq.cqes
      ensures Valid() && State() == Emit(old(State()), ShotCqe(old(State()), a, shot)) && Loose(State(), a)
    {
      EmitListed(State(), ShotCqe(State(), a, shot), a);
      EmitCqe(Cqe(ops[a].sqe.userData, shot.res, CqeFlags(true, shot.buffer, shot.bid)));
    }

    method TryHeld(a: Addr, t: Attempt) returns (done: bool, res: int)
      requires Valid() && Loose(State(), a) && next[a] == NIL
      modifies this, ops, next, waiting, waitSlot, cq, cq.cqes
      ensures Valid() && Executed(State(), done, res) == TryOp(old(State()), a, t)
      ensures done ==> Loose(State(), a)
    {
      if t.verdict.FileOp? {
        HandToWorkerOp(a);
        return false, 0;
      }
      EmitEach(a, t.emits);
      if t.verdict.Finished? { return true, t.verdict.res; }
      var parked := ParkOp(a, t.verdict.armed);
      if parked { return false, 0; }
      return true, -EBUSY;
    }

    method ExecuteHeld(a: Addr, t: Attempt) returns (done: bool, res: int)
      requires Valid() && Loose(State(), a) && next[a] == NIL
      modifies this, ops, next, waiting, waitSlot, cq, cq.cqes
      ensures Valid() && Executed(State(), done, res) == ExecuteOp(old(State()), a, t)
      ensures done ==> Loose(State(), a)
    {
      if IsCancel(ops[a].sqe) {
        CancelListed(State(), ops[a].sqe, a);
        CancelFrame(State(), ops[a].sqe);
        done := true;
        res := CancelMatchingOps(ops[a].sqe);
      } else {
        done, res := TryHeld(a, t);
      }
    }

    method ShiftQueue() returns (a: Addr)
      requires Valid() && heads.queue != NIL
      modifies this`heads, this`queue, next
      ensures Valid() && old(queue) != [] && a == old(queue)[0]
      ensures State() == Pop(old(State())) && Loose(State(), a) && next[a] == NIL
    {
      ghost var c, n := State(), next[..];
      Empty(n, heads.queue, queue);
      PopThreaded(n, heads, c);
      PopListed(c);
      a := heads.queue;
      heads := heads.(queue := next[a], queueTail := TailAfter(next[a], heads.queueTail));
      queue := queue[1..];
      ThreadedLoose(n, heads, Pop(c), a, NIL);
      next[a] := NIL;
      assert next[..] == n[a := NIL];
      assert State() == Pop(c);
    }

    method TranslateOp(a: Addr, realfd: int)
      requires Valid() && Loose(State(), a)
      modifies ops
      ensures Valid() && State() == Translate(old(State()), a, realfd) && Loose(State(), a)
    {
      var op := ops[a];
      if NeedsLookup(op) {
        ops[a] := op.(sqe := op.sqe.(fd := realfd, fixedFile := false));
        assert ops[..] == old(ops[..])[a := op.(sqe := op.sqe.(fd := realfd, fixedFile := false))];
      }
      assert State() == Translate(old(State()), a, realfd);
      ApartSame(old(State()), State());
    }

    /** An executed op's answer: the chain's standing, then the completion. */
    method AnswerOp(a: Addr, res: int)
      requires Valid() && Loose(State(), a)
      modifies this, ops, next, cq, cq.cqes
      ensures Valid() && State() == Post(Standing(old(State()), a, res), a, res)
    {
      if res < 0 && ops[a].sqe.link { SetStanding(blocking, FailureOf(ops[a].sqe)); }
      assert State() == Standing(old(State()), a, res);
      PostOp(a, res);
    }

    method RunHeldOp(a: Addr, t: Attempt)
      requires Valid() && Loose(State(), a) && next[a] == NIL
      modifies this, ops, next, waiting, waitSlot, cq, cq.cqes
      ensures Valid() && State() == RunHeld(old(State()), a, t)
    {
      var linked := ops[a].sqe.link;
      if NeedsLookup(ops[a]) && t.lookup < 0 {
        AnswerOp(a, -EBADF);
        return;
      }
      TranslateOp(a, t.lookup);
      if ops[a].sqe.opcode == MsgRing {
        EmitListed(State(), t.msg, a);
        if t.toSelf { EmitCqe(t.msg); }
        PostOp(a, MsgRes(t));
        return;
      }
      var done, res := ExecuteHeld(a, t);
      if done {
        AnswerOp(a, res);
      } else if linked {
        SetStanding(a, chainFailed);
      }
    }

    /** The front of a failed chain. */
    method CancelFrontOp()
      requires Valid() && queue != [] && chainFailed != Holds
      modifies this, ops, next, cq, cq.cqes
      ensures Valid() && State() == CancelFront(old(State()))
    {
      Empty(next[..], heads.queue, queue);
      var a := ShiftQueue();
      var linked := ops[a].sqe.link;
      PostLeaves(State(), a, -ECANCELED);
      if chainFailed == CancelsQuietly { ReleaseOp(a); } else { PostOp(a, -ECANCELED); }
      if !linked { SetStanding(blocking, Holds); }
    }

    method ProcessQueue(env: Addr -> Attempt)
      requires Valid()
      modifies this, ops, next, waiting, waitSlot, cq, cq.cqes
      ensures Valid() && State() == RunQueue(old(State()), env)
    {
      ghost var goal := RunQueue(State(), env);
      var more := Runs();
      while more
        invariant Valid() && RunQueue(State(), env) == goal && more == QueueRuns(State())
        decreases |queue|
      {
        ProcessFront(env);
        more := Runs();
      }
    }

    method Runs() returns (more: bool)
      requires Valid()
      ensures more == QueueRuns(State())
    {
      more := heads.queue != NIL && blocking == NIL;
      Empty(next[..], heads.queue, queue);
    }

    method ProcessFront(env: Addr -> Attempt)
      requires Valid() && QueueRuns(State())
      modifies this, ops, next, waiting, waitSlot, cq, cq.cqes
      ensures Valid() && RunQueue(State(), env) == RunQueue(old(State()), env)
      ensures |queue| < |old(queue)|
    {
      if chainFailed != Holds {
        PostLeaves(Pop(State()), queue[0], -ECANCELED);
        CancelFrontOp();
      } else {
        RunHeldShrinks(Pop(State()), queue[0], env(queue[0]));
        Empty(next[..], heads.queue, queue);
        var a := ShiftQueue();
        RunHeldOp(a, env(a));
      }
    }

    // ---- the wait ----------------------------------------------------------

    method RetryReady(a: Addr, t: Attempt) returns (done: seq<Done>)
      requires Valid() && a in State().waiting
      modifies this, ops, next, waiting, waitSlot, cq, cq.cqes
      ensures Valid() && Retried(State(), done) == RetryOne(old(State()), a, t)
    {
      OffOthers(State(), a);
      WaitingDistinct(State());
      UnparkOp(a);
      if t.verdict.FileOp? { return [Done(a, -EOPNOTSUPP)]; }
      EmitEach(a, t.emits);
      if t.verdict.Finished? { return [Done(a, t.verdict.res)]; }
      var parked := ParkOp(a, t.verdict.armed);
      return if parked then [] else [Done(a, -EBUSY)];
    }

    /** Everything known at the head of the retry loop. */
    ghost predicate Retrying(ready: seq<Addr>, max: nat, env: Addr -> Attempt, done: seq<Done>, goal: Retried)
      reads this, ops, next, waiting, waitSlot, cq, cq.cqes
    {
      && Valid() && Visitable(State(), ready, max, done)
      && goal == FinishReady(State(), ready, max, env, done)
    }

    method RetryNext(ready: seq<Addr>, max: nat, env: Addr -> Attempt, done: seq<Done>, ghost goal: Retried)
      returns (more: seq<Done>)
      requires Retrying(ready, max, env, done, goal) && ready != []
      modifies this, ops, next, waiting, waitSlot, cq, cq.cqes
      ensures Retrying(ready[1..], max, env, done + more, goal)
    {
      VisitableNext(State(), ready, max, env, done);
      more := RetryReady(ready[0], env(ready[0]));
    }

    method FinishReadyOps(ready: seq<Addr>, max: nat, env: Addr -> Attempt) returns (done: seq<Done>)
      requires Valid() && Visitable(State(), ready, max, [])
      modifies this, ops, next, waiting, waitSlot, cq, cq.cqes
      ensures Valid() && Retried(State(), done) == FinishReady(old(State()), ready, max, env, [])
    {
      done := RetryAll(ready, max, env, FinishReady(State(), ready, max, env, []));
    }

    method RetryAll(ready: seq<Addr>, max: nat, env: Addr -> Attempt, ghost goal: Retried) returns (done: seq<Done>)
      requires Retrying(ready, max, env, [], goal)
      modifies this, ops, next, waiting, waitSlot, cq, cq.cqes
      ensures Valid() && Retried(State(), done) == goal
    {
      assert ready[0..] == ready;
      var i := 0;
      done := [];
      while i < |ready| && |done| < max
        invariant RetryingAt(ready, i, max, env, done, goal)
        decreases |ready| - i
      {
        done := RetryAt(ready, i, max, env, done, goal);
        i := i + 1;
      }
      AllRetried(ready, i, max, env, done, goal);
    }

    ghost predicate RetryingAt(ready: seq<Addr>, i: nat, max: nat, env: Addr -> Attempt, done: seq<Done>,
                               goal: Retried)
      reads this, ops, next, waiting, waitSlot, cq, cq.cqes
    {
      i <= |ready| && Retrying(ready[i..], max, env, done, goal)
    }

    method RetryAt(ready: seq<Addr>, i: nat, max: nat, env: Addr -> Attempt, done: seq<Done>, ghost goal: Retried)
      returns (all: seq<Done>)
      requires i < |ready| && RetryingAt(ready, i, max, env, done, goal)
      modifies this, ops, next, waiting, waitSlot, cq, cq.cqes
      ensures RetryingAt(ready, i + 1, max, env, all, goal)
    {
      assert ready[i..][1..] == ready[i + 1..];
      var more := RetryNext(ready[i..], max, env, done, goal);
      all := done + more;
    }

    /** The room is used up only when nothing is left to retry. */
    lemma AllRetried(ready: seq<Addr>, i: nat, max: nat, env: Addr -> Attempt, done: seq<Done>, goal: Retried)
      requires RetryingAt(ready, i, max, env, done, goal) && (i == |ready| || |done| >= max)
      ensures Valid() && Retried(State(), done) == goal
    {
      assert ready[i..] == [];
    }

    method CompleteEach(done: seq<Done>)
      requires Valid() && InHand(State(), done)
      modifies this, ops, next, cq, cq.cqes
      ensures Valid() && State() == CompleteAll(old(State()), done)
    {
      ghost var goal := CompleteAll(State(), done);
      assert done[0..] == done;
      var i := 0;
      while i < |done|
        invariant Valid() && i <= |done| && InHand(State(), done[i..])
        invariant goal == CompleteAll(State(), done[i..])
      {
        assert done[i..][0] == done[i] && done[i..][1..] == done[i + 1..];
        CompleteInHand(State(), done[i..]);
        CompleteOp(done[i].op, done[i].res);
        i := i + 1;
      }
    }

    /** One turn of the wait loop, for whatever the backend found ready. */
    method WaitOnce(ready: seq<Addr>, env: Addr -> Attempt)
      requires Valid() && Distinct(ready) && forall i | 0 <= i < |ready| :: ready[i] in State().waiting
      modifies this, ops, next, waiting, waitSlot, cq, cq.cqes
      ensures Valid() && State() == WaitPass(old(State()), ready, env)
      ensures blockedDone == NIL || blockedDone != blocking
      ensures backlog == [] || |State().unread| >= State().entries
      ensures old(blocking) != NIL && old(blockedDone) == old(blocking) && old(blocking) !in ready ==>
        && blocking == NIL && blockedDone == NIL
        && (old(blockedFailed) != Holds ==> chainFailed == old(blockedFailed) && blockedFailed == Holds)
    {
      WaitTells(State(), ready, env);
      ReadyFits(State(), ready);
      FinishReadyInHand(State(), ready, ops.Length, env);
      var done := FinishReadyOps(ready, ops.Length, env);
      CompleteEach(done);
      ProcessQueue(env);
      SettleWorkerTicket();
    }

    // ---- submissions -------------------------------------------------------

    method TakeOne(sqe: Sqe, batchHead: Addr, batchTail: Addr, ghost batch: seq<Addr>)
      returns (a: Addr, head: Addr)
      requires Valid() && Batched(next[..], State(), batchHead, batchTail, batch)
      modifies this, ops, next
      ensures Valid() && heads == old(heads).(free := heads.free)
      ensures old(State()).free == [] ==> a == NIL && State() == old(State()) && head == batchHead
      ensures old(State()).free == [] ==> next[..] == old(next[..])
      ensures old(State()).free != [] ==> a != NIL && a == old(State()).free[0]
      ensures old(State()).free != [] ==> State() == SetOp(Alloc(old(State())), a, Zeroed().(sqe := sqe))
      ensures old(State()).free != [] ==> Batched(next[..], State(), head, a, batch + [a])
    {
      ghost var c, n, h := State(), next[..], heads;
      a := AllocLocked();
      head := batchHead;
      if a == NIL { return; }
      Empty(n, batchHead, batch);
      ops[a] := ops[a].(sqe := sqe);
      assert State() == SetOp(Alloc(c), a, Zeroed().(sqe := sqe));
      BatchGrows(n, c, batchHead, batchTail, batch, State());
      ApartSame(Alloc(c), State());
      if batchTail != NIL { LinkLoose(batchTail, a); } else { head := a; }
      assert next[..] == Linking(n[a := NIL], batchTail, a);
    }

    /** A link between two ops in hand. */
    method LinkLoose(t: Addr, a: Addr)
      requires Valid() && Loose(State(), t)
      modifies next
      ensures Valid() && State() == old(State()) && next[..] == old(next[..])[t := a]
    {
      ThreadedLoose(next[..], heads, State(), t, a);
      next[t] := a;
      assert next[..] == old(next[..])[t := a];
    }

    /** What the intake has taken so far, and that it is on the way to `goal`. */
    ghost predicate TakingIn(ring: seq<RingEntry>, left: nat, head: Addr, tail: Addr, sofar: Taken, goal: Taken)
      reads this, ops, next, waiting, waitSlot, cq, cq.cqes
    {
      && Valid() && sofar.core == State()
      && Batched(next[..], State(), head, tail, sofar.batch)
      && goal == Joined(sofar, TakeIn(State(), ring, left))
    }

    method TakeInStep(e: RingEntry, head: Addr, tail: Addr, ghost ring: seq<RingEntry>, ghost left: nat,
                      ghost sofar: Taken, ghost goal: Taken)
      returns (empty: bool, head': Addr, tail': Addr, ghost sofar': Taken)
      requires TakingIn(ring, left, head, tail, sofar, goal) && ring != [] && left > 0 && e == ring[0]
      modifies this, ops, next
      ensures heads == old(heads).(free := heads.free)
      ensures empty ==> Valid() && e.Filled? && sofar' == sofar == goal && head' == head && tail' == tail
      ensures empty ==> State() == old(State()) && next[..] == old(next[..])
      ensures !empty ==> TakingIn(ring[1..], left - 1, head', tail', sofar', goal)
      ensures !empty ==> sofar'.submitted == sofar.submitted + 1
      ensures !empty ==> sofar'.dropped == sofar.dropped + if e.PastEnd? then 1 else 0
    {
      empty, head', tail', sofar' := false, head, tail, sofar;
      if e.PastEnd? {
        sofar' := sofar.(submitted := sofar.submitted + 1, dropped := sofar.dropped + 1);
        return;
      }
      var a, first := TakeOne(e.sqe, head, tail, sofar.batch);
      empty := a == NIL;
      if empty { return; }
      head', tail' := first, a;
      sofar' := Taken(State(), sofar.batch + [a], sofar.submitted + 1, sofar.dropped);
      JoinedTake(sofar, a, State(), TakeIn(State(), ring[1..], left - 1));
    }

    method TakeInOps(ring: seq<RingEntry>, toSubmit: nat)
      returns (head: Addr, tail: Addr, submitted: nat, dropped: nat, ghost batch: seq<Addr>)
      requires Valid()
      modifies this, ops, next
      ensures Valid() && Taken(State(), batch, submitted, dropped) == TakeIn(old(State()), ring, toSubmit)
      ensures Batched(next[..], State(), head, tail, batch)
    {
      ghost var goal, sofar := TakeIn(State(), ring, toSubmit), Taken(State(), [], 0, 0);
      head, tail, submitted, dropped := NIL, NIL, 0, 0;
      assert ring[0..] == ring;
      JoinedNone(State(), goal);
      var empty := false;
      while submitted < |ring| && submitted < toSubmit
        invariant submitted <= |ring| && submitted <= toSubmit
        invariant submitted == sofar.submitted && dropped == sofar.dropped
        invariant TakingIn(ring[submitted..], toSubmit - submitted, head, tail, sofar, goal)
        decreases |ring| - submitted
      {
        empty, head, tail, sofar := TakeInAt(ring, submitted, toSubmit, head, tail, sofar, goal);
        if empty { return head, tail, submitted, dropped, sofar.batch; }
        if ring[submitted].PastEnd? { dropped := dropped + 1; }
        submitted := submitted + 1;
      }
      JoinedLast(sofar);
      batch := sofar.batch;
    }

    method TakeInAt(ring: seq<RingEntry>, i: nat, toSubmit: nat, head: Addr, tail: Addr,
                    ghost sofar: Taken, ghost goal: Taken)
      returns (empty: bool, head': Addr, tail': Addr, ghost sofar': Taken)
      requires i < |ring| && i < toSubmit && TakingIn(ring[i..], toSubmit - i, head, tail, sofar, goal)
      modifies this, ops, next
      ensures empty ==> Valid() && sofar' == sofar == goal && sofar.core == State()
      ensures empty ==> Batched(next[..], State(), head', tail', sofar.batch)
      ensures !empty ==> TakingIn(ring[i + 1..], toSubmit - (i + 1), head', tail', sofar', goal)
      ensures !empty ==> sofar'.submitted == sofar.submitted + 1
      ensures !empty ==> sofar'.dropped == sofar.dropped + if ring[i].PastEnd? then 1 else 0
    {
      assert ring[i..][1..] == ring[i + 1..];
      empty, head', tail', sofar' := TakeInStep(ring[i], head, tail, ring[i..], toSubmit - i, sofar, goal);
    }

    method EnqueueBatch(head: Addr, tail: Addr, ghost batch: seq<Addr>)
      requires Valid() && Batched(next[..], State(), head, tail, batch) && batch != []
      modifies this`heads, this`queue, next
      ensures Valid() && State() == Enqueue(old(State()), batch)
    {
      ghost var c, n, h := State(), next[..], heads;
      EnqueueListed(c, Enqueue(c, batch), batch);
      EnqueueThreaded(n, h, c, Enqueue(c, batch), head, tail, batch);
      Empty(n, head, batch);
      if heads.queueTail != NIL { next[heads.queueTail] := head; } else { heads := heads.(queue := head); }
      heads := heads.(queueTail := tail);
      queue := queue + batch;
      assert next[..] == Linking(n, h.queueTail, head);
      assert State() == Enqueue(c, batch);
    }

    /** Enter up to the wait. */
    method Submit(ring: seq<RingEntry>, toSubmit: nat, env: Addr -> Attempt)
      returns (submitted: nat, dropped: nat)
      requires Valid()
      modifies this, ops, next, waiting, waitSlot, cq, cq.cqes
      ensures Valid()
      ensures var r := TakeIn(old(State()), ring, toSubmit);
        && submitted == r.submitted && dropped == r.dropped
        && State() == SubmitPass(old(State()), ring, toSubmit, env)
    {
      ghost var batch;
      var head, tail;
      head, tail, submitted, dropped, batch := TakeInOps(ring, toSubmit);
      Empty(next[..], head, batch);
      if head != NIL {
        EnqueueBatch(head, tail, batch);
        ProcessQueue(env);
      }
    }

    // ---- close -------------------------------------------------------------

    /** With the worker gone and nobody inside, close gives every op back to the pool, each
        once. */
    method Close()
      requires Valid()
      modifies this, next, waiting, waitSlot
      ensures Valid() && backlog == [] && wq == [] && queue == [] && waitingN == 0
      ensures forall x :: Cnt(free, x) == Listed(old(State()), x)
    {
      ghost var c := State();
      ReleaseBacklog(c);
      ReleaseWork(c);
      ReleaseQueue(c);
      ReleaseParked(c);
      forall x ensures Cnt(free, x) == Listed(c, x) { assert Listed(State(), x) == Listed(c, x); }
    }

    ghost predicate SameTotals(c: Core)
      reads this, ops, next, waiting, waitSlot, cq, cq.cqes
    {
      Valid() && forall x :: Listed(State(), x) == Listed(c, x)
    }

    method ReleaseBacklog(ghost c: Core)
      requires SameTotals(c)
      modifies this`heads, this`free, this`backlog, next
      ensures SameTotals(c) && backlog == []
    {
      Empty(next[..], heads.backlog, backlog);
      while heads.backlog != NIL
        invariant SameTotals(c) && (heads.backlog == NIL <==> backlog == [])
        decreases |backlog|
      {
        ghost var was := State();
        var a := ShiftBacklog();
        ReleaseOp(a);
        forall x ensures Listed(State(), x) == Listed(was, x) { CntCons(a, was.free, x); }
        Empty(next[..], heads.backlog, backlog);
      }
    }

    method ReleaseWork(ghost c: Core)
      requires SameTotals(c)
      modifies this`heads, this`free, this`wq, next
      ensures SameTotals(c) && wq == []
    {
      Empty(next[..], heads.wq, wq);
      while heads.wq != NIL
        invariant SameTotals(c) && (heads.wq == NIL <==> wq == [])
        decreases |wq|
      {
        ghost var was := State();
        var a := WorkerTakeOp();
        ReleaseOp(a);
        forall x ensures Listed(State(), x) == Listed(was, x) { CntCons(a, was.free, x); }
        Empty(next[..], heads.wq, wq);
      }
    }

    method ReleaseQueue(ghost c: Core)
      requires SameTotals(c)
      modifies this`heads, this`free, this`queue, next
      ensures SameTotals(c) && queue == []
    {
      Empty(next[..], heads.queue, queue);
      while heads.queue != NIL
        invariant SameTotals(c) && (heads.queue == NIL <==> queue == [])
        decreases |queue|
      {
        ghost var was := State();
        var a := ShiftQueue();
        ReleaseOp(a);
        forall x ensures Listed(State(), x) == Listed(was, x) { CntCons(a, was.free, x); }
        Empty(next[..], heads.queue, queue);
      }
    }

    method ReleaseParked(ghost c: Core)
      requires SameTotals(c)
      modifies this`heads, this`free, this`waitingN, waiting, waitSlot, next
      ensures SameTotals(c) && waitingN == 0
    {
      while waitingN > 0
        invariant SameTotals(c)
        decreases waitingN
      {
        ghost var was := State();
        var a := waiting[waitingN - 1];
        assert a == was.waiting[|was.waiting| - 1];
        OffOthers(was, a);
        WaitingDistinct(was);
        UnparkOp(a);
        ReleaseOp(a);
        forall x ensures Listed(State(), x) == Listed(was, x) {
          CntCons(a, was.free, x);
          CntSwapRemove(was.waiting, IndexOf(was.waiting, a), x);
        }
      }
    }
  }
}
