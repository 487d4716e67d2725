/** Multishot receives and accepts: what one submission answers, and what becomes of the provided
    buffers and the accepted descriptors (src/engine_posix.c:43-87 and 244-405, 560-590). */
module Multishot {
  import opened Lists
  import CompletionRing
  import FixedTable

  const ENOBUFS := 105
  const EFAULT := 14
  const EOPNOTSUPP := 95
  const EAGAIN := 11

  /** sizeof(struct io_uring_recvmsg_out) */
  const OUT_HEADER := 16

  const WORD16 := 0x1_0000

  type U16 = n: nat | n < WORD16

  datatype Buf = Buf(len: nat, bid: U16)

  /** A provided-buffer ring: the caller's memory, the engine's head, the caller's tail. Both
      counters run free and are masked by the size. */
  datatype BufRing = BufRing(bufs: seq<Buf>, head: U16, tail: U16, inUse: bool)

  /** One answer of an op; the last one of a life has `more` false. */
  datatype Answer = Answer(res: int, more: bool, buffer: bool, bid: nat)

  /** What a system call gave; a socket that has given all it has would block. */
  datatype Received = Got(n: nat) | WouldBlock | Failed(errno: int)

  /** One attempt: its answers, whether the last of them ended the op, the buffer head after. */
  datatype Pass = Pass(answers: seq<Answer>, ended: bool, head: U16)

  function Up(h: U16): U16 { if h + 1 == WORD16 then 0 else h + 1 }

  function Down(h: U16): U16 { if h == 0 then WORD16 - 1 else h - 1 }

  function Ahead(h: U16, k: nat): U16
    decreases k
  {
    if k == 0 then h else Ahead(Up(h), k - 1)
  }

  /** How many buffers the caller has put up and the engine not taken. */
  function Avail(r: BufRing): nat {
    if !r.inUse then 0 else if r.tail >= r.head then r.tail - r.head else r.tail + WORD16 - r.head
  }

  function At(r: BufRing, h: U16): Buf
    requires r.bufs != []
  {
    r.bufs[h % |r.bufs|]
  }

  function Ended(r: BufRing, res: int): Pass {
    Pass([Answer(res, false, false, 0)], true, r.head)
  }

  function Parked(r: BufRing): Pass {
    Pass([], false, r.head)
  }

  function Then(a: Answer, p: Pass): Pass {
    Pass([a] + p.answers, p.ended, p.head)
  }

  predicate Empty(r: BufRing) {
    !r.inUse || r.head == r.tail
  }

  // ---- recv --------------------------------------------------------------

  /** One recv of a multishot. Bytes go out with the buffer they are in; anything else gives the
      buffer back. */
  function RecvStep(r: BufRing, select: bool, out: Received): Pass
    requires r.bufs != []
  {
    if select && Empty(r) then Ended(r, -ENOBUFS)
    else match out
      case WouldBlock => Parked(r)
      case Failed(e) => Ended(r, -e)
      case Got(n) =>
        if n == 0 then Ended(r, 0)
        else if select then Pass([Answer(n, true, true, At(r, r.head).bid)], false, Up(r.head))
        else Pass([Answer(n, true, false, 0)], false, r.head)
  }

  predicate GoesOn(p: Pass) {
    p.answers != [] && p.answers[0].more
  }

  function FirstOf(outs: seq<Received>): Received {
    if outs == [] then WouldBlock else outs[0]
  }

  function RecvMany(r: BufRing, select: bool, outs: seq<Received>): Pass
    requires r.bufs != []
    decreases |outs|
  {
    var one := RecvStep(r, select, FirstOf(outs));
    if GoesOn(one) then Then(one.answers[0], RecvMany(r.(head := one.head), select, outs[1..])) else one
  }

  /** A single recv; `dontWait` is the caller's own MSG_DONTWAIT. */
  function RecvOnce(r: BufRing, select: bool, dontWait: bool, out: Received): Pass
    requires r.bufs != []
  {
    if select && Empty(r) then Ended(r, -ENOBUFS)
    else match out
      case WouldBlock => if dontWait then Ended(r, -EAGAIN) else Parked(r)
      case Failed(e) => Ended(r, -e)
      case Got(n) =>
        if n > 0 && select then Pass([Answer(n, false, true, At(r, r.head).bid)], true, Up(r.head))
        else Ended(r, n)
  }

  /** One recvmsg into the next buffer. The end of the stream keeps its buffer, unlike recv's. */
  function MsgOne(r: BufRing, reserved: nat, out: Received): Pass
    requires r.bufs != []
  {
    var header := OUT_HEADER + reserved;
    if Empty(r) then Ended(r, -ENOBUFS)
    else if At(r, r.head).len < header then Ended(r, -EFAULT)
    else match out
      case WouldBlock => Parked(r)
      case Failed(e) => Ended(r, -e)
      case Got(n) => Pass([Answer(header + n, n > 0, true, At(r, r.head).bid)], n == 0, Up(r.head))
  }

  function MsgMany(r: BufRing, reserved: nat, outs: seq<Received>): Pass
    requires r.bufs != []
    decreases |outs|
  {
    var one := MsgOne(r, reserved, FirstOf(outs));
    if GoesOn(one) then Then(one.answers[0], MsgMany(r.(head := one.head), reserved, outs[1..])) else one
  }

  /** Multishot recvmsg: the answer is laid out in a provided buffer, as the message header
      asks, so it takes both. */
  function RecvMsgMany(r: BufRing, asked: bool, select: bool, reserved: nat, outs: seq<Received>): Pass
    requires r.bufs != []
  {
    if !asked then Ended(r, -EFAULT)
    else if !select then Ended(r, -EOPNOTSUPP)
    else MsgMany(r, reserved, outs)
  }

  // ---- what every attempt keeps ------------------------------------------

  function Buffers(answers: seq<Answer>): nat {
    if answers == [] then 0 else (if answers[0].buffer then 1 else 0) + Buffers(answers[1..])
  }

  function Bids(answers: seq<Answer>): (b: seq<nat>)
    ensures |b| == Buffers(answers)
  {
    if answers == [] then [] else (if answers[0].buffer then [answers[0].bid] else []) + Bids(answers[1..])
  }

  /** The buffer ids of the next k entries. */
  function Entries(r: BufRing, k: nat): (b: seq<nat>)
    requires r.bufs != []
    ensures |b| == k
    decreases k
  {
    if k == 0 then [] else [At(r, r.head).bid] + Entries(r.(head := Up(r.head)), k - 1)
  }

  /** Every answer but the ending one says that more may come, the ending one that none will. */
  ghost predicate Grammatical(p: Pass) {
    && (forall i | 0 <= i < |p.answers| :: p.answers[i].more == !(p.ended && i == |p.answers| - 1))
    && (p.ended ==> p.answers != [])
  }

  /** The head moved past exactly the buffers that went out with an answer, in ring order, and
      never past the caller's tail. */
  ghost predicate Conserving(r: BufRing, p: Pass)
    requires r.bufs != []
  {
    var k := Buffers(p.answers);
    && p.head == Ahead(r.head, k)
    && Bids(p.answers) == Entries(r, k)
    && k <= Avail(r)
  }

  lemma ThenKeeps(r: BufRing, a: Answer, p: Pass)
    requires r.bufs != [] && a.more && a.buffer && a.bid == At(r, r.head).bid && !Empty(r)
    requires Grammatical(p) && Conserving(r.(head := Up(r.head)), p)
    ensures Grammatical(Then(a, p)) && Conserving(r, Then(a, p))
  {
    var q := Then(a, p).answers;
    assert q[1..] == p.answers;
  }

  lemma ThenPlain(r: BufRing, a: Answer, p: Pass)
    requires r.bufs != [] && a.more && !a.buffer && Grammatical(p) && Conserving(r, p)
    ensures Grammatical(Then(a, p)) && Conserving(r, Then(a, p))
  {
    var q := Then(a, p).answers;
    assert q[1..] == p.answers;
  }

  lemma LastKeeps(r: BufRing, p: Pass)
    requires r.bufs != []
    requires (exists res :: p == Ended(r, res)) || p == Parked(r)
          || (!Empty(r) && exists res :: p == Pass([Answer(res, false, true, At(r, r.head).bid)], true, Up(r.head)))
    ensures Grammatical(p) && Conserving(r, p)
  {
    if p.answers != [] {
      assert p.answers[1..] == [];
      assert Ahead(r.head, 0) == r.head;
    }
  }

  lemma {:induction false} RecvManyKeeps(r: BufRing, select: bool, outs: seq<Received>)
    requires r.bufs != []
    ensures Grammatical(RecvMany(r, select, outs)) && Conserving(r, RecvMany(r, select, outs))
    decreases |outs|
  {
    var one := RecvStep(r, select, FirstOf(outs));
    if GoesOn(one) {
      var next := r.(head := one.head);
      RecvManyKeeps(next, select, outs[1..]);
      var rest := RecvMany(next, select, outs[1..]);
      if select { ThenKeeps(r, one.answers[0], rest); } else { ThenPlain(r, one.answers[0], rest); }
    } else {
      LastKeeps(r, one);
    }
  }

  lemma RecvOnceKeeps(r: BufRing, select: bool, dontWait: bool, out: Received)
    requires r.bufs != []
    ensures Grammatical(RecvOnce(r, select, dontWait, out)) && Conserving(r, RecvOnce(r, select, dontWait, out))
  {
    LastKeeps(r, RecvOnce(r, select, dontWait, out));
  }

  lemma {:induction false} MsgManyKeeps(r: BufRing, reserved: nat, outs: seq<Received>)
    requires r.bufs != []
    ensures Grammatical(MsgMany(r, reserved, outs)) && Conserving(r, MsgMany(r, reserved, outs))
    decreases |outs|
  {
    var one := MsgOne(r, reserved, FirstOf(outs));
    if GoesOn(one) {
      var next := r.(head := one.head);
      MsgManyKeeps(next, reserved, outs[1..]);
      ThenKeeps(r, one.answers[0], MsgMany(next, reserved, outs[1..]));
    } else {
      LastKeeps(r, one);
    }
  }

  lemma RecvMsgManyKeeps(r: BufRing, asked: bool, select: bool, reserved: nat, outs: seq<Received>)
    requires r.bufs != []
    ensures var p := RecvMsgMany(r, asked, select, reserved, outs); Grammatical(p) && Conserving(r, p)
  {
    LastKeeps(r, Ended(r, -EFAULT));
    LastKeeps(r, Ended(r, -EOPNOTSUPP));
    MsgManyKeeps(r, reserved, outs);
  }

  /** What the socket gives to the n-th call. */
  function Given(outs: seq<Received>, n: nat): Received {
    if n < |outs| then outs[n] else WouldBlock
  }

  /** How an attempt ends that goes on n times: no buffer left when one is needed, a buffer too small for
      the header, the end of the stream, an error, or nothing more to receive, and then it does not end.
      `small` says whether the next buffer is too small. */
  predicate EndsBy(p: Pass, n: nat, select: bool, avail: nat, small: bool, out: Received, eof: int) {
    if select && n == avail then EndsWith(p, n, -105)
    else if select && small then EndsWith(p, n, -14)
    else match out
      case WouldBlock => !p.ended
      case Failed(e) => EndsWith(p, n, -e)
      case Got(m) => m == 0 && EndsWith(p, n, eof)
  }

  predicate EndsWith(p: Pass, n: nat, res: int) {
    p.ended && |p.answers| == n + 1 && p.answers[n].res == res
  }

  /** What the answers say: each more-to-come one is what the socket gave, in order, behind a header of
      this size; and exactly why the attempt stops there. */
  ghost predicate Truthful(r: BufRing, p: Pass, select: bool, outs: seq<Received>, header: nat)
    requires r.bufs != []
  {
    var n := |p.answers| - (if p.ended then 1 else 0);
    && 0 <= n <= |outs| && (select ==> n <= Avail(r))
    && (forall i | 0 <= i < n :: outs[i].Got? && outs[i].n > 0 && p.answers[i].res == header + outs[i].n)
    && EndsBy(p, n, select, Avail(r), At(r, Ahead(r.head, n)).len < header, Given(outs, n), header)
  }

  lemma EndsByThen(a: Answer, p: Pass, n: nat, select: bool, avail: nat, small: bool, out: Received, eof: int)
    requires EndsBy(p, n, select, avail, small, out, eof)
    ensures EndsBy(Then(a, p), n + 1, select, avail + 1, small, out, eof)
    ensures !select ==> EndsBy(Then(a, p), n + 1, select, avail, small, out, eof)
  {
  }

  lemma TruthfulThen(r: BufRing, next: BufRing, a: Answer, p: Pass, select: bool, outs: seq<Received>, header: nat)
    requires r.bufs != [] && outs != [] && outs[0].Got? && outs[0].n > 0 && a.res == header + outs[0].n
    requires next == (if select then r.(head := Up(r.head)) else r)
    requires select ==> !Empty(r)
    requires select || header == 0
    requires Truthful(next, p, select, outs[1..], header) && (p.ended ==> p.answers != [])
    ensures Truthful(r, Then(a, p), select, outs, header)
  {
    var q := Then(a, p).answers;
    assert q[1..] == p.answers;
    var n := |p.answers| - (if p.ended then 1 else 0);
    assert Given(outs, n + 1) == Given(outs[1..], n);
    assert Ahead(r.head, n + 1) == Ahead(Up(r.head), n);
    EndsByThen(a, p, n, select, Avail(next), At(next, Ahead(next.head, n)).len < header, Given(outs[1..], n), header);
    forall i | 0 <= i < n + 1 ensures outs[i].Got? && outs[i].n > 0 && q[i].res == header + outs[i].n {
      if i > 0 { assert q[i] == p.answers[i - 1] && outs[i] == outs[1..][i - 1]; }
    }
  }

  lemma {:induction false} RecvManyTells(r: BufRing, select: bool, outs: seq<Received>)
    requires r.bufs != []
    ensures Truthful(r, RecvMany(r, select, outs), select, outs, 0)
    decreases |outs|
  {
    var one := RecvStep(r, select, FirstOf(outs));
    if GoesOn(one) {
      var next := r.(head := one.head);
      RecvManyTells(next, select, outs[1..]);
      RecvManyKeeps(next, select, outs[1..]);
      TruthfulThen(r, next, one.answers[0], RecvMany(next, select, outs[1..]), select, outs, 0);
    }
  }

  lemma {:induction false} MsgManyTells(r: BufRing, reserved: nat, outs: seq<Received>)
    requires r.bufs != []
    ensures Truthful(r, MsgMany(r, reserved, outs), true, outs, 16 + reserved)
    decreases |outs|
  {
    var one := MsgOne(r, reserved, FirstOf(outs));
    if GoesOn(one) {
      var next := r.(head := one.head);
      var rest := MsgMany(next, reserved, outs[1..]);
      MsgManyTells(next, reserved, outs[1..]);
      MsgManyKeeps(next, reserved, outs[1..]);
      assert MsgMany(r, reserved, outs) == Then(one.answers[0], rest);
      TruthfulThen(r, next, one.answers[0], rest, true, outs, 16 + reserved);
    } else {
      MsgOneTells(r, reserved, outs);
    }
  }

  lemma MsgOneTells(r: BufRing, reserved: nat, outs: seq<Received>)
    requires r.bufs != [] && !GoesOn(MsgOne(r, reserved, FirstOf(outs)))
    ensures Truthful(r, MsgOne(r, reserved, FirstOf(outs)), true, outs, 16 + reserved)
  {
  }

  /** A multishot recvmsg that was not asked for properly, or without a provided buffer, answers that
      and touches no buffer. */
  lemma RecvMsgRefused(r: BufRing, asked: bool, select: bool, reserved: nat, outs: seq<Received>)
    requires r.bufs != [] && !(asked && select)
    ensures RecvMsgMany(r, asked, select, reserved, outs)
         == Pass([Answer(if !asked then -14 else -95, false, false, 0)], true, r.head)
  {
  }

  /** A single recv: what the socket gave is the answer, with the buffer exactly when bytes came into
      one; a socket with nothing to give parks the op unless the caller would not wait. */
  lemma RecvOnceTells(r: BufRing, select: bool, dontWait: bool, out: Received)
    requires r.bufs != []
    ensures var p := RecvOnce(r, select, dontWait, out);
      if select && Avail(r) == 0 then p == Pass([Answer(-105, false, false, 0)], true, r.head)
      else match out
        case WouldBlock =>
          p == if dontWait then Pass([Answer(-11, false, false, 0)], true, r.head) else Pass([], false, r.head)
        case Failed(e) => p == Pass([Answer(-e, false, false, 0)], true, r.head)
        case Got(n) =>
          p == if select && n > 0
               then Pass([Answer(n, false, true, r.bufs[r.head % |r.bufs|].bid)], true, (r.head + 1) % 0x1_0000)
               else Pass([Answer(n, false, false, 0)], true, r.head)
  {
  }

  /** Whether the answer that ends an attempt carries a buffer. */
  predicate EndsWithBuffer(p: Pass) {
    p.ended && p.answers != [] && p.answers[|p.answers| - 1].buffer
  }

  /** The socket has no more to give, and the attempt says so with res. */
  predicate EndsAtEof(p: Pass, outs: seq<Received>, res: int) {
    && p.ended && 0 < |p.answers| <= |outs| && outs[|p.answers| - 1] == Got(0)
    && p.answers[|p.answers| - 1].res == res
  }

  lemma {:induction false} RecvEnding(r: BufRing, select: bool, outs: seq<Received>)
    requires r.bufs != []
    ensures !EndsWithBuffer(RecvMany(r, select, outs))
    decreases |outs|
  {
    var one := RecvStep(r, select, FirstOf(outs));
    if GoesOn(one) { RecvEnding(r.(head := one.head), select, outs[1..]); }
  }

  lemma {:induction false} MsgEnding(r: BufRing, reserved: nat, outs: seq<Received>)
    requires r.bufs != []
    ensures var p := MsgMany(r, reserved, outs);
      EndsWithBuffer(p) <==> EndsAtEof(p, outs, OUT_HEADER + reserved)
    decreases |outs|
  {
    var one := MsgOne(r, reserved, FirstOf(outs));
    if GoesOn(one) {
      var next := r.(head := one.head);
      MsgEnding(next, reserved, outs[1..]);
      EndingThen(one.answers[0], MsgMany(next, reserved, outs[1..]), outs, OUT_HEADER + reserved);
    }
  }

  lemma EndingThen(a: Answer, p: Pass, outs: seq<Received>, res: int)
    requires a.more && outs != [] && outs[0] != Got(0) && (p.ended ==> p.answers != [])
    ensures EndsWithBuffer(Then(a, p)) == EndsWithBuffer(p)
    ensures EndsAtEof(Then(a, p), outs, res) == EndsAtEof(p, outs[1..], res)
  {
    var q := Then(a, p).answers;
    assert q[1..] == p.answers;
  }

  /** Whatever the socket gives: the answer that ends a multishot recv never carries a buffer, the one
      that ends a recvmsg does exactly at the end of the stream. */
  lemma EndOfStream(r: BufRing, select: bool, reserved: nat, outs: seq<Received>)
    requires r.bufs != []
    ensures !EndsWithBuffer(RecvMany(r, select, outs))
    ensures var p := RecvMsgMany(r, true, true, reserved, outs);
      EndsWithBuffer(p) <==> EndsAtEof(p, outs, OUT_HEADER + reserved)
  {
    RecvEnding(r, select, outs);
    MsgEnding(r, reserved, outs);
  }

  // ---- ring order --------------------------------------------------------

  lemma UpSlot(h: U16, n: nat, j: nat)
    requires n > 0 && WORD16 % n == 0
    ensures (Up(h) + j) % n == (h + (j + 1)) % n
  {
    if h + 1 == WORD16 { CompletionRing.SlotShift(j, WORD16, n); }
  }

  /** The entries go round the ring slot after slot, across the wrap of the 16-bit counter too. */
  lemma {:induction false} RingOrder(r: BufRing, k: nat, j: nat)
    requires r.bufs != [] && WORD16 % |r.bufs| == 0 && j < k
    ensures Entries(r, k)[j] == r.bufs[(r.head + j) % |r.bufs|].bid
    decreases k
  {
    if j > 0 {
      RingOrder(r.(head := Up(r.head)), k - 1, j - 1);
      UpSlot(r.head, |r.bufs|, j - 1);
    }
  }

  // ---- across parks and retries ------------------------------------------

  /** The attempts at one op: it is tried again after each that parked it, and never after the
      one that ended it. */
  ghost predicate Life(passes: seq<Pass>) {
    && (forall i | 0 <= i < |passes| :: Grammatical(passes[i]))
    && (forall i | 0 <= i < |passes| - 1 :: !passes[i].ended)
  }

  function AllAnswers(passes: seq<Pass>): seq<Answer> {
    if passes == [] then [] else AllAnswers(passes[..|passes| - 1]) + passes[|passes| - 1].answers
  }

  function Over(passes: seq<Pass>): bool {
    passes != [] && passes[|passes| - 1].ended
  }

  /** Over its whole life an op answers any number of times that more may come, then at most once
      that it is over, and nothing after that. */
  lemma {:induction false} LifeGrammar(passes: seq<Pass>)
    requires Life(passes)
    ensures Grammatical(Pass(AllAnswers(passes), Over(passes), 0))
  {
    if passes != [] {
      var front, last := passes[..|passes| - 1], passes[|passes| - 1];
      assert Life(front) && !Over(front);
      LifeGrammar(front);
    }
  }

  /** Attempts of any ops at one buffer group, one after the other; between them the caller may
      rewrite the entries and move its tail. */
  ghost predicate Successive(rings: seq<BufRing>, passes: seq<Pass>) {
    && |rings| == |passes|
    && (forall i | 0 <= i < |rings| :: rings[i].bufs != [] && Conserving(rings[i], passes[i]))
    && (forall i | 0 <= i < |rings| - 1 :: rings[i + 1].head == passes[i].head)
  }

  lemma {:induction false} BuffersConcat(p: seq<Answer>, q: seq<Answer>)
    ensures Buffers(p + q) == Buffers(p) + Buffers(q)
  {
    if p == [] { assert p + q == q; } else { assert (p + q)[1..] == p[1..] + q; BuffersConcat(p[1..], q); }
  }

  lemma {:induction false} AheadTwice(h: U16, j: nat, k: nat)
    ensures Ahead(Ahead(h, j), k) == Ahead(h, j + k)
    decreases j
  {
    if j > 0 { AheadTwice(Up(h), j - 1, k); }
  }

  /** The 16-bit head counts the answers that carried a buffer, over any number of attempts. */
  lemma {:induction false} HeadCountsBuffers(rings: seq<BufRing>, passes: seq<Pass>)
    requires Successive(rings, passes) && passes != []
    ensures passes[|passes| - 1].head == Ahead(rings[0].head, Buffers(AllAnswers(passes)))
    decreases |passes|
  {
    var n := |passes| - 1;
    BuffersConcat(AllAnswers(passes[..n]), passes[n].answers);
    if n > 0 {
      HeadCountsBuffers(rings[..n], passes[..n]);
      assert rings[n - 1 + 1].head == passes[n - 1].head;
      AheadTwice(rings[0].head, Buffers(AllAnswers(passes[..n])), Buffers(passes[n].answers));
    } else {
      assert passes[..n] == [] && AllAnswers([]) == [];
    }
  }

  // ---- the engine's code -------------------------------------------------

  class Group {
    const bufs: array<Buf>
    var head: U16
    var tail: U16
    var inUse: bool

    ghost function State(): BufRing
      reads this, bufs
    {
      BufRing(bufs[..], head, tail, inUse)
    }

    constructor (entries: nat)
      requires 0 < entries <= 0x8000 && WORD16 % entries == 0
      ensures bufs.Length == entries && head == 0 && inUse
    {
      bufs := new Buf[entries](_ => Buf(0, 0));
      head, tail, inUse := 0, 0, true;
    }

    method Take() returns (ok: bool, buf: Buf)
      requires bufs.Length > 0
      modifies this`head
      ensures ok == !Empty(old(State()))
      ensures !ok ==> State() == old(State())
      ensures ok ==> State() == old(State()).(head := Up(old(head))) && buf == At(old(State()), old(head))
    {
      if !inUse || tail == head { return false, Buf(0, 0); }
      buf := bufs[head % bufs.Length];
      head := Up(head);
      return true, buf;
    }

    /** Only the engine consumes, so taking a step back returns the buffer. */
    method Unget()
      modifies this`head
      ensures State() == old(State()).(head := Down(old(head)))
    {
      head := Down(head);
    }

    method RunRecvStep(select: bool, out: Received) returns (answers: seq<Answer>, ended: bool)
      requires bufs.Length > 0
      modifies this`head
      ensures Pass(answers, ended, head) == RecvStep(old(State()), select, out)
      ensures State() == old(State()).(head := head)
    {
      var ok, buf := true, Buf(0, 0);
      if select {
        ok, buf := Take();
        if !ok { return [Answer(-ENOBUFS, false, false, 0)], true; }
      }
      if out.Got? && out.n > 0 { return [Answer(out.n, true, select, if select then buf.bid else 0)], false; }
      if select { Unget(); }
      if out.WouldBlock? { return [], false; }
      return [Answer(if out.Failed? then -out.errno else 0, false, false, 0)], true;
    }

    method RunRecvMany(select: bool, outs: seq<Received>) returns (answers: seq<Answer>, ended: bool)
      requires bufs.Length > 0
      modifies this`head
      ensures Pass(answers, ended, head) == RecvMany(old(State()), select, outs)
      ensures State() == old(State()).(head := head)
    {
      ghost var goal := RecvMany(State(), select, outs);
      answers := [];
      var i := 0;
      while true
        invariant i <= |outs| && State() == old(State()).(head := head)
        invariant goal == Joined(answers, RecvMany(State(), select, outs[i..]))
        decreases |outs| - i
      {
        var one, over := RunRecvStep(select, if i < |outs| then outs[i] else WouldBlock);
        if !(one != [] && one[0].more) { return answers + one, over; }
        assert outs[i..][1..] == outs[i + 1..];
        JoinedThen(answers, one[0], RecvMany(State(), select, outs[i + 1..]));
        answers := answers + [one[0]];
        i := i + 1;
      }
    }

    method RunRecvOnce(select: bool, dontWait: bool, out: Received) returns (answers: seq<Answer>, ended: bool)
      requires bufs.Length > 0
      modifies this`head
      ensures Pass(answers, ended, head) == RecvOnce(old(State()), select, dontWait, out)
      ensures State() == old(State()).(head := head)
    {
      var ok, buf := true, Buf(0, 0);
      if select {
        ok, buf := Take();
        if !ok { return [Answer(-ENOBUFS, false, false, 0)], true; }
      }
      var got := out.Got? && out.n > 0;
      if !got && select { Unget(); }
      if out.WouldBlock? && !dontWait { return [], false; }
      var res := match out case Got(n) => n case WouldBlock => -EAGAIN case Failed(e) => -e;
      var filled := got && select;
      return [Answer(res, false, filled, if filled then buf.bid else 0)], true;
    }

    method RunMsgOne(reserved: nat, out: Received) returns (answers: seq<Answer>, ended: bool)
      requires bufs.Length > 0
      modifies this`head
      ensures Pass(answers, ended, head) == MsgOne(old(State()), reserved, out)
      ensures State() == old(State()).(head := head)
    {
      var header := OUT_HEADER + reserved;
      var ok, buf := Take();
      if !ok { return [Answer(-ENOBUFS, false, false, 0)], true; }
      if buf.len < header {
        Unget();
        return [Answer(-EFAULT, false, false, 0)], true;
      }
      if out.Got? { return [Answer(header + out.n, out.n > 0, true, buf.bid)], out.n == 0; }
      Unget();
      if out.WouldBlock? { return [], false; }
      return [Answer(-out.errno, false, false, 0)], true;
    }

    method RunRecvMsgMany(asked: bool, select: bool, reserved: nat, outs: seq<Received>)
      returns (answers: seq<Answer>, ended: bool)
      requires bufs.Length > 0
      modifies this`head
      ensures Pass(answers, ended, head) == RecvMsgMany(old(State()), asked, select, reserved, outs)
      ensures State() == old(State()).(head := head)
    {
      if !asked { return [Answer(-EFAULT, false, false, 0)], true; }
      if !select { return [Answer(-EOPNOTSUPP, false, false, 0)], true; }
      ghost var goal := MsgMany(State(), reserved, outs);
      answers := [];
      var i := 0;
      while true
        invariant i <= |outs| && State() == old(State()).(head := head)
        invariant goal == Joined(answers, MsgMany(State(), reserved, outs[i..]))
        decreases |outs| - i
      {
        var one, over := RunMsgOne(reserved, if i < |outs| then outs[i] else WouldBlock);
        if !(one != [] && one[0].more) { return answers + one, over; }
        assert outs[i..][1..] == outs[i + 1..];
        JoinedThen(answers, one[0], MsgMany(State(), reserved, outs[i + 1..]));
        answers := answers + [one[0]];
        i := i + 1;
      }
    }
  }

  function Joined(first: seq<Answer>, p: Pass): Pass {
    Pass(first + p.answers, p.ended, p.head)
  }

  lemma JoinedThen(first: seq<Answer>, a: Answer, p: Pass)
    ensures Joined(first, Then(a, p)) == Joined(first + [a], p)
  {
    assert first + ([a] + p.answers) == (first + [a]) + p.answers;
  }

  // ---- accept ------------------------------------------------------------

  datatype Arrival = Connection(fd: nat) | NoneYet | Refused(errno: int)

  /** One attempt at a multishot accept: its answers, whether it is over, the fixed table after,
      every descriptor accepted, and those closed again because the table would not take them. */
  datatype AcceptPass = AcceptPass(answers: seq<Answer>, ended: bool, slots: FixedTable.Slots,
                                   accepted: seq<nat>, closed: seq<nat>)

  function Direct(t: FixedTable.Slots, fileIndex: FixedTable.U32, fd: nat): (o: FixedTable.Outcome)
    requires FixedTable.InRange(t)
    ensures FixedTable.InRange(o.slots)
  {
    FixedTable.InstallFd(t, fileIndex, fd)
  }

  /** A descriptor is answered as it is, or put into the fixed table: the answer is then its slot,
      or 0 for a slot the caller named. */
  function AcceptMany(t: FixedTable.Slots, fileIndex: FixedTable.U32, outs: seq<Arrival>): AcceptPass
    requires FixedTable.InRange(t)
    decreases |outs|
  {
    if outs == [] || outs[0].NoneYet? then AcceptPass([], false, t, [], [])
    else match outs[0]
      case Refused(e) => AcceptPass([Answer(-e, false, false, 0)], true, t, [], [])
      case Connection(fd) =>
        if fileIndex == 0 then AcceptThen(fd, fd, AcceptMany(t, fileIndex, outs[1..]))
        else
          var o := Direct(t, fileIndex, fd);
          if o.res < 0 then AcceptPass([Answer(o.res, false, false, 0)], true, t, [fd], [fd])
          else AcceptThen(if fileIndex == FixedTable.ALLOC then o.res else 0, fd,
                          AcceptMany(o.slots, fileIndex, outs[1..]))
  }

  function AcceptThen(answer: int, fd: nat, p: AcceptPass): AcceptPass {
    p.(answers := [Answer(answer, true, false, 0)] + p.answers, accepted := [fd] + p.accepted)
  }

  ghost predicate AcceptGrammatical(p: AcceptPass) {
    && (forall i | 0 <= i < |p.answers| :: p.answers[i].more == !(p.ended && i == |p.answers| - 1))
    && (p.ended ==> p.answers != [])
  }

  lemma {:induction false} AcceptGrammar(t: FixedTable.Slots, fileIndex: FixedTable.U32, outs: seq<Arrival>)
    requires FixedTable.InRange(t)
    ensures AcceptGrammatical(AcceptMany(t, fileIndex, outs))
    decreases |outs|
  {
    if outs != [] && outs[0].Connection? {
      AcceptGrammar(t, fileIndex, outs[1..]);
      if fileIndex != 0 { AcceptGrammar(Direct(t, fileIndex, outs[0].fd).slots, fileIndex, outs[1..]); }
    }
  }

  /** Without a file index every accepted descriptor is answered, in order, and none is kept or
      closed. */
  lemma {:induction false} AcceptPlain(t: FixedTable.Slots, outs: seq<Arrival>)
    requires FixedTable.InRange(t)
    ensures var p := AcceptMany(t, 0, outs);
      && p.slots == t && p.closed == []
      && |p.accepted| == |p.answers| - (if p.ended then 1 else 0)
      && forall i | 0 <= i < |p.accepted| :: p.answers[i].res == p.accepted[i]
    decreases |outs|
  {
    if outs != [] && outs[0].Connection? { AcceptPlain(t, outs[1..]); }
  }

  lemma CntUpdate(s: seq<int>, k: nat, v: int, x: int)
    requires k < |s|
    ensures Cnt(s[k := v], x) == Cnt(s, x) + (if x == v then 1 else 0) - (if x == s[k] then 1 else 0)
  {
    assert s == s[..k] + ([s[k]] + s[k + 1..]);
    assert s[k := v] == s[..k] + ([v] + s[k + 1..]);
    CntMiddle(s[..k], s[k], s[k + 1..], x);
    CntMiddle(s[..k], v, s[k + 1..], x);
  }

  lemma DirectCounts(t: FixedTable.Slots, fileIndex: FixedTable.U32, fd: nat, x: nat)
    requires FixedTable.InRange(t) && fileIndex != 0
    ensures var o := Direct(t, fileIndex, fd);
      if o.res < 0 then o.slots == t
      else Cnt(o.slots.fixed, x) == Cnt(t.fixed, x) + if x == fd then 1 else 0
  {
    var o := Direct(t, fileIndex, fd);
    if o.res >= 0 { CntUpdate(t.fixed, o.res, fd, x); }
  }

  /** With a file index no accepted descriptor is lost or kept twice: it is in the table or was
      closed. */
  lemma {:induction false} AcceptKeepsCount(t: FixedTable.Slots, fileIndex: FixedTable.U32, outs: seq<Arrival>, x: nat)
    requires FixedTable.InRange(t) && fileIndex != 0
    ensures var p := AcceptMany(t, fileIndex, outs);
      Cnt(p.slots.fixed, x) + Cnt<nat>(p.closed, x) == Cnt(t.fixed, x) + Cnt<nat>(p.accepted, x)
    decreases |outs|
  {
    if outs != [] && outs[0].Connection? {
      var fd := outs[0].fd;
      DirectCounts(t, fileIndex, fd, x);
      var o := Direct(t, fileIndex, fd);
      if o.res >= 0 {
        AcceptKeepsCount(o.slots, fileIndex, outs[1..], x);
        CntCons(fd, AcceptMany(o.slots, fileIndex, outs[1..]).accepted, x);
      }
    }
  }

  lemma DirectKeeps(t: FixedTable.Slots, fileIndex: FixedTable.U32, fd: nat, slot: nat)
    requires FixedTable.InRange(t) && FixedTable.LookupFd(t, slot) >= 0
    ensures FixedTable.LookupFd(Direct(t, fileIndex, fd).slots, slot) == FixedTable.LookupFd(t, slot)
  {
  }

  lemma {:induction false} AcceptKeepsSlots(t: FixedTable.Slots, fileIndex: FixedTable.U32,
                                             outs: seq<Arrival>, slot: nat)
    requires FixedTable.InRange(t) && FixedTable.LookupFd(t, slot) >= 0
    ensures FixedTable.LookupFd(AcceptMany(t, fileIndex, outs).slots, slot) == FixedTable.LookupFd(t, slot)
    decreases |outs|
  {
    if outs != [] && outs[0].Connection? {
      if fileIndex == 0 {
        AcceptKeepsSlots(t, fileIndex, outs[1..], slot);
      } else {
        DirectKeeps(t, fileIndex, outs[0].fd, slot);
        AcceptKeepsSlots(Direct(t, fileIndex, outs[0].fd).slots, fileIndex, outs[1..], slot);
      }
    }
  }

  /** When the table picks the slot, each more-to-come answer is the slot that holds the descriptor
      accepted for it. */
  lemma {:induction false} AcceptSlots(t: FixedTable.Slots, outs: seq<Arrival>, i: nat)
    requires FixedTable.InRange(t)
    requires var p := AcceptMany(t, FixedTable.ALLOC, outs); i < |p.answers| && p.answers[i].more
    ensures var p := AcceptMany(t, FixedTable.ALLOC, outs);
      && i < |p.accepted| && p.answers[i].res >= 0
      && FixedTable.LookupFd(p.slots, p.answers[i].res) == p.accepted[i]
    decreases |outs|
  {
    var o := Direct(t, FixedTable.ALLOC, outs[0].fd);
    var rest := AcceptMany(o.slots, FixedTable.ALLOC, outs[1..]);
    if i == 0 {
      AcceptKeepsSlots(o.slots, FixedTable.ALLOC, outs[1..], o.res);
    } else {
      AcceptSlots(o.slots, outs[1..], i - 1);
    }
  }

  /** How many connections come before anything else. */
  function Leading(outs: seq<Arrival>): (n: nat)
    ensures n <= |outs| && forall i | 0 <= i < n :: outs[i].Connection?
  {
    if outs != [] && outs[0].Connection? then 1 + Leading(outs[1..]) else 0
  }

  lemma {:induction false} NamedSlotFull(t: FixedTable.Slots, fileIndex: FixedTable.U32, outs: seq<Arrival>)
    requires FixedTable.InRange(t) && 0 < fileIndex <= |t.fixed| < FixedTable.ALLOC && t.fixed[fileIndex - 1] >= 0
    ensures var p := AcceptMany(t, fileIndex, outs);
      if Leading(outs) == 0 then p.accepted == [] && p.closed == []
      else p == AcceptPass([Answer(-FixedTable.EBUSY, false, false, 0)], true, t, [outs[0].fd], [outs[0].fd])
  {
  }

  /** A slot the caller named takes one connection if it is free and none if it is not, whatever
      arrives; the next one after that is closed and ends the accept with -EBUSY. */
  lemma NamedSlotTakesOne(t: FixedTable.Slots, fileIndex: FixedTable.U32, outs: seq<Arrival>)
    requires FixedTable.InRange(t) && 0 < fileIndex <= |t.fixed| < FixedTable.ALLOC
    ensures var p, room := AcceptMany(t, fileIndex, outs), if t.fixed[fileIndex - 1] < 0 then 1 else 0;
      if Leading(outs) <= room then |p.accepted| == Leading(outs) && p.closed == []
      else
        && |p.accepted| == room + 1 && p.closed == [outs[room].fd] && p.ended
        && p.answers == (if room == 1 then [Answer(0, true, false, 0)] else [])
                        + [Answer(-FixedTable.EBUSY, false, false, 0)]
  {
    if t.fixed[fileIndex - 1] >= 0 {
      NamedSlotFull(t, fileIndex, outs);
    } else if outs != [] && outs[0].Connection? {
      var o := Direct(t, fileIndex, outs[0].fd);
      assert o.res == fileIndex - 1;
      NamedSlotFull(o.slots, fileIndex, outs[1..]);
    }
  }

  /** Why an accept stops: what arrived was refused, and the answer is that error; or a connection found no
      slot, and the answer is the table's; or nobody else is there yet, and it does not end. */
  ghost predicate AcceptStops(p: AcceptPass, fileIndex: FixedTable.U32, outs: seq<Arrival>) {
    var n, m := |p.accepted|, |p.answers|;
    && n <= |outs| && (forall i | 0 <= i < n :: outs[i] == Connection(p.accepted[i]))
    && if !p.ended then p.closed == [] && m == n && (n == |outs| || outs[n].NoneYet?)
       else if p.closed == [] then m == n + 1 && n < |outs| && outs[n].Refused? && p.answers[n].res == -outs[n].errno
       else NoPlace(p, fileIndex)
  }

  /** The last connection was closed, for the table would not take it. */
  ghost predicate NoPlace(p: AcceptPass, fileIndex: FixedTable.U32) {
    var n := |p.accepted|;
    && n > 0 && |p.answers| == n && p.closed == [p.accepted[n - 1]]
    && fileIndex != 0 && FixedTable.InRange(p.slots) && p.answers[n - 1].res < 0
    && FixedTable.InstallFd(p.slots, fileIndex, p.accepted[n - 1]).res == p.answers[n - 1].res
  }

  lemma AcceptStopsThen(answer: int, fd: nat, p: AcceptPass, fileIndex: FixedTable.U32, outs: seq<Arrival>)
    requires outs != [] && outs[0] == Connection(fd) && AcceptStops(p, fileIndex, outs[1..])
    ensures AcceptStops(AcceptThen(answer, fd, p), fileIndex, outs)
  {
    var q := AcceptThen(answer, fd, p);
    assert q.accepted[1..] == p.accepted && q.answers[1..] == p.answers;
    forall i | 0 <= i < |q.accepted| ensures outs[i] == Connection(q.accepted[i]) {
      if i > 0 { assert outs[i] == outs[1..][i - 1] && q.accepted[i] == p.accepted[i - 1]; }
    }
  }

  lemma {:induction false} AcceptTells(t: FixedTable.Slots, fileIndex: FixedTable.U32, outs: seq<Arrival>)
    requires FixedTable.InRange(t)
    ensures AcceptStops(AcceptMany(t, fileIndex, outs), fileIndex, outs)
    decreases |outs|
  {
    if outs != [] && outs[0].Connection? {
      var o, fd := Place(t, fileIndex, outs[0].fd), outs[0].fd;
      AcceptStep(t, fileIndex, outs);
      if o.res >= 0 {
        AcceptTells(o.slots, fileIndex, outs[1..]);
        AcceptStopsThen(o.res, fd, AcceptMany(o.slots, fileIndex, outs[1..]), fileIndex, outs);
      } else {
        DirectCounts(t, fileIndex, fd, 0);
      }
    }
  }

  /** What to do with one connection: the answer, or an error for which it is closed again. */
  function Place(t: FixedTable.Slots, fileIndex: FixedTable.U32, fd: nat): FixedTable.Outcome
    requires FixedTable.InRange(t)
  {
    if fileIndex == 0 then FixedTable.Outcome(t, fd)
    else
      var o := Direct(t, fileIndex, fd);
      if o.res < 0 || fileIndex == FixedTable.ALLOC then o else o.(res := 0)
  }

  lemma AcceptStep(t: FixedTable.Slots, fileIndex: FixedTable.U32, outs: seq<Arrival>)
    requires FixedTable.InRange(t) && outs != [] && outs[0].Connection?
    ensures var o := Place(t, fileIndex, outs[0].fd);
      && FixedTable.InRange(o.slots)
      && AcceptMany(t, fileIndex, outs)
         == if o.res < 0 then AcceptPass([Answer(o.res, false, false, 0)], true, o.slots, [outs[0].fd], [outs[0].fd])
            else AcceptThen(o.res, outs[0].fd, AcceptMany(o.slots, fileIndex, outs[1..]))
  {
    if fileIndex != 0 { DirectCounts(t, fileIndex, outs[0].fd, 0); }
  }

  method PlaceFd(table: FixedTable.Table, fileIndex: FixedTable.U32, fd: nat) returns (res: int)
    requires table.Valid()
    modifies table`hint, table.fixed
    ensures table.Valid() && FixedTable.InRange(old(table.State()))
    ensures FixedTable.Outcome(table.State(), res) == Place(old(table.State()), fileIndex, fd)
  {
    if fileIndex == 0 { return fd; }
    res := table.Install(fileIndex, fd);
    if res >= 0 && fileIndex != FixedTable.ALLOC { res := 0; }
  }

  /** One turn of the accept loop. */
  lemma AcceptAdvances(t: FixedTable.Slots, fileIndex: FixedTable.U32, outs: seq<Arrival>, i: nat,
                       answers: seq<Answer>, accepted: seq<nat>)
    requires FixedTable.InRange(t) && i < |outs| && outs[i].Connection?
    ensures var o, fd := Place(t, fileIndex, outs[i].fd), outs[i].fd;
      && FixedTable.InRange(o.slots)
      && AcceptJoined(answers, accepted, AcceptMany(t, fileIndex, outs[i..]))
         == if o.res < 0
            then AcceptPass(answers + [Answer(o.res, false, false, 0)], true, o.slots, accepted + [fd], [fd])
            else AcceptJoined(answers + [Answer(o.res, true, false, 0)], accepted + [fd],
                              AcceptMany(o.slots, fileIndex, outs[i + 1..]))
  {
    assert outs[i..][0] == outs[i] && outs[i..][1..] == outs[i + 1..];
    AcceptStep(t, fileIndex, outs[i..]);
    var o := Place(t, fileIndex, outs[i].fd);
    if o.res >= 0 {
      AcceptJoinedThen(answers, accepted, o.res, outs[i].fd, AcceptMany(o.slots, fileIndex, outs[i + 1..]));
    }
  }

  /** The accept loop, on the ring's own table. */
  /** Where there is nothing more to accept. */
  lemma AcceptOver(t: FixedTable.Slots, fileIndex: FixedTable.U32, outs: seq<Arrival>, i: nat,
                   answers: seq<Answer>, accepted: seq<nat>)
    requires FixedTable.InRange(t) && i <= |outs| && (i == |outs| || !outs[i].Connection?)
    ensures AcceptJoined(answers, accepted, AcceptMany(t, fileIndex, outs[i..]))
         == if i < |outs| && outs[i].Refused?
            then AcceptPass(answers + [Answer(-outs[i].errno, false, false, 0)], true, t, accepted, [])
            else AcceptPass(answers, false, t, accepted, [])
  {
    assert i < |outs| ==> outs[i..][0] == outs[i];
  }

  method RunAcceptMany(table: FixedTable.Table, fileIndex: FixedTable.U32, outs: seq<Arrival>)
    returns (answers: seq<Answer>, ended: bool, ghost accepted: seq<nat>, closed: seq<nat>)
    requires table.Valid()
    modifies table`hint, table.fixed
    ensures table.Valid() && FixedTable.InRange(old(table.State()))
    ensures AcceptPass(answers, ended, table.State(), accepted, closed) ==
      AcceptMany(old(table.State()), fileIndex, outs)
  {
    ghost var goal := AcceptMany(table.State(), fileIndex, outs);
    assert outs[0..] == outs;
    answers, accepted := [], [];
    var i := 0;
    while i < |outs| && outs[i].Connection?
      invariant i <= |outs| && Accepting(table, fileIndex, outs, i, answers, accepted, goal)
      decreases |outs| - i
    {
      var fd := outs[i].fd;
      var answer := AcceptNext(table, fileIndex, outs, i, answers, accepted, goal);
      if answer < 0 { return answers + [Answer(answer, false, false, 0)], true, accepted + [fd], [fd]; }
      answers, accepted := answers + [Answer(answer, true, false, 0)], accepted + [fd];
      i := i + 1;
    }
    AcceptOver(table.State(), fileIndex, outs, i, answers, accepted);
    if i < |outs| && outs[i].Refused? {
      return answers + [Answer(-outs[i].errno, false, false, 0)], true, accepted, [];
    }
    return answers, false, accepted, [];
  }

  /** What the accept loop has answered so far, and that it is on the way to `goal`. */
  ghost predicate Accepting(table: FixedTable.Table, fileIndex: FixedTable.U32, outs: seq<Arrival>, i: nat,
                            answers: seq<Answer>, accepted: seq<nat>, goal: AcceptPass)
    requires i <= |outs|
    reads table, table.fixed
  {
    && table.Valid() && FixedTable.InRange(table.State())
    && goal == AcceptJoined(answers, accepted, AcceptMany(table.State(), fileIndex, outs[i..]))
  }

  method AcceptNext(table: FixedTable.Table, fileIndex: FixedTable.U32, outs: seq<Arrival>, i: nat,
                    ghost answers: seq<Answer>, ghost accepted: seq<nat>, ghost goal: AcceptPass)
    returns (answer: int)
    requires i < |outs| && outs[i].Connection? && Accepting(table, fileIndex, outs, i, answers, accepted, goal)
    modifies table`hint, table.fixed
    ensures table.Valid()
    ensures answer < 0 ==> goal == AcceptPass(answers + [Answer(answer, false, false, 0)], true, table.State(),
                                              accepted + [outs[i].fd], [outs[i].fd])
    ensures answer >= 0 ==> Accepting(table, fileIndex, outs, i + 1, answers + [Answer(answer, true, false, 0)],
                                      accepted + [outs[i].fd], goal)
  {
    AcceptAdvances(table.State(), fileIndex, outs, i, answers, accepted);
    answer := PlaceFd(table, fileIndex, outs[i].fd);
  }

  function AcceptJoined(answers: seq<Answer>, accepted: seq<nat>, p: AcceptPass): AcceptPass {
    p.(answers := answers + p.answers, accepted := accepted + p.accepted)
  }

  lemma AcceptJoinedThen(answers: seq<Answer>, accepted: seq<nat>, answer: int, fd: nat, p: AcceptPass)
    ensures AcceptJoined(answers, accepted, AcceptThen(answer, fd, p))
         == AcceptJoined(answers + [Answer(answer, true, false, 0)], accepted + [fd], p)
  {
    var a := Answer(answer, true, false, 0);
    assert answers + ([a] + p.answers) == (answers + [a]) + p.answers;
    assert accepted + ([fd] + p.accepted) == (accepted + [fd]) + p.accepted;
  }
}