/** The queue of inotify records where kqueue has none: records in bytes, a bounded buffer that
    grows by doubling, a single overflow record for losses in a row, and reads of whole records
    (src/slipstream_inotify.c:127-222 and 509-535). */
module InotifyQueue {

  type byte = b: int | 0 <= b < 256
  type U32 = n: int | 0 <= n < 0x1_0000_0000
  type I32 = n: int | -0x8000_0000 <= n < 0x8000_0000

  const EINVAL := 22

  const HEADER := 16
  const QUEUE_MAX := 0x10_0000
  const NAME_MAX := 255
  const IN_Q_OVERFLOW := 0x4000

  /** A record's name: none, or a C string without its terminator. */
  datatype Name = NoName | Named(text: seq<byte>)

  datatype Record = Record(wd: I32, mask: U32, cookie: U32, name: Name)

  const OVERFLOW := Record(-1, IN_Q_OVERFLOW, 0, NoName)

  ghost predicate IsString(s: seq<byte>) {
    forall i | 0 <= i < |s| :: s[i] != 0
  }

  ghost predicate WellFormed(r: Record) {
    r.name.Named? ==> IsString(r.name.text) && |r.name.text| + 16 < 0x1_0000_0000
  }

  // ---- bytes -------------------------------------------------------------

  /** A 32-bit word, low byte first. */
  function WordBytes(x: U32): (s: seq<byte>)
    ensures |s| == 4
  {
    [x % 256, x / 256 % 256, x / 0x1_0000 % 256, x / 0x100_0000]
  }

  function BytesWord(s: seq<byte>): U32
    requires |s| == 4
  {
    var a: int, b: int, c: int, d: int := s[0], s[1], s[2], s[3];
    a + 256 * b + 0x1_0000 * c + 0x100_0000 * d
  }

  lemma WordTrip(x: U32)
    ensures BytesWord(WordBytes(x)) == x
  {
    var b, c := x / 256, x / 0x1_0000;
    assert x == 256 * b + x % 256;
    assert b == 256 * (b / 256) + b % 256;
    assert c == 256 * (c / 256) + c % 256;
    assert b / 256 == c && c / 256 == x / 0x100_0000;
  }

  function SignedWord(x: I32): U32 { if x < 0 then x + 0x1_0000_0000 else x }

  function WordSigned(x: U32): I32 { if x >= 0x8000_0000 then x - 0x1_0000_0000 else x }

  /** The length with the terminator, rounded up to a multiple of 16. */
  function PaddedLen(n: nat): (p: nat)
    ensures p % 16 == 0 && n + 1 <= p <= n + 16
  {
    (n + 1 + 15) / 16 * 16
  }

  function NameLen(name: Name): nat {
    if name.NoName? then 0 else PaddedLen(|name.text|)
  }

  function Zeros(n: nat): (s: seq<byte>)
    ensures |s| == n
  {
    seq(n, _ => 0)
  }

  function NameBytes(name: Name): (s: seq<byte>)
    ensures |s| == NameLen(name)
  {
    if name.NoName? then [] else name.text + Zeros(PaddedLen(|name.text|) - |name.text|)
  }

  function HeaderBytes(r: Record): (s: seq<byte>)
    requires NameLen(r.name) < 0x1_0000_0000
    ensures |s| == HEADER
  {
    WordBytes(SignedWord(r.wd)) + WordBytes(r.mask) + WordBytes(r.cookie) + WordBytes(NameLen(r.name))
  }

  function Size(r: Record): nat { HEADER + NameLen(r.name) }

  function Encode(r: Record): (s: seq<byte>)
    requires NameLen(r.name) < 0x1_0000_0000
    ensures |s| == Size(r)
  {
    HeaderBytes(r) + NameBytes(r.name)
  }

  /** A C string as its reader finds it: up to the first NUL. */
  function Text(s: seq<byte>): seq<byte> {
    if s == [] || s[0] == 0 then [] else [s[0]] + Text(s[1..])
  }

  datatype Decoded = Short | Decoded(record: Record, size: nat)

  /** The record at the front of the bytes. */
  function Decode(s: seq<byte>): Decoded {
    if |s| < HEADER then Short
    else
      var len := BytesWord(s[12..16]);
      if |s| < HEADER + len then Short
      else Decoded(Record(WordSigned(BytesWord(s[0..4])), BytesWord(s[4..8]), BytesWord(s[8..12]),
                          if len == 0 then NoName else Named(Text(s[16..16 + len]))),
                   HEADER + len)
  }

  lemma {:induction false} TextTrip(s: seq<byte>, z: seq<byte>)
    requires IsString(s) && z != [] && z[0] == 0
    ensures Text(s + z) == s
  {
    if s == [] {
      assert s + z == z;
    } else {
      assert (s + z)[1..] == s[1..] + z;
      TextTrip(s[1..], z);
    }
  }

  lemma HeaderTrip(r: Record, s: seq<byte>)
    requires NameLen(r.name) < 0x1_0000_0000 && |s| >= HEADER && s[..HEADER] == HeaderBytes(r)
    ensures WordSigned(BytesWord(s[0..4])) == r.wd && BytesWord(s[4..8]) == r.mask
    ensures BytesWord(s[8..12]) == r.cookie && BytesWord(s[12..16]) == NameLen(r.name)
  {
    var h := s[..HEADER];
    assert s[0..4] == h[0..4] == WordBytes(SignedWord(r.wd));
    assert s[4..8] == h[4..8] == WordBytes(r.mask);
    assert s[8..12] == h[8..12] == WordBytes(r.cookie);
    assert s[12..16] == h[12..16] == WordBytes(NameLen(r.name));
    WordTrip(SignedWord(r.wd));
    WordTrip(r.mask);
    WordTrip(r.cookie);
    WordTrip(NameLen(r.name));
  }

  /** Whatever follows it, a record reads back as it was written. */
  lemma RoundTrip(r: Record, rest: seq<byte>)
    requires WellFormed(r)
    ensures Decode(Encode(r) + rest) == Decoded(r, Size(r))
  {
    var s := Encode(r) + rest;
    assert s[..HEADER] == HeaderBytes(r);
    HeaderTrip(r, s);
    if r.name.Named? {
      var len := NameLen(r.name);
      assert s[16..16 + len] == NameBytes(r.name);
      TextTrip(r.name.text, Zeros(len - |r.name.text|));
    }
  }

  /** Four bytes, low byte first. */
  function LowFirst(s: seq<byte>, at: nat): int
    requires at + 4 <= |s|
  {
    var a: int, b: int, c: int, d: int := s[at], s[at + 1], s[at + 2], s[at + 3];
    a + 0x100 * b + 0x1_0000 * c + 0x100_0000 * d
  }

  /** The layout of struct inotify_event: wd, mask, cookie and len, low byte first, then the name and NULs up
      to the next multiple of 16; no name is no bytes. */
  lemma Layout(r: Record)
    requires WellFormed(r)
    ensures var s, n := Encode(r), if r.name.Named? then |r.name.text| else 0;
      && |s| >= 16
      && LowFirst(s, 0) == (if r.wd < 0 then r.wd + 0x1_0000_0000 else r.wd)
      && LowFirst(s, 4) == r.mask && LowFirst(s, 8) == r.cookie && LowFirst(s, 12) == |s| - 16
      && |s| % 16 == 0
      && (r.name.NoName? ==> |s| == 16)
      && (r.name.Named? ==> 16 + n < |s| <= 16 + n + 16 && s[16..16 + n] == r.name.text)
      && forall i | 16 + n <= i < |s| :: s[i] == 0
  {
    var s := Encode(r);
    assert s[..HEADER] == HeaderBytes(r);
    HeaderTrip(r, s);
    if r.name.Named? {
      assert s[16..] == NameBytes(r.name);
      assert forall i | 16 + |r.name.text| <= i < |s| :: s[i] == NameBytes(r.name)[i - 16];
    }
  }

  // ---- queues of records -------------------------------------------------

  ghost predicate Sound(r: Record) {
    WellFormed(r) && Size(r) <= 0x8_0000
  }

  ghost predicate AllSound(rs: seq<Record>) {
    forall i | 0 <= i < |rs| :: Sound(rs[i])
  }

  function Bytes(rs: seq<Record>): nat {
    if rs == [] then 0 else Size(rs[0]) + Bytes(rs[1..])
  }

  ghost function EncodeAll(rs: seq<Record>): (s: seq<byte>)
    requires AllSound(rs)
    ensures |s| == Bytes(rs)
  {
    if rs == [] then []
    else
      assert Sound(rs[0]);
      Encode(rs[0]) + EncodeAll(rs[1..])
  }

  /** What is queued and whether the last thing queued was the overflow record. */
  datatype Queue = Queue(records: seq<Record>, overflowed: bool)

  function Emit(q: Queue, r: Record): Queue {
    if Bytes(q.records) + Size(r) > QUEUE_MAX then
      if q.overflowed || Bytes(q.records) + HEADER > QUEUE_MAX then q
      else Queue(q.records + [OVERFLOW], true)
    else Queue(q.records + [r], false)
  }

  /** How many whole records from the front fit into len bytes. */
  function Fit(rs: seq<Record>, len: nat): (k: nat)
    ensures k <= |rs|
  {
    if rs == [] || Size(rs[0]) > len then 0 else 1 + Fit(rs[1..], len - Size(rs[0]))
  }

  /** They fit, and one more would not. */
  lemma {:induction false} FitMaximal(rs: seq<Record>, len: nat)
    ensures var k := Fit(rs, len);
      && Bytes(rs[..k]) <= len
      && (k < |rs| ==> Bytes(rs[..k + 1]) > len)
  {
    if rs != [] && Size(rs[0]) <= len {
      var k := Fit(rs[1..], len - Size(rs[0]));
      FitMaximal(rs[1..], len - Size(rs[0]));
      assert rs[..k + 1][1..] == rs[1..][..k];
      if k < |rs| - 1 { assert rs[..k + 2][1..] == rs[1..][..k + 1]; }
    } else if rs != [] {
      assert rs[..1][0] == rs[0];
    }
  }

  lemma Regroup(a: seq<byte>, b: seq<byte>, c: seq<byte>)
    ensures (a + b) + c == a + (b + c)
  {
  }

  lemma Tail(p: seq<Record>, q: seq<Record>)
    requires p != []
    ensures (p + q)[0] == p[0] && (p + q)[1..] == p[1..] + q
  {
  }

  lemma {:induction false} EncodeConcat(p: seq<Record>, q: seq<Record>)
    requires AllSound(p) && AllSound(q)
    ensures AllSound(p + q) && EncodeAll(p + q) == EncodeAll(p) + EncodeAll(q)
  {
    if p == [] {
      assert p + q == q;
    } else {
      Tail(p, q);
      EncodeConcat(p[1..], q);
      Regroup(Encode(p[0]), EncodeAll(p[1..]), EncodeAll(q));
    }
  }

  lemma EncodeOne(r: Record)
    requires Sound(r)
    ensures AllSound([r]) && EncodeAll([r]) == Encode(r)
  {
    assert [r][1..] == [];
  }

  /** The first record's length stands in its header, and the rest follows it. */
  lemma FrontRecord(rs: seq<Record>)
    requires AllSound(rs) && rs != []
    ensures var s := EncodeAll(rs);
      && |s| >= Size(rs[0]) && BytesWord(s[12..16]) == NameLen(rs[0].name)
      && AllSound(rs[1..]) && s[Size(rs[0])..] == EncodeAll(rs[1..])
  {
    var s := EncodeAll(rs);
    assert Sound(rs[0]);
    assert s[..HEADER] == HeaderBytes(rs[0]);
    HeaderTrip(rs[0], s);
  }

  /** Reading bytes that are whole records gives those records. */
  function DecodeAll(s: seq<byte>): seq<Record>
    decreases |s|
  {
    match Decode(s)
    case Short => []
    case Decoded(r, size) => [r] + DecodeAll(s[size..])
  }

  lemma {:induction false} QueueRoundTrip(rs: seq<Record>)
    requires AllSound(rs)
    ensures DecodeAll(EncodeAll(rs)) == rs
  {
    if rs != [] {
      FrontRecord(rs);
      assert Sound(rs[0]);
      RoundTrip(rs[0], EncodeAll(rs[1..]));
      QueueRoundTrip(rs[1..]);
    }
  }

  // ---- the buffer --------------------------------------------------------

  /** 4096 times a power of two, up to the bound; or nothing yet. */
  predicate Capacity(c: nat) {
    c == 0 || c == 0x1000 || c == 0x2000 || c == 0x4000 || c == 0x8000 || c == 0x1_0000 || c == 0x2_0000
    || c == 0x4_0000 || c == 0x8_0000 || c == 0x10_0000
  }

  /** A record of this size is lost and an overflow record is due, in a buffer of this capacity. */
  predicate OverflowDue(qlen: nat, qcap: nat, total: nat) {
    Capacity(qcap) && qlen <= qcap && qlen % 16 == 0 && qlen + total > QUEUE_MAX && qlen + HEADER <= QUEUE_MAX
  }

  predicate OverflowFits(qlen: nat, qcap: nat) {
    qlen + HEADER <= qcap
  }

  /** The path that queues the overflow record never grows the buffer. It fits in every state
      exactly when no record is larger than half the bound. */
  lemma OverflowFitsExact(total: nat)
    requires total >= HEADER && total % 16 == 0
    ensures (forall qlen: nat, qcap: nat | OverflowDue(qlen, qcap, total) :: OverflowFits(qlen, qcap))
      <==> total <= 0x8_0000
  {
    if total > 0x8_0000 {
      assert OverflowDue(0x8_0000, 0x8_0000, total) && !OverflowFits(0x8_0000, 0x8_0000);
    }
  }

  /** A directory's names are at most NAME_MAX bytes, so their records are far below that. */
  lemma NamesFit(r: Record)
    requires r.name.Named? ==> |r.name.text| <= NAME_MAX
    ensures Size(r) <= 272
  {
  }

  /** A read: as many whole records as fit leave the queue from the front, in bytes. */
  ghost predicate Taken(rs: seq<Record>, len: nat, left: seq<Record>, res: int, buf: seq<byte>) {
    var k := Fit(rs, len);
    && left == rs[k..] && AllSound(rs[..k]) && buf == EncodeAll(rs[..k])
    && res == if k == 0 && rs != [] then -EINVAL else |buf|
  }

  /** Where the k-th record begins, its length can be read. */
  lemma NextRecord(s: seq<byte>, rest: seq<Record>, out: nat)
    requires AllSound(rest) && out < |s| && s[out..] == EncodeAll(rest)
    ensures rest != [] && AllSound(rest[1..]) && out + Size(rest[0]) <= |s|
    ensures BytesWord([s[out + 12], s[out + 13], s[out + 14], s[out + 15]]) == NameLen(rest[0].name)
    ensures s[out + Size(rest[0])..] == EncodeAll(rest[1..])
  {
    var t := s[out..];
    FrontRecord(rest);
    assert t[12..16] == [s[out + 12], s[out + 13], s[out + 14], s[out + 15]];
    assert t[Size(rest[0])..] == s[out + Size(rest[0])..];
  }

  /** The first k records end at out, and what fits behind them is still to be found. */
  ghost predicate Counted(s: seq<byte>, rs: seq<Record>, len: nat, out: nat, k: nat) {
    && k <= |rs| && out <= |s| && out <= len && AllSound(rs[k..])
    && s[out..] == EncodeAll(rs[k..])
    && Fit(rs, len) == k + Fit(rs[k..], len - out)
  }

  lemma CountedStart(s: seq<byte>, rs: seq<Record>, len: nat)
    requires AllSound(rs) && s == EncodeAll(rs)
    ensures Counted(s, rs, len, 0, 0)
  {
    assert s[0..] == s && rs[0..] == rs;
  }

  lemma CountedEnd(s: seq<byte>, rs: seq<Record>, len: nat, k: nat)
    requires Counted(s, rs, len, |s|, k)
    ensures k == Fit(rs, len)
  {
    assert s[|s|..] == [];
    assert |EncodeAll(rs[k..])| == Bytes(rs[k..]);
  }

  lemma DropNext(rs: seq<Record>, k: nat)
    requires k < |rs|
    ensures rs[k..][0] == rs[k] && rs[k..][1..] == rs[k + 1..]
  {
  }

  lemma CountedNext(s: seq<byte>, rs: seq<Record>, len: nat, out: nat, k: nat)
    requires Counted(s, rs, len, out, k) && out < |s|
    ensures k < |rs| && out + Size(rs[k]) <= |s|
    ensures BytesWord([s[out + 12], s[out + 13], s[out + 14], s[out + 15]]) == NameLen(rs[k].name)
    ensures out + Size(rs[k]) > len ==> Fit(rs, len) == k
    ensures out + Size(rs[k]) <= len ==> Counted(s, rs, len, out + Size(rs[k]), k + 1)
  {
    var rest := rs[k..];
    NextRecord(s, rest, out);
    DropNext(rs, k);
    assert Fit(rest, len - out) ==
        if Size(rest[0]) > len - out then 0 else 1 + Fit(rest[1..], len - out - Size(rest[0]));
  }

  lemma CountedOn(s: seq<byte>, rs: seq<Record>, len: nat, out: nat, k: nat) returns (total: nat)
    requires Counted(s, rs, len, out, k) && out < |s|
    ensures k < |rs| && total == Size(rs[k]) && 0 < total && out + total <= |s|
    ensures total == HEADER + BytesWord([s[out + 12], s[out + 13], s[out + 14], s[out + 15]])
    ensures if out + total > len then Fit(rs, len) == k else Counted(s, rs, len, out + total, k + 1)
  {
    CountedNext(s, rs, len, out, k);
    total := Size(rs[k]);
  }

  /** How many bytes of whole records fit: the lengths are read back from the bytes. */
  method WholeRecords(s: seq<byte>, len: nat, ghost rs: seq<Record>) returns (out: nat, ghost k: nat)
    requires AllSound(rs) && s == EncodeAll(rs)
    ensures k == Fit(rs, len) && Counted(s, rs, len, out, k)
  {
    out, k := 0, 0;
    CountedStart(s, rs, len);
    while out < |s|
      invariant Counted(s, rs, len, out, k)
      decreases |s| - out
    {
      ghost var size := CountedOn(s, rs, len, out, k);
      var total := HEADER + BytesWord([s[out + 12], s[out + 13], s[out + 14], s[out + 15]]);
      if out + total > len { return; }
      out := out + total;
      k := k + 1;
    }
    CountedEnd(s, rs, len, k);
  }

  class Instance {
    var queue: array<byte>
    var qlen: nat
    var overflowed: bool
    ghost var records: seq<Record>

    ghost function State(): Queue
      reads this
    {
      Queue(records, overflowed)
    }

    /** The bytes are whole records within the bound and the buffer. */
    ghost predicate Valid()
      reads this, queue
    {
      && Capacity(queue.Length) && qlen <= queue.Length && qlen <= QUEUE_MAX
      && AllSound(records)
      && queue[..qlen] == EncodeAll(records)
    }

    constructor ()
      ensures Valid() && fresh(queue) && State() == Queue([], false)
    {
      queue := new byte[0];
      qlen, overflowed, records := 0, false, [];
    }

    method WriteBytes(at: nat, s: seq<byte>)
      requires at + |s| <= queue.Length
      modifies queue
      ensures queue[..at + |s|] == old(queue[..at]) + s
    {
      var i := 0;
      while i < |s|
        invariant i <= |s| && queue[..at + i] == old(queue[..at]) + s[..i]
      {
        queue[at + i] := s[i];
        assert queue[..at + i + 1] == queue[..at + i] + [s[i]];
        i := i + 1;
      }
      assert s[..i] == s;
    }

    /** Doubled until it holds `need`. */
    method GrowTo(need: nat)
      requires Valid() && queue.Length < need <= QUEUE_MAX
      modifies this`queue
      ensures Valid() && fresh(queue) && need <= queue.Length
    {
      var want := if queue.Length == 0 then 0x1000 else queue.Length * 2;
      while want < need
        invariant 0 < want && Capacity(want)
        decreases need - want
      {
        want := want * 2;
      }
      var was, n := queue, qlen;
      var grown := new byte[want](i requires 0 <= i < want reads was => if i < was.Length then was[i] else 0);
      queue := grown;
      assert queue[..n] == was[..n];
    }

    /** The record's bytes, header and name, go behind what is queued. */
    method PutRecord(r: Record)
      requires Valid() && Sound(r) && qlen + Size(r) <= queue.Length && qlen + Size(r) <= QUEUE_MAX
      modifies this`qlen, this`records, queue
      ensures Valid() && records == old(records) + [r]
    {
      ghost var was := queue[..qlen];
      PutBytes(was, records, r);
      WriteBytes(qlen, HeaderBytes(r));
      WriteBytes(qlen + HEADER, NameBytes(r.name));
      qlen := qlen + Size(r);
      records := records + [r];
    }

    /** A record of a watch. When it does not fit it is lost, and one overflow record says so. */
    method EmitRecord(r: Record)
      requires Valid() && Sound(r)
      modifies this, queue
      ensures Valid() && State() == Emit(old(State()), r)
      ensures queue == old(queue) || fresh(queue)
    {
      assert qlen == |queue[..qlen]| == Bytes(records);
      if qlen + Size(r) > QUEUE_MAX {
        if overflowed || qlen + HEADER > QUEUE_MAX { return; }
        SizesOf16(records);
        OverflowRoom(qlen, queue.Length, Size(r));
        PutRecord(OVERFLOW);
        overflowed := true;
        return;
      }
      if qlen + Size(r) > queue.Length { GrowTo(qlen + Size(r)); }
      PutRecord(r);
      overflowed := false;
    }

    method TakeOut(out: nat, ghost k: nat)
      requires Valid() && out <= qlen && k <= |records| && AllSound(records[k..])
      requires queue[..qlen][out..] == EncodeAll(records[k..])
      modifies this`qlen, this`records, queue
      ensures Valid() && records == old(records)[k..]
    {
      ghost var s := queue[..qlen];
      assert s[out..] == queue[out..qlen];
      MoveDown(out);
      qlen := qlen - out;
      records := records[k..];
    }

    /** A read takes whole records off the front and moves the rest up. */
    method Read(len: nat) returns (res: int, buf: seq<byte>)
      requires Valid()
      modifies this`qlen, this`records, queue
      ensures Valid() && overflowed == old(overflowed)
      ensures len < HEADER ==> res == -EINVAL && records == old(records)
      ensures len >= HEADER ==> Taken(old(records), len, records, res, buf)
    {
      if len < HEADER { return -EINVAL, []; }
      var out: nat;
      ghost var k: nat;
      out, k := WholeRecords(queue[..qlen], len, records);
      buf := queue[..qlen][..out];
      TakeFront(queue[..qlen], records, k, out);
      res := if qlen == 0 then 0 else if out == 0 then -EINVAL else |buf|;
      if out > 0 { TakeOut(out, k); } else { assert records[0..] == records; }
    }

    method MoveDown(out: nat)
      requires out <= qlen <= queue.Length
      modifies queue
      ensures queue[..qlen - out] == old(queue[out..qlen])
    {
      var i := 0;
      while i < qlen - out
        invariant i <= qlen - out
        invariant queue[..i] == old(queue[out..out + i])
        invariant queue[out + i..qlen] == old(queue[out + i..qlen])
      {
        assert queue[out + i] == old(queue[out + i..qlen])[0];
        queue[i] := queue[out + i];
        i := i + 1;
      }
    }
  }

  /** Where the bytes of the rest begin, the bytes of the first k records end. */
  lemma TakeFront(s: seq<byte>, rs: seq<Record>, k: nat, out: nat)
    requires AllSound(rs) && k <= |rs| && out <= |s| && s == EncodeAll(rs)
    requires AllSound(rs[k..]) && s[out..] == EncodeAll(rs[k..])
    ensures AllSound(rs[..k]) && s[..out] == EncodeAll(rs[..k])
    ensures out == 0 <==> k == 0
    ensures |s| == 0 <==> rs == []
  {
    var p, q := rs[..k], rs[k..];
    assert rs == p + q;
    EncodeConcat(p, q);
    var a := EncodeAll(p);
    assert s == a + s[out..] && |s| == |a| + (|s| - out);
  }

  lemma OverflowRoom(qlen: nat, qcap: nat, total: nat)
    requires OverflowDue(qlen, qcap, total) && HEADER <= total <= 0x8_0000
    ensures OverflowFits(qlen, qcap)
  {
  }

  lemma PutBytes(was: seq<byte>, rs: seq<Record>, r: Record)
    requires AllSound(rs) && was == EncodeAll(rs) && Sound(r)
    ensures AllSound(rs + [r]) && (was + HeaderBytes(r)) + NameBytes(r.name) == EncodeAll(rs + [r])
  {
    EncodeOne(r);
    EncodeConcat(rs, [r]);
    Regroup(was, HeaderBytes(r), NameBytes(r.name));
  }

  lemma Sum16(a: nat, b: nat)
    requires a % 16 == 0 && b % 16 == 0
    ensures (a + b) % 16 == 0
  {
  }

  lemma {:induction false} SizesOf16(rs: seq<Record>)
    ensures Bytes(rs) % 16 == 0
  {
    if rs != [] {
      SizesOf16(rs[1..]);
      Sum16(Size(rs[0]), Bytes(rs[1..]));
    }
  }

  // ---- over whole runs ---------------------------------------------------

  /** What was ever queued, what was ever read, and the bytes that were handed out. */
  datatype Trace = Trace(q: Queue, accepted: seq<Record>, delivered: seq<Record>, out: seq<byte>)

  datatype Action = Send(r: Record) | Take(len: nat)

  /** Watches have descriptors from 1 up, so none of their records is the overflow record. */
  ghost predicate Allowed(a: Action) {
    a.Send? ==> Sound(a.r) && a.r.wd >= 1
  }

  function Added(q: Queue, r: Record): seq<Record> {
    Emit(q, r).records[|q.records|..]
  }

  ghost function Step(t: Trace, a: Action): Trace
    requires AllSound(t.q.records)
  {
    match a
    case Send(r) => t.(q := Emit(t.q, r), accepted := t.accepted + Added(t.q, r))
    case Take(len) =>
      var k := if len < HEADER then 0 else Fit(t.q.records, len);
      Trace(t.q.(records := t.q.records[k..]), t.accepted, t.delivered + t.q.records[..k],
            t.out + EncodeAll(t.q.records[..k]))
  }

  ghost predicate Told(rs: seq<Record>, overflowed: bool) {
    && (overflowed <==> rs != [] && rs[|rs| - 1] == OVERFLOW)
    && (forall i | 0 < i < |rs| :: !(rs[i - 1] == OVERFLOW && rs[i] == OVERFLOW))
  }

  ghost predicate Kept(t: Trace) {
    && AllSound(t.q.records) && AllSound(t.delivered)
    && t.accepted == t.delivered + t.q.records
    && t.out == EncodeAll(t.delivered)
    && Bytes(t.q.records) <= QUEUE_MAX
    && Told(t.accepted, t.q.overflowed)
  }

  lemma {:induction false} BytesSnoc(rs: seq<Record>, r: Record)
    ensures Bytes(rs + [r]) == Bytes(rs) + Size(r)
  {
    if rs == [] {
      assert [] + [r] == [r] && [r][1..] == [];
    } else {
      Tail(rs, [r]);
      BytesSnoc(rs[1..], r);
    }
  }

  lemma ToldMore(rs: seq<Record>, overflowed: bool, r: Record)
    requires Told(rs, overflowed) && (r == OVERFLOW ==> !overflowed)
    ensures Told(rs + [r], r == OVERFLOW)
  {
  }

  lemma SendKept(t: Trace, r: Record)
    requires Kept(t) && Allowed(Send(r))
    ensures Kept(Step(t, Send(r)))
  {
    var q := Emit(t.q, r);
    if q == t.q {
      assert Added(t.q, r) == [];
      assert t.accepted + [] == t.accepted;
    } else {
      var x := q.records[|t.q.records|];
      assert q.records == t.q.records + [x] && Added(t.q, r) == [x];
      BytesSnoc(t.q.records, x);
      ToldMore(t.accepted, t.q.overflowed, x);
      assert (t.delivered + t.q.records) + [x] == t.delivered + (t.q.records + [x]);
    }
  }

  lemma {:induction false} BytesSplit(p: seq<Record>, q: seq<Record>)
    ensures Bytes(p + q) == Bytes(p) + Bytes(q)
  {
    if p == [] { assert p + q == q; } else { Tail(p, q); BytesSplit(p[1..], q); }
  }

  lemma SplitAt(rs: seq<Record>, k: nat)
    requires k <= |rs|
    ensures rs == rs[..k] + rs[k..]
  {
  }

  lemma SoundSlices(rs: seq<Record>, k: nat)
    requires AllSound(rs) && k <= |rs|
    ensures AllSound(rs[..k]) && AllSound(rs[k..])
  {
  }

  lemma SplitSound(rs: seq<Record>, k: nat)
    requires AllSound(rs) && k <= |rs|
    ensures AllSound(rs[..k]) && AllSound(rs[k..]) && rs == rs[..k] + rs[k..]
    ensures Bytes(rs[k..]) <= Bytes(rs)
  {
    SplitAt(rs, k);
    SoundSlices(rs, k);
    BytesSplit(rs[..k], rs[k..]);
  }

  lemma Moved(p: seq<Record>, a: seq<Record>, b: seq<Record>)
    ensures p + (a + b) == (p + a) + b
  {
  }

  lemma TakeKept(t: Trace, len: nat)
    requires Kept(t)
    ensures Kept(Step(t, Take(len)))
  {
    var k := if len < HEADER then 0 else Fit(t.q.records, len);
    SplitSound(t.q.records, k);
    Moved(t.delivered, t.q.records[..k], t.q.records[k..]);
    EncodeConcat(t.delivered, t.q.records[..k]);
  }

  ghost function Run(t: Trace, acts: seq<Action>): Trace
    requires Kept(t) && forall i | 0 <= i < |acts| :: Allowed(acts[i])
    decreases |acts|
  {
    if acts == [] then t
    else
      StepKept(t, acts[0]);
      Run(Step(t, acts[0]), acts[1..])
  }

  lemma StepKept(t: Trace, a: Action)
    requires Kept(t) && Allowed(a)
    ensures Kept(Step(t, a))
  {
    match a
    case Send(r) => SendKept(t, r);
    case Take(len) => TakeKept(t, len);
  }

  /** Over any run of events and reads: the bytes read, followed by the bytes still queued, decode
      to exactly the records that were queued, in order; and two overflow records always have an
      ordinary one between them. */
  lemma {:induction false} RunDelivers(t: Trace, acts: seq<Action>)
    requires Kept(t) && forall i | 0 <= i < |acts| :: Allowed(acts[i])
    ensures var u := Run(t, acts);
      && Kept(u) && DecodeAll(u.out + EncodeAll(u.q.records)) == u.accepted
      && forall i | 0 < i < |u.accepted| :: !(u.accepted[i - 1] == OVERFLOW && u.accepted[i] == OVERFLOW)
    decreases |acts|
  {
    if acts == [] {
      EncodeConcat(t.delivered, t.q.records);
      QueueRoundTrip(t.accepted);
    } else {
      StepKept(t, acts[0]);
      RunDelivers(Step(t, acts[0]), acts[1..]);
    }
  }

  /** A record that is lost leaves an overflow record behind, unless one is there already or the
      queue is full to the last byte: then nothing tells of the loss. */
  lemma LossIsTold(q: Queue, r: Record)
    requires Bytes(q.records) <= QUEUE_MAX && r != OVERFLOW
    ensures var u := Emit(q, r);
      && (u.records == q.records + [r] <==> Bytes(q.records) + Size(r) <= QUEUE_MAX)
      && (u.records != q.records + [r] ==> (!u.overflowed <==> !q.overflowed && Bytes(q.records) == 0x10_0000))
      && (u.records != q.records + [r] ==> u == q || u == Queue(q.records + [Record(-1, 0x4000, 0, NoName)], true))
      && (u.records == q.records + [r] ==> !u.overflowed)
  {
    SizesOf16(q.records);
    assert |q.records + [r]| == |q.records| + 1;
    assert (q.records + [OVERFLOW])[|q.records|] != (q.records + [r])[|q.records|];
    Full(Bytes(q.records));
  }

  lemma Full(n: nat)
    requires n % 16 == 0 && n <= QUEUE_MAX
    ensures n + HEADER > QUEUE_MAX <==> n == QUEUE_MAX
  {
  }
}
