/** The fixed file table: slots holding descriptors, and a hinted circular scan that is to find
    the lowest free slot of the range (src/slipstream_engine.c:249-290 and 579-621). */
module FixedTable {
  import opened Lists

  const EBADF := 9
  const ENXIO := 6
  const EBUSY := 16
  const EINVAL := 22
  const ENFILE := 23

  /** IORING_FILE_INDEX_ALLOC, all bits set. */
  const ALLOC := 0xFFFF_FFFF

  const SLOTS_MAX := 0x10_0000

  type U32 = n: nat | n <= 0xFFFF_FFFF

  /** What a caller can tell of the table; the hint is not part of it. No slots means that no
      table is registered. */
  datatype Slots = Slots(fixed: seq<int>, off: nat, len: nat)

  /** The first free slot from i up to end, or end. */
  function LowestFree(s: seq<int>, i: nat, end: nat): (r: nat)
    requires i <= end <= |s|
    ensures i <= r <= end
    ensures forall j | i <= j < r :: s[j] >= 0
    ensures r < end ==> s[r] < 0
    decreases end - i
  {
    if i == end || s[i] < 0 then i else LowestFree(s, i + 1, end)
  }

  datatype Outcome = Outcome(slots: Slots, res: int)

  ghost predicate InRange(t: Slots) {
    t.off + t.len <= |t.fixed|
  }

  function AllocSlot(t: Slots, fd: int): Outcome
    requires InRange(t)
  {
    var r := LowestFree(t.fixed, t.off, t.off + t.len);
    if r == t.off + t.len then Outcome(t, -ENFILE) else Outcome(t.(fixed := t.fixed[r := fd]), r)
  }

  /** slot + 1 as the caller counts, so 0 wraps around and is past every table. */
  function SlotOf(fileIndex: U32): U32 {
    if fileIndex == 0 then 0xFFFF_FFFF else fileIndex - 1
  }

  function PutSlot(t: Slots, slot: U32, fd: int): Outcome {
    if slot >= |t.fixed| then Outcome(t, -EBADF)
    else if t.fixed[slot] >= 0 then Outcome(t, -EBUSY)
    else Outcome(t.(fixed := t.fixed[slot := fd]), slot)
  }

  function InstallFd(t: Slots, fileIndex: U32, fd: int): Outcome
    requires InRange(t)
  {
    if t.fixed == [] then Outcome(t, -ENXIO)
    else if fileIndex == ALLOC then AllocSlot(t, fd)
    else PutSlot(t, SlotOf(fileIndex), fd)
  }

  function ClearSlot(t: Slots, slot: U32): Outcome {
    if slot >= |t.fixed| || t.fixed[slot] < 0 then Outcome(t, -EBADF)
    else Outcome(t.(fixed := t.fixed[slot := -1]), 0)
  }

  function LookupFd(t: Slots, slot: int): int {
    if 0 <= slot < |t.fixed| && t.fixed[slot] >= 0 then t.fixed[slot] else -EBADF
  }

  function SetRange(t: Slots, off: U32, len: U32, resv: nat): Outcome {
    if t.fixed == [] then Outcome(t, -ENXIO)
    else if resv != 0 || off > |t.fixed| || len > |t.fixed| - off then Outcome(t, -EINVAL)
    else Outcome(t.(off := off, len := len), 0)
  }

  /** The descriptors held, by slot. */
  function OpenFds(s: seq<int>): seq<int> {
    if s == [] then []
    else OpenFds(s[..|s| - 1]) + (if s[|s| - 1] >= 0 then [s[|s| - 1]] else [])
  }

  class Table {
    var fixed: array?<int>
    var off: nat
    var len: nat
    var hint: nat

    ghost function State(): Slots
      reads this, fixed
    {
      Slots(if fixed == null then [] else fixed[..], off, len)
    }

    /** Below the hint, the range is full. */
    ghost predicate Valid()
      reads this, fixed
    {
      && (fixed == null ==> off == len == hint == 0)
      && (fixed != null ==>
            && 0 < fixed.Length <= SLOTS_MAX && off <= hint <= off + len <= fixed.Length
            && forall j | off <= j < hint :: fixed[j] >= 0)
    }

    constructor ()
      ensures Valid() && State() == Slots([], 0, 0)
    {
      fixed := null;
      off, len, hint := 0, 0, 0;
    }

    method Register(nr: U32, sparse: bool) returns (res: int)
      requires Valid()
      modifies this
      ensures Valid()
      ensures res == (if !sparse || nr == 0 || nr > SLOTS_MAX then -EINVAL
                      else if old(State()).fixed != [] then -EBUSY else 0)
      ensures res != 0 ==> State() == old(State())
      ensures res == 0 ==> State() == Slots(seq(nr, _ => -1), 0, nr)
    {
      if !sparse || nr == 0 || nr > SLOTS_MAX { return -EINVAL; }
      if fixed != null { return -EBUSY; }
      fixed := new int[nr](_ => -1);
      off, len, hint := 0, nr, 0;
      return 0;
    }

    /** The descriptors the table held are closed, each once. */
    method Unregister() returns (res: int, closed: seq<int>)
      requires Valid()
      modifies this
      ensures Valid() && State() == Slots([], 0, 0)
      ensures res == if old(State()).fixed == [] then -ENXIO else 0
      ensures closed == OpenFds(old(State()).fixed)
    {
      closed := [];
      if fixed == null { return -ENXIO, []; }
      var table: array<int> := fixed;
      var i := 0;
      while i < table.Length
        invariant i <= table.Length && closed == OpenFds(table[..i])
      {
        assert table[..i + 1][..i] == table[..i];
        if table[i] >= 0 { closed := closed + [table[i]]; }
        i := i + 1;
      }
      assert table[..i] == table[..];
      fixed := null;
      off, len, hint := 0, 0, 0;
      return 0, closed;
    }

    method SetAllocRange(newOff: U32, newLen: U32, resv: nat) returns (res: int)
      requires Valid()
      modifies this
      ensures Valid() && Outcome(State(), res) == SetRange(old(State()), newOff, newLen, resv)
    {
      if fixed == null { return -ENXIO; }
      if resv != 0 || newOff > fixed.Length || newLen > fixed.Length - newOff { return -EINVAL; }
      off, len, hint := newOff, newLen, newOff;
      return 0;
    }

    method Lookup(slot: int) returns (fd: int)
      requires Valid()
      ensures fd == LookupFd(State(), slot)
    {
      if fixed == null || slot < 0 || slot >= fixed.Length || fixed[slot] < 0 { return -EBADF; }
      return fixed[slot];
    }

    /** The scan starts at the hint and goes once around the range, and still takes the lowest
        free slot. */
    method Alloc(fd: int) returns (res: int)
      requires Valid() && fixed != null && fd >= 0
      modifies this`hint, fixed
      ensures Valid() && Outcome(State(), res) == AllocSlot(old(State()), fd)
    {
      var end := off + len;
      var probe := hint;
      if probe < off || probe >= end { probe := off; }
      ghost var lowest := LowestFree(fixed[..], off, end);
      var tried := 0;
      while tried < len
        invariant tried <= len && (len > 0 ==> off <= probe < end)
        invariant lowest == end || (probe <= lowest && probe - hint == tried)
      {
        if fixed[probe] < 0 {
          assert probe == lowest;
          ghost var was := fixed[..];
          fixed[probe] := fd;
          hint := probe + 1;
          assert fixed[..] == was[probe := fd];
          return probe;
        }
        probe := probe + 1;
        if probe >= end { probe := off; }
        tried := tried + 1;
      }
      return -ENFILE;
    }

    method Install(fileIndex: U32, fd: int) returns (res: int)
      requires Valid() && fd >= 0
      modifies this`hint, fixed
      ensures Valid() && Outcome(State(), res) == InstallFd(old(State()), fileIndex, fd)
    {
      if fixed == null { return -ENXIO; }
      if fileIndex == ALLOC {
        res := Alloc(fd);
        return;
      }
      var slot := SlotOf(fileIndex);
      if slot >= fixed.Length { return -EBADF; }
      if fixed[slot] >= 0 { return -EBUSY; }
      ghost var was := fixed[..];
      fixed[slot] := fd;
      assert fixed[..] == was[slot := fd];
      return slot;
    }

    method Clear(slot: U32) returns (res: int)
      requires Valid()
      modifies this`hint, fixed
      ensures Valid() && Outcome(State(), res) == ClearSlot(old(State()), slot)
    {
      if fixed == null || slot >= fixed.Length || fixed[slot] < 0 { return -EBADF; }
      ghost var was := fixed[..];
      fixed[slot] := -1;
      if slot >= off && slot < hint { hint := slot; }
      assert fixed[..] == was[slot := -1];
      return 0;
    }
  }

  // ---- what a caller sees ------------------------------------------------

  /** An ALLOC install answers the least free slot of the range, and -ENFILE exactly when there
      is none. */
  lemma AllocLeast(t: Slots, fd: int)
    requires InRange(t) && t.fixed != [] && fd >= 0
    ensures var r := InstallFd(t, ALLOC, fd);
      && (r.res == -ENFILE <==> forall j | t.off <= j < t.off + t.len :: t.fixed[j] >= 0)
      && (r.res != -ENFILE ==>
            && t.off <= r.res < t.off + t.len && t.fixed[r.res] < 0 && r.slots == t.(fixed := t.fixed[r.res := fd])
            && forall j | t.off <= j < r.res :: t.fixed[j] >= 0)
  {
    assert AllocSlot(t, fd) == InstallFd(t, ALLOC, fd);
  }

  /** A successful install puts exactly this descriptor into a slot that was free, and clearing
      the slot undoes it; a failed one changes nothing. */
  lemma InstallThenClear(t: Slots, fileIndex: U32, fd: int)
    requires InRange(t) && fd >= 0 && |t.fixed| <= SLOTS_MAX
    requires forall j | 0 <= j < |t.fixed| :: t.fixed[j] >= -1
    ensures var r := InstallFd(t, fileIndex, fd);
      if r.res < 0 then r.slots == t
      else
        && LookupFd(t, r.res) == -EBADF && LookupFd(r.slots, r.res) == fd
        && (forall j | j != r.res :: LookupFd(r.slots, j) == LookupFd(t, j))
        && ClearSlot(r.slots, r.res) == Outcome(t, 0)
  {
    var r := InstallFd(t, fileIndex, fd);
    if r.res >= 0 {
      assert r.slots.fixed[r.res := -1] == t.fixed;
    }
  }

  /** The range is taken exactly when there is a table and it lies in it; then it is the range ALLOC
      looks in, and no slot changes. */
  lemma RangeExact(t: Slots, off: U32, len: U32, resv: nat)
    ensures var r := SetRange(t, off, len, resv);
      && r.slots.fixed == t.fixed
      && (r.res == 0 <==> t.fixed != [] && resv == 0 && off + len <= |t.fixed|)
      && (r.res == 0 ==> r.slots.off == off && r.slots.len == len)
      && (r.res != 0 ==> r.slots == t && r.res == if t.fixed == [] then -6 else -22)
  {
  }

  /** What unregistering closes: every descriptor in the table, as often as it is there, and nothing
      else. */
  lemma {:induction false} OpenFdsExact(s: seq<int>, fd: int)
    ensures Cnt(OpenFds(s), fd) == if fd >= 0 then Cnt(s, fd) else 0
  {
    if s != [] {
      var p, last := s[..|s| - 1], s[|s| - 1];
      OpenFdsExact(p, fd);
      CntLast(s, fd);
      if last >= 0 { CntSnoc(OpenFds(p), last, fd); } else { assert OpenFds(p) + [] == OpenFds(p); }
    }
  }

  /** And in the order of the slots. */
  lemma {:induction false} OpenFdsConcat(p: seq<int>, q: seq<int>)
    ensures OpenFds(p + q) == OpenFds(p) + OpenFds(q)
  {
    if q == [] {
      assert p + q == p && OpenFds(p) + [] == OpenFds(p);
    } else {
      var f, last := q[..|q| - 1], q[|q| - 1];
      assert (p + q)[..|p + q| - 1] == p + f && (p + q)[|p + q| - 1] == last;
      OpenFdsConcat(p, f);
      assert (OpenFds(p) + OpenFds(f)) + (if last >= 0 then [last] else [])
          == OpenFds(p) + (OpenFds(f) + if last >= 0 then [last] else []);
    }
  }

  /** A file index names a slot from 1 up: 0 wraps past every table, and whatever lies past this one
      is refused with -EBADF, and nothing else is. */
  lemma IndexNamesNone(t: Slots, fileIndex: U32, fd: int)
    requires InRange(t) && 0 < |t.fixed| <= SLOTS_MAX
    ensures InstallFd(t, fileIndex, fd) == Outcome(t, -EBADF)
      <==> fileIndex == 0 || |t.fixed| < fileIndex < ALLOC
  {
  }
}
