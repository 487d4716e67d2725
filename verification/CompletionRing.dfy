/** The completion queue as the ring memory it is: two free-running 32-bit counters and a
    power-of-two array of entries (src/slipstream_engine.c, cq_avail to post_locked). */
module CompletionRing {
  import opened EngineCore

  ghost predicate Pow2(n: nat) {
    n == 1 || (n > 1 && n % 2 == 0 && Pow2(n / 2))
  }

  /** Smaller powers of two divide larger ones. */
  lemma {:induction false} Pow2Divides(n: nat, m: nat)
    requires Pow2(n) && Pow2(m) && n <= m
    ensures m % n == 0
  {
    if n > 1 {
      Pow2Divides(n / 2, m / 2);
      Doubled(n / 2, m / 2);
    }
  }

  lemma MulSign(d: int, n: int)
    requires n > 0
    ensures d >= 1 ==> d * n >= n
    ensures d <= -1 ==> d * n <= -n
  {
  }

  lemma RemOf(x: nat, q: int, r: nat, n: nat)
    requires n > 0 && r < n && x == q * n + r
    ensures x % n == r
  {
    MulSign(q - x / n, n);
    assert (q - x / n) * n == x % n - r;
  }

  lemma Doubled(n: nat, m: nat)
    requires n > 0 && m % n == 0
    ensures (2 * m) % (2 * n) == 0
  {
    assert 2 * m == (m / n) * (2 * n);
    RemOf(2 * m, m / n, 0, 2 * n);
  }

  type U32Counter = n: nat | n < U32

  /** C's unsigned subtraction on 32 bits. */
  function Sub32(a: U32Counter, b: U32Counter): nat {
    if a >= b then a - b else a + U32 - b
  }

  /** Where the counter stands i steps on. */
  function Ahead(head: U32Counter, i: nat): U32Counter
    requires i <= U32 - 1
  {
    if head + i < U32 then head + i else head + i - U32
  }

  /** Adding a multiple of n does not move the slot. */
  lemma SlotShift(x: nat, m: nat, n: nat)
    requires n > 0 && m % n == 0
    ensures (x + m) % n == x % n
  {
    assert x + m == (x / n + m / n) * n + x % n;
    RemOf(x + m, x / n + m / n, x % n, n);
  }

  lemma WrappedSlot(head: U32Counter, i: U32Counter, n: nat)
    requires n > 0 && U32 % n == 0
    ensures Ahead(head, i) % n == (head + i) % n
  {
    if head + i >= U32 { SlotShift(head + i - U32, U32, n); }
  }

  /** Fewer than n steps apart, two counters never meet in a slot. */
  lemma SlotsApart(x: nat, y: nat, n: nat)
    requires n > 0 && x < y < x + n
    ensures x % n != y % n
  {
    assert x == (x / n) * n + x % n && y == (y / n) * n + y % n;
    MulSign(y / n - x / n, n);
    assert (y / n - x / n) * n == y - x - (y % n - x % n);
  }

  class Cq {
    const cqes: array<Cqe>
    var head: U32Counter
    var tail: U32Counter
    var overflow: U32Counter

    ghost predicate Valid()
      reads this
    {
      && 0 < cqes.Length <= 0x8000_0000 && U32 % cqes.Length == 0
      && Sub32(tail, head) <= cqes.Length
    }

    /** The slot of the i-th unread entry: the counter masked by the ring size. */
    ghost function Slot(i: U32Counter): nat
      reads this
      requires cqes.Length > 0
    {
      Ahead(head, i) % cqes.Length
    }

    /** What the caller has still to read, oldest first. */
    ghost function Unread(): (r: seq<Cqe>)
      reads this, cqes
      requires Valid()
      ensures |r| == Sub32(tail, head)
    {
      seq(Sub32(tail, head), i requires 0 <= i < Sub32(tail, head) reads this, cqes =>
        cqes[Slot(i)])
    }

    constructor (n: nat)
      requires Pow2(n) && n <= 0x8000_0000
      ensures Valid() && fresh(cqes) && cqes.Length == n
      ensures Unread() == [] && overflow == 0
    {
      Pow2Word();
      Pow2Divides(n, U32);
      cqes := new Cqe[n](_ => Cqe(0, 0, NoFlags()));
      head, tail, overflow := 0, 0, 0;
    }

    method HasRoom() returns (room: bool)
      requires Valid()
      ensures room == (|Unread()| < cqes.Length)
    {
      room := Sub32(tail, head) < cqes.Length;
    }

    /** The entry goes behind the unread ones, and none of them is overwritten. */
    method Put(cqe: Cqe)
      requires Valid() && |Unread()| < cqes.Length
      modifies this`tail, cqes
      ensures Valid()
      ensures Unread() == old(Unread()) + [cqe]
    {
      ghost var k := Sub32(tail, head);
      forall i | 0 <= i < k ensures Slot(i) != tail % cqes.Length { SlotsDiffer(i, k); }
      assert Slot(k) == tail % cqes.Length;
      cqes[tail % cqes.Length] := cqe;
      tail := Tick(tail);
      assert Sub32(tail, head) == k + 1;
    }

    lemma SlotsDiffer(i: nat, j: nat)
      requires Valid() && i < j < cqes.Length
      ensures Slot(i) != Slot(j)
    {
      WrappedSlot(head, i, cqes.Length);
      WrappedSlot(head, j, cqes.Length);
      SlotsApart(head + i, head + j, cqes.Length);
    }

    /** The caller's side: it moves its head, at most up to the tail. */
    method Advance(k: nat)
      requires Valid() && k <= |Unread()|
      modifies this`head
      ensures Valid()
      ensures Unread() == old(Unread())[k..]
    {
      ghost var was := Unread();
      head := Ahead(head, k);
      assert Sub32(tail, head) == |was| - k;
      forall i | 0 <= i < |was| - k ensures Unread()[i] == was[k + i] {
        assert Slot(i) == old(Slot(k + i));
      }
    }
  }

  lemma Pow2Double(n: nat)
    requires n > 0 && Pow2(n)
    ensures Pow2(2 * n)
  {
  }

  lemma Pow2Times16(n: nat)
    requires n > 0 && Pow2(n)
    ensures Pow2(16 * n)
  {
    Pow2Double(n);
    Pow2Double(2 * n);
    Pow2Double(4 * n);
    Pow2Double(8 * n);
  }

  lemma Pow2Word()
    ensures Pow2(U32)
  {
    Pow2Times16(1);
    Pow2Times16(0x10);
    Pow2Times16(0x100);
    Pow2Times16(0x1000);
    Pow2Times16(0x1_0000);
    Pow2Times16(0x10_0000);
    Pow2Times16(0x100_0000);
    Pow2Times16(0x1000_0000);
  }
}
