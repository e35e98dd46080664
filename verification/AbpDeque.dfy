/** Powers of two and the bit mask that replaces a division when wrapping an index. */
module PowersOfTwo {

  function Pow2(k: nat): (p: nat)
    ensures p > 0
  {
    if k == 0 then 1 else 2 * Pow2(k - 1)
  }

  /** Bitwise `and` of two non-negative integers. */
  function BitAnd(x: nat, y: nat): nat
    decreases x
  {
    if x == 0 || y == 0 then 0
    else (if x % 2 == 1 && y % 2 == 1 then 1 else 0) + 2 * BitAnd(x / 2, y / 2)
  }

  lemma {:induction false} MaskIsModulo(i: nat, k: nat)
    ensures BitAnd(i, Pow2(k) - 1) == i % Pow2(k)
    decreases k
  {
    if k == 0 || i == 0 {
    } else {
      var half := Pow2(k - 1);
      MaskIsModulo(i / 2, k - 1);
      assert (Pow2(k) - 1) / 2 == half - 1 && (Pow2(k) - 1) % 2 == 1;
      DoubledModulo(i, half);
      if half == 1 { assert BitAnd(i / 2, 0) == 0; }
    }
  }

  lemma DoubledModulo(i: nat, half: nat)
    requires half > 0
    ensures i % (2 * half) == i % 2 + 2 * ((i / 2) % half)
  {
    var q, r := (i / 2) / half, (i / 2) % half;
    assert i / 2 == half * q + r;
    assert i == (2 * half) * q + (i % 2 + 2 * r);
    RemainderIsUnique(i, 2 * half, q, i % 2 + 2 * r);
  }

  lemma RemainderIsUnique(i: nat, m: nat, q: nat, r: nat)
    requires m > 0 && r < m && i == m * q + r
    ensures i % m == r
  {
    var p, x := i / m, i % m;
    assert m * p + x == m * q + r;
    if p < q { Multiples(m, p, q); } else if p > q { Multiples(m, q, p); }
  }

  lemma Multiples(m: nat, p: nat, q: nat)
    requires p < q
    ensures m * p + m <= m * q
  {
    var d := q - p - 1;
    assert m * q == m * (p + (1 + d)) == m * p + m * (1 + d);
    assert m * (1 + d) == m + m * d && m * d >= 0;
  }
}

/** The work-stealing deque itself: the words it keeps and the code of its three operations. */
module AbpDeques {
  import opened Basics
  import opened PowersOfTwo
  import opened DequeMachine

  datatype StealOutcome = Success | Empty | Abort

  lemma {:induction false} SlotIsModulo(i: nat, capacity: nat)
    requires 0 < capacity
    ensures SlotOf(i, capacity) == i % capacity
    decreases i
  {
    if i >= capacity {
      SlotIsModulo(i - capacity, capacity);
      RemainderIsUnique(i, capacity, (i - capacity) / capacity + 1, (i - capacity) % capacity);
    } else {
      RemainderIsUnique(i, capacity, 0, i);
    }
  }

  lemma SlotIsSpare(t: nat, b: nat, capacity: nat)
    requires t <= b < t + capacity
    ensures forall i {:trigger SlotOf(i, capacity)} :: t <= i < b ==> SlotOf(i, capacity) != SlotOf(b, capacity)
  {
    forall i {:trigger SlotOf(i, capacity)} | t <= i < b ensures SlotOf(i, capacity) != SlotOf(b, capacity) {
      SlotsDiffer(i, b, capacity);
    }
  }

  class AbpDeque<T(0, ==)> {
    const capacity: nat
    const mask: nat
    const buffer: array<T>
    var top: int
    var bottom: int

    ghost const bits: nat

    ghost predicate Valid()
      reads this
    {
      && capacity == Pow2(bits) && mask == capacity - 1 && buffer.Length == capacity
      && 0 <= top <= bottom <= top + capacity
    }

    /** The live items, oldest first. */
    ghost function Contents(): (s: seq<T>)
      requires Valid()
      reads this, buffer
      ensures |s| == bottom - top
    {
      seq(bottom - top, k requires 0 <= k < bottom - top reads this, buffer
                                   requires Valid() => buffer[SlotOf(top + k, capacity)])
    }

    /** The protocol state of a deque on which no call is under way. */
    ghost function View(): (s: State<T>)
      requires Valid()
      reads this, buffer
      ensures Shaped(s) && OwnerOk(s)
    {
      State(capacity, top, bottom, buffer[..], OwnerIdle, map[], Contents(), [], multiset{}, multiset{})
    }

    /** `requested` is rounded up to a power of two. */
    constructor (requested: nat)
      ensures Valid() && fresh(buffer)
      ensures Contents() == [] && top == 0
      ensures capacity >= requested && (capacity == 1 || capacity < 2 * requested)
    {
      var rounded: nat := 1;
      ghost var k: nat := 0;
      while rounded < requested
        invariant rounded == Pow2(k)
        invariant rounded == 1 || rounded < 2 * requested
        decreases requested - rounded
      {
        rounded := rounded * 2;
        k := k + 1;
      }
      capacity := rounded;
      mask := rounded - 1;
      bits := k;
      buffer := new T[rounded];
      top, bottom := 0, 0;
    }

    /** `index & mask`, the ring slot of a logical index. */
    function RingSlot(index: nat): (slot: nat)
      requires capacity == Pow2(bits) && mask == capacity - 1
      ensures slot < capacity && slot == SlotOf(index, capacity)
    {
      MaskIsModulo(index, bits);
      SlotIsModulo(index, capacity);
      BitAnd(index, mask)
    }

    method Push(value: T) returns (ok: bool)
      requires Valid()
      modifies this`bottom, buffer
      ensures Valid() && SameDeque(View(), SoloPush(old(View()), value))
      ensures ok <==> |old(Contents())| < capacity
      ensures Contents() == old(Contents()) + if ok then [value] else []
    {
      SoloPushResult(View(), value);
      var b := bottom;
      var t := top;
      if b - t >= capacity {
        return false;
      }
      SlotIsSpare(t, b, capacity);
      buffer[RingSlot(b)] := value;
      bottom := b + 1;
      return true;
    }

    method Pop() returns (result: Option<T>)
      requires Valid()
      modifies this`top, this`bottom
      ensures Valid() && SameDeque(View(), SoloPop(old(View())))
      ensures old(Contents()) == [] ==> result == None && Contents() == []
      ensures old(Contents()) != [] ==>
        result.Some? && old(Contents()) == Contents() + [result.value]
    {
      hide SoloPop, SlotOf, BitAnd, Pow2;
      ghost var was := Contents();
      SoloPopResult(View());
      var b := bottom - 1;
      bottom := b;
      var t := top;
      if t > b {
        bottom := b + 1;
        return None;
      }
      var out := buffer[RingSlot(b)];
      assert was[|was| - 1] == out;
      if t != b {
        assert Contents() == was[..|was| - 1];
        return Some(out);
      }
      var won := top == t;
      if won {
        top := t + 1;
      }
      bottom := b + 1;
      return if won then Some(out) else None;
    }

    /** `thief` is any thread but the owner; alone, its claim cannot be aborted. */
    method Steal(ghost thief: Tid) returns (outcome: StealOutcome, result: Option<T>)
      requires Valid()
      modifies this`top
      ensures Valid() && SameDeque(View(), SoloSteal(old(View()), thief))
      ensures old(Contents()) == [] ==> outcome == Empty && result == None && Contents() == []
      ensures old(Contents()) != [] ==>
        outcome == Success && result.Some? && old(Contents()) == [result.value] + Contents()
    {
      SoloStealResult(View(), thief);
      var t := top;
      var b := bottom;
      if t >= b {
        return Empty, None;
      }
      var out := buffer[RingSlot(t)];
      if top != t {
        return Abort, None;
      }
      top := t + 1;
      return Success, Some(out);
    }

    /** Exact when nothing else is running; a hint otherwise. */
    method SizeHint() returns (n: nat)
      requires Valid()
      ensures n == |Contents()|
    {
      var b, t := bottom, top;
      return if b - t > 0 then b - t else 0;
    }
  }
}
