/** The outer packet as both windows store it (prod/include/porter/porter_type.h). Fields are the values the
    struct denotes; `Wire` gives their byte order. */
module Packets {
  import opened SeqNum

  datatype Header = Header(serviceId: int, sec: int, sessionId: u32, nsec: int, number: u32, ack: u32,
                           flags: u16, len: u16, version: u32)

  datatype Packet = Packet(hdr: Header, payload: seq<byte>) {
    predicate Sized() {
      hdr.len == |payload|
    }
  }
}

/** Sliding windows (prod/libsrc/porter/protocol/window.c).

    `Win` is the simple form: the slots listed by their offset from the base, so that advancing the base shifts
    the list. The class `Window` is the circular form with `base_index`, in-place arrays and a shared payload
    pool; every method is proved to do to its `View()` what the function of the same name does to a `Win`. */
module Windows {
  import opened SeqNum
  import opened Packets

  datatype Win = Win(base: u32, next: u32, slots: seq<Option<Packet>>) {
    function Size(): nat {
      |slots|
    }

    /** What every window the library opens satisfies. */
    predicate Sane() {
      0 < |slots| < U16_MOD
    }
  }

  // ---------- both directions ----------

  function EmptySlots(size: nat): (r: seq<Option<Packet>>)
    ensures |r| == size && forall d :: 0 <= d < size ==> r[d] == None
  {
    seq(size, _ => None)
  }

  function Init(first: u32, size: nat): Win {
    Win(first, first, EmptySlots(size))
  }

  /** Drop the slot at the base and move the base one number on. */
  function Advance(w: Win): Win
    requires w.Sane()
  {
    Win(Inc(w.base), w.next, w.slots[1..] + [None])
  }

  // ---------- sending side ----------

  predicate SendFull(w: Win) {
    Distance(w.next, w.base) >= w.Size()
  }

  predicate SendOk(w: Win) {
    w.Sane() && Distance(w.next, w.base) <= w.Size()
  }

  function SendPush(w: Win, p: Packet): Win
    requires SendOk(w)
  {
    var w1 := if SendFull(w) then Advance(w) else w;
    StepOff(w.next, w.base);
    Win(w1.base, Inc(w1.next), w1.slots[Distance(w1.next, w1.base) := Some(p)])
  }

  function SendGet(w: Win, q: u32): Option<Packet>
    requires SendOk(w)
  {
    if InWindow(q, w.base, Distance(w.next, w.base)) && Distance(q, w.base) < w.Size()
    then w.slots[Distance(q, w.base)] else None
  }

  lemma StepOff(next: u32, base: u32)
    ensures 0 < Distance(next, base) ==> Distance(next, Inc(base)) == Distance(next, base) - 1
  {
  }

  // ---------- receiving side ----------

  /** Both counters of a receive window move together, and a stored packet sits at its own offset. */
  predicate RecvOk(w: Win) {
    && w.Sane()
    && w.base == w.next
    && forall d :: 0 <= d < |w.slots| && w.slots[d].Some? ==> w.slots[d].value.hdr.number == Wrap(w.base + d)
  }

  predicate Accepts(w: Win, number: u32)
    requires w.Sane()
  {
    InWindow(number, w.base, w.Size())
  }

  function RecvPush(w: Win, p: Packet): Win
    requires w.Sane() && Accepts(w, p.hdr.number)
  {
    var d := Distance(p.hdr.number, w.base);
    if w.slots[d].None? then w.(slots := w.slots[d := Some(p)]) else w
  }

  predicate CanPop(w: Win)
    requires w.Sane()
  {
    w.slots[0].Some?
  }

  /** The window after `recv_pop` succeeds or `recv_skip` applies: both drop the slot at the base. */
  function Consume(w: Win): Win
    requires w.Sane()
  {
    Advance(w).(next := Inc(w.next))
  }

  function RecvSkip(w: Win, number: u32): Win
    requires w.Sane()
  {
    if w.next == number then Consume(w) else w
  }

  function RecvReset(w: Win, first: u32): Win {
    Init(first, w.Size())
  }

  /** `next_seq` is missing although a later packet is there. */
  predicate HasGap(w: Win)
    requires w.Sane()
  {
    w.slots[0].None? && exists d :: 0 < d < w.Size() && w.slots[d].Some?
  }

  predicate HasPacket(w: Win, number: u32)
    requires w.Sane()
  {
    Accepts(w, number) && w.slots[Distance(number, w.base)].Some?
  }

  lemma RecvOpsKeepOk(w: Win, p: Packet)
    requires RecvOk(w)
    ensures Accepts(w, p.hdr.number) ==> RecvOk(RecvPush(w, p))
    ensures RecvOk(Consume(w))
  {
    DistanceRoundTrip(p.hdr.number, w.base);
    var c := Consume(w);
    forall d | 0 <= d < |c.slots| && c.slots[d].Some?
      ensures c.slots[d].value.hdr.number == Wrap(c.base + d)
    {
      assert c.slots[d] == w.slots[d + 1];
      WrapAdd(w.base + 1, d);
    }
  }

  // ---------- circular implementation ----------

  function Ring(start: nat, d: nat, size: nat): (i: nat)
    requires start < size && d < size
    ensures i < size
  {
    if start + d < size then start + d else start + d - size
  }

  lemma RingIsMod(start: nat, d: nat, size: nat)
    requires start < size < U16_MOD
    ensures d < size ==> Wrap(start + d) % size == Ring(start, d, size)
  {
    var x := start + d;
    if d < size {
      assert Wrap(x) == x;
      ModOnce(if x < size then x else x - size, size);
    }
  }

  function NextIndex(i: nat, size: nat): (r: nat)
    requires i < size
    ensures r == if i + 1 < size then i + 1 else 0
  {
    ModOnce(if i + 1 < size then i + 1 else 0, size);
    (i + 1) % size
  }

  lemma ModOnce(x: nat, size: nat)
    requires x < size
    ensures (x + size) % size == x && x % size == x
  {
    assert x + size == 1 * size + x;
    assert (x + size) / size == 1;
  }

  /** Different slots own disjoint parts of the payload pool. */
  lemma {:induction false} PoolSlots(i: nat, j: nat, cap: nat)
    ensures i < j ==> i * cap + cap <= j * cap
  {
    if i < j {
      assert j * cap == (j - 1) * cap + cap;
      PoolSlots(i, j - 1, cap);
    }
  }

  class Window {
    const size: nat
    const cap: nat
    const hdrs: array<Header>
    const valid: array<bool>
    const pool: array<byte>
    const slotAt: seq<nat>  // where each ring position's payload lives in the pool
    var baseSeq: u32
    var nextSeq: u32
    var baseIndex: nat

    ghost predicate Valid()
      reads this`baseIndex, hdrs
    {
      && 0 < size < U16_MOD
      && hdrs.Length == valid.Length == |slotAt| == size
      && baseIndex < size
      && (forall i :: 0 <= i < size ==> hdrs[i].len <= cap && slotAt[i] + cap <= pool.Length)
      && (forall i, j :: 0 <= i < j < size ==> slotAt[i] + cap <= slotAt[j])
    }

    /** The packet stored in ring position `i`; its payload is read out of the pool. */
    ghost function Slot(i: nat): Option<Packet>
      requires Valid() && i < size
      reads this`baseIndex, hdrs, valid, pool
    {
      if valid[i] then Some(Packet(hdrs[i], pool[slotAt[i]..slotAt[i] + hdrs[i].len])) else None
    }

    /** The ring read from the base on. */
    ghost function Slots(n: nat): (slots: seq<Option<Packet>>)
      requires Valid() && n <= size
      reads this`baseIndex, hdrs, valid, pool
      ensures |slots| == n
      ensures forall d :: 0 <= d < n ==> slots[d] == Slot(Ring(baseIndex, d, size))
    {
      if n == 0 then [] else Slots(n - 1) + [Slot(Ring(baseIndex, n - 1, size))]
    }

    ghost function View(): (w: Win)
      requires Valid()
      reads this, hdrs, valid, pool
      ensures w.Sane() && w.Size() == size
    {
      Win(baseSeq, nextSeq, Slots(size))
    }

    constructor (first: u32, size: nat, cap: nat)
      requires 0 < size < U16_MOD
      ensures Valid() && View() == Init(first, size) && this.size == size && this.cap == cap
      ensures fresh(hdrs) && fresh(valid) && fresh(pool)
    {
      this.size, this.cap := size, cap;
      hdrs := new Header[size](_ => Header(0, 0, 0, 0, 0, 0, 0, 0, 0));
      valid := new bool[size](_ => false);
      pool := new byte[size * cap](_ => 0);
      slotAt := seq(size, i => i * cap);
      baseSeq, nextSeq, baseIndex := first, first, 0;
      new;
      forall i, j | 0 <= i < j <= size
        ensures i * cap + cap <= j * cap
      {
        PoolSlots(i, j, cap);
      }
    }

    function Index(number: u32): (i: nat)
      requires Valid()
      reads this, hdrs
      ensures Distance(number, baseSeq) < size ==> i == Ring(baseIndex, Distance(number, baseSeq), size)
      ensures i < size
    {
      RingIsMod(baseIndex, Distance(number, baseSeq), size);
      Wrap(baseIndex + Distance(number, baseSeq)) % size
    }

    /** Copy a packet into slot `i`: the struct into `hdrs`, the payload bytes into the slot's part of the pool. */
    method Store(i: nat, p: Packet)
      requires Valid() && i < size && p.Sized() && |p.payload| <= cap
      modifies hdrs, valid, pool
      ensures Valid() && Slot(i) == Some(p)
      ensures forall j :: 0 <= j < size && j != i ==> Slot(j) == old(Slot(j))
    {
      hdrs[i] := p.hdr;
      valid[i] := true;
      forall k | 0 <= k < |p.payload| {
        pool[slotAt[i] + k] := p.payload[k];
      }
      assert pool[slotAt[i]..slotAt[i] + p.hdr.len] == p.payload;
      forall j | 0 <= j < size && j != i
        ensures Slot(j) == old(Slot(j))
      {
        assert slotAt[i] + cap <= slotAt[j] || slotAt[j] + cap <= slotAt[i];
        assert pool[slotAt[j]..slotAt[j] + hdrs[j].len] == old(pool[slotAt[j]..slotAt[j] + hdrs[j].len]);
      }
    }

    /** The packet with this number, if its slot is marked valid. */
    method Load(number: u32) returns (r: Option<Packet>)
      requires Valid() && Distance(number, baseSeq) < size
      ensures r == View().slots[Distance(number, baseSeq)]
    {
      var i := Index(number);
      r := if valid[i] then Some(Packet(hdrs[i], pool[slotAt[i]..slotAt[i] + hdrs[i].len])) else None;
    }

    /** Put a packet into the slot of this number. */
    method StoreAt(number: u32, p: Packet)
      requires Valid() && Distance(number, baseSeq) < size && p.Sized() && |p.payload| <= cap
      modifies hdrs, valid, pool
      ensures Valid()
      ensures View() == old(View()).(slots := old(View()).slots[Distance(number, baseSeq) := Some(p)])
    {
      ghost var at := Distance(number, baseSeq);
      var i := Index(number);
      Store(i, p);
      assert forall d :: 0 <= d < size && d != at ==> Ring(baseIndex, d, size) != i;
    }

    /** Clear the slot at the base and move the base on. */
    method AdvanceBase()
      requires Valid()
      modifies this, valid
      ensures Valid() && View() == Advance(old(View()))
    {
      ghost var before := View();
      valid[baseIndex] := false;
      baseSeq := Inc(baseSeq);
      baseIndex := NextIndex(baseIndex, size);
      forall d | 0 <= d < size
        ensures View().slots[d] == Advance(before).slots[d]
      {
        if d < size - 1 {
          assert before.slots[d + 1] == old(Slot(Ring(baseIndex, d + 1, size)));
          assert Ring(baseIndex, d, size) == old(Ring(baseIndex, d + 1, size));
        }
      }
    }

    method Reset(first: u32)
      requires Valid()
      modifies this, valid
      ensures Valid() && View() == RecvReset(old(View()), first)
    {
      forall i | 0 <= i < size {
        valid[i] := false;
      }
      baseSeq, nextSeq, baseIndex := first, first, 0;
    }

    method SendPushPacket(p: Packet)
      requires Valid() && SendOk(View()) && p.Sized() && |p.payload| <= cap
      modifies this, hdrs, valid, pool
      ensures Valid() && View() == SendPush(old(View()), p)
    {
      StepOff(nextSeq, baseSeq);
      if Distance(nextSeq, baseSeq) >= size {
        AdvanceBase();
      }
      StoreAt(nextSeq, p);
      nextSeq := Inc(nextSeq);
    }

    method SendGetPacket(q: u32) returns (r: Option<Packet>)
      requires Valid() && SendOk(View())
      ensures r == SendGet(View(), q)
    {
      var held := Distance(nextSeq, baseSeq) % U16_MOD;
      if !InWindow(q, baseSeq, held) {
        return None;
      }
      r := Load(q);
    }

    method RecvPushPacket(p: Packet) returns (ok: bool)
      requires Valid() && p.Sized() && |p.payload| <= cap
      modifies hdrs, valid, pool
      ensures Valid() && ok == Accepts(old(View()), p.hdr.number)
      ensures View() == if ok then RecvPush(old(View()), p) else old(View())
    {
      if !InWindow(p.hdr.number, baseSeq, size) {
        return false;
      }
      var held := Load(p.hdr.number);
      if held.None? {
        StoreAt(p.hdr.number, p);
      }
      ok := true;
    }

    method ConsumeBase()
      requires Valid()
      modifies this, valid
      ensures Valid() && View() == Consume(old(View()))
    {
      AdvanceBase();
      nextSeq := Inc(nextSeq);
    }

    method RecvPopPacket() returns (r: Option<Packet>)
      requires Valid() && baseSeq == nextSeq
      modifies this, valid
      ensures Valid() && r == old(View().slots[0])
      ensures View() == if r.Some? then Consume(old(View())) else old(View())
    {
      r := Load(nextSeq);
      if r.None? {
        return;
      }
      ConsumeBase();
    }

    method RecvSkipNumber(number: u32)
      requires Valid() && baseSeq == nextSeq
      modifies this, valid
      ensures Valid() && View() == RecvSkip(old(View()), number)
    {
      if nextSeq != number {
        return;
      }
      ConsumeBase();
    }

    method RecvNeedsNack() returns (nack: Option<u32>)
      requires Valid() && baseSeq == nextSeq
      ensures nack == if HasGap(View()) then Some(nextSeq) else None
    {
      ghost var w := View();
      assert Distance(nextSeq, baseSeq) == 0;
      var at := Load(nextSeq);
      if at.Some? {
        return None;
      }
      for i := 1 to size
        invariant forall d :: 0 < d < i ==> w.slots[d].None?
      {
        StepRoundTrip(nextSeq, i);
        var later := Load(Wrap(nextSeq + i));
        if later.Some? {
          return Some(nextSeq);
        }
      }
      nack := None;
    }

    method RecvHasPacket(number: u32) returns (has: bool)
      requires Valid()
      ensures has == HasPacket(View(), number)
    {
      if !InWindow(number, baseSeq, size) {
        return false;
      }
      var at := Load(number);
      has := at.Some?;
    }
  }
}
