/** 32-bit sequence numbers that wrap (prod/libsrc/porter/protocol/seqnum.c), related to unbounded packet
    indices: the packet with index `n` of a stream carries the number `Wrap(n)`. */
module SeqNum {

  const U16_MOD := 0x1_0000
  const U32_MOD := 0x1_0000_0000

  type byte = x: int | 0 <= x < 256
  type u16 = x: int | 0 <= x < 0x1_0000
  type u32 = x: int | 0 <= x < 0x1_0000_0000

  datatype Option<+T> = None | Some(value: T)

  function Wrap(n: int): u32 {
    n % U32_MOD
  }

  /** The number carried by packet `k` of a stream whose first packet carries `first`. */
  function Number(first: u32, k: int): u32 {
    Wrap(first + k)
  }

  function Inc(a: u32): u32 {
    Wrap(a + 1)
  }

  /** `(uint32_t)(a - base)` */
  function Distance(a: u32, base: u32): u32 {
    Wrap(a - base)
  }

  predicate InWindow(number: u32, base: u32, size: u16) {
    Distance(number, base) < size
  }

  lemma DistanceOfWraps(k: int, n: int)
    ensures Distance(Wrap(k), Wrap(n)) == Wrap(k - n)
  {
  }

  /** Less than 2^32 apart, indices have the same number only when they are the same. */
  lemma SameNumber(first: u32, a: nat, b: nat)
    requires a <= b < a + U32_MOD && Number(first, a) == Number(first, b)
    ensures a == b
  {
    var rounds := (first + b) / U32_MOD - (first + a) / U32_MOD;
    assert b - a == U32_MOD * rounds;
  }

  lemma WrapAdd(n: int, d: int)
    ensures Wrap(Wrap(n) + d) == Wrap(n + d)
  {
  }

  lemma IncWrap(n: int)
    ensures Inc(Wrap(n)) == Wrap(n + 1)
  {
    WrapAdd(n, 1);
  }

  /** Two numbers at the same distance from the same base are the same number. */
  lemma DistanceRoundTrip(a: u32, base: u32)
    ensures Wrap(base + Distance(a, base)) == a
  {
  }

  lemma StepRoundTrip(base: u32, d: u32)
    ensures Distance(Wrap(base + d), base) == d
  {
  }

  /** The wrapping membership test agrees with the unbounded one for every index that is no older than
      2^32 minus the window size and less than 2^32 ahead. */
  lemma InWindowAgrees(k: int, n: int, size: u16)
    requires n - (U32_MOD - size) <= k < n + U32_MOD
    ensures InWindow(Wrap(k), Wrap(n), size) <==> n <= k < n + size
    ensures n <= k ==> Distance(Wrap(k), Wrap(n)) == k - n
  {
    DistanceOfWraps(k, n);
  }

  /** The age bound of `InWindowAgrees` is exact: of the packets up to 2^32 behind the window, the test
      wrongly accepts precisely those older than 2^32 minus the window size. */
  lemma StaleAcceptedIff(age: int, n: int, size: u16)
    requires 0 < age < U32_MOD
    ensures InWindow(Wrap(n - age), Wrap(n), size) <==> age > U32_MOD - size
  {
    DistanceOfWraps(n - age, n);
    assert Wrap(-age) == U32_MOD - age;
  }
}
