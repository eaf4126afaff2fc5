/** Bytes on the wire (prod/libsrc/porter/protocol/packet.c): the 40-byte header, the packed container of
    payload elements, and the authenticated form of a packet. */
module Wire {
  import opened SeqNum
  import opened Packets

  const HEADER_SIZE := 40
  const ELEM_HDR_SIZE := 6
  const TAG_SIZE := 16
  const MAX_PAYLOAD := 65507
  const PROTOCOL_VERSION: u32 := 1
  const U64_MOD := 0x1_0000_0000_0000_0000

  // Outer packet flags.
  const DATA: u16 := 0x01
  const NACK: u16 := 0x02
  const PING: u16 := 0x04
  const REJECT: u16 := 0x08
  const FIN: u16 := 0x10
  const ENCRYPTED: u16 := 0x20
  const FIN_TARGET_VALID: u16 := 0x40
  const FIN_ACK: u16 := 0x80

  // Payload element flags.
  const MORE_FRAG: u16 := 0x01
  const COMPRESSED: u16 := 0x02

  type u64 = x: int | 0 <= x < 0x1_0000_0000_0000_0000

  /** `(flags & mask) != 0` for a one-bit mask. */
  predicate Has(flags: u16, mask: u16)
    requires mask > 0
  {
    flags / mask % 2 == 1
  }

  /** `flags | mask` for a one-bit mask. */
  function With(flags: u16, mask: u16): int
    requires mask > 0
  {
    if Has(flags, mask) then flags else flags + mask
  }

  /** What the dispatcher takes a packet for; the flags are looked at in this order. */
  datatype Kind = Fin(targeted: bool) | Nack | Reject | Ping | Data | Other

  function KindOf(p: Packet): Kind {
    var f := p.hdr.flags;
    if Has(f, FIN) then Kind.Fin(Has(f, FIN_TARGET_VALID))
    else if Has(f, NACK) then Kind.Nack
    else if Has(f, REJECT) then Kind.Reject
    else if Has(f, PING) then Kind.Ping
    else if Has(f, DATA) then Kind.Data
    else Other
  }

  // ---------- integers ----------

  function Be16(x: u16): seq<byte> {
    [x / 256, x % 256]
  }

  function Be32(x: u32): seq<byte> {
    Be16(x / U16_MOD) + Be16(x % U16_MOD)
  }

  function Be64(x: u64): seq<byte> {
    Be32(x / U32_MOD) + Be32(x % U32_MOD)
  }

  function Half(b: seq<byte>): u16
    requires |b| == 2
  {
    var hi: int := b[0];
    hi * 256 + b[1]
  }

  function Word(b: seq<byte>): u32
    requires |b| == 4
  {
    var hi: int := Half(b[..2]);
    hi * U16_MOD + Half(b[2..])
  }

  function Long(b: seq<byte>): u64
    requires |b| == 8
  {
    var hi: int := Word(b[..4]);
    hi * U32_MOD + Word(b[4..])
  }

  lemma HalfOfBe16(x: u16)
    ensures Half(Be16(x)) == x
  {
  }

  lemma WordOfBe32(x: u32)
    ensures Word(Be32(x)) == x
  {
    var b := Be32(x);
    assert b[..2] == Be16(x / U16_MOD) && b[2..] == Be16(x % U16_MOD);
    HalfOfBe16(x / U16_MOD);
    HalfOfBe16(x % U16_MOD);
  }

  lemma LongOfBe64(x: u64)
    ensures Long(Be64(x)) == x
  {
    var b := Be64(x);
    assert b[..4] == Be32(x / U32_MOD) && b[4..] == Be32(x % U32_MOD);
    WordOfBe32(x / U32_MOD);
    WordOfBe32(x % U32_MOD);
  }

  /** The bit pattern of a signed 64-bit or 32-bit field, and back. */
  function Unsigned(x: int, modulus: int): int
    requires modulus > 0
  {
    x % modulus
  }

  function Signed(x: int, modulus: int): int {
    if x < modulus / 2 then x else x - modulus
  }

  lemma SignedRoundTrip(x: int, modulus: int)
    requires modulus == U32_MOD || modulus == U64_MOD
    requires -modulus / 2 <= x < modulus / 2
    ensures Signed(Unsigned(x, modulus), modulus) == x
  {
  }

  // ---------- byte order conversion on a little-endian host ----------

  /** How a value sits in the memory of a little-endian host. */
  function Memory16(x: u16): seq<byte> {
    [x % 256, x / 256]
  }

  function Memory32(x: u32): seq<byte> {
    Memory16(x % U16_MOD) + Memory16(x / U16_MOD)
  }

  function Memory64(x: u64): seq<byte> {
    Memory32(x % U32_MOD) + Memory32(x / U32_MOD)
  }

  /** The byte swap of the platform library. */
  function Hton32(x: u32): u32 {
    Word(Memory32(x))
  }

  function Hton64(v: u64): u64 {
    var hi: int := Hton32(v / U32_MOD);
    var lo: int := Hton32(v % U32_MOD);
    lo * U32_MOD + hi
  }

  lemma Hton32Memory(x: u32)
    ensures Memory32(Hton32(x)) == Be32(x) && Hton32(Hton32(x)) == x
  {
    var m := Memory32(x);
    assert m[..2] == Memory16(x % U16_MOD) && m[2..] == Memory16(x / U16_MOD);
    var y := Hton32(x);
    assert y / U16_MOD == Half(Memory16(x % U16_MOD)) && y % U16_MOD == Half(Memory16(x / U16_MOD));
    SwapHalf(x % U16_MOD);
    SwapHalf(x / U16_MOD);
    WordOfBe32(x);
  }

  lemma SwapHalf(x: u16)
    ensures Memory16(Half(Memory16(x))) == Be16(x)
  {
  }

  /** Converting and storing on a little-endian host puts the most significant byte first, and converting
      twice gives the value back, which is why one function serves both directions. */
  lemma Hton64Correct(v: u64)
    ensures Memory64(Hton64(v)) == Be64(v) && Hton64(Hton64(v)) == v
  {
    Hton32Memory(v / U32_MOD);
    Hton32Memory(v % U32_MOD);
    var hi, lo := Hton32(v / U32_MOD), Hton32(v % U32_MOD);
    assert Hton64(v) / U32_MOD == lo && Hton64(v) % U32_MOD == hi;
  }

  // ---------- header ----------

  predicate Encodable(h: Header) {
    && -0x8000_0000_0000_0000 <= h.serviceId < 0x8000_0000_0000_0000
    && -0x8000_0000_0000_0000 <= h.sec < 0x8000_0000_0000_0000
    && -0x8000_0000 <= h.nsec < 0x8000_0000
  }

  function HeaderBytes(h: Header): (b: seq<byte>)
    ensures |b| == HEADER_SIZE
  {
    Be64(Unsigned(h.serviceId, U64_MOD)) + Be64(Unsigned(h.sec, U64_MOD))
    + Be32(h.sessionId) + Be32(Unsigned(h.nsec, U32_MOD))
    + Be32(h.number) + Be32(h.ack) + Be16(h.flags) + Be16(h.len) + Be32(h.version)
  }

  function ParseHeader(b: seq<byte>): Header
    requires |b| >= HEADER_SIZE
  {
    Header(Signed(Long(b[0..8]), U64_MOD), Signed(Long(b[8..16]), U64_MOD),
           Word(b[16..20]), Signed(Word(b[20..24]), U32_MOD),
           Word(b[24..28]), Word(b[28..32]), Half(b[32..34]), Half(b[34..36]), Word(b[36..40]))
  }

  function WireBytes(p: Packet): seq<byte> {
    HeaderBytes(p.hdr) + p.payload
  }

  /** `None` stands for the protocol error the receiver drops the datagram for. */
  function Parse(b: seq<byte>): (r: Option<Packet>)
    ensures r.Some? ==> r.value.Sized()
  {
    if |b| < HEADER_SIZE then None
    else
      var h := ParseHeader(b);
      if h.version != PROTOCOL_VERSION || h.len > MAX_PAYLOAD || h.len + HEADER_SIZE > |b| then None
      else Some(Packet(h, b[HEADER_SIZE..HEADER_SIZE + h.len]))
  }

  lemma ParseHeaderInverts(h: Header, rest: seq<byte>)
    requires Encodable(h)
    ensures ParseHeader(HeaderBytes(h) + rest) == h
  {
    var b := HeaderBytes(h) + rest;
    assert b[0..8] == Be64(Unsigned(h.serviceId, U64_MOD)) && b[8..16] == Be64(Unsigned(h.sec, U64_MOD));
    assert b[16..20] == Be32(h.sessionId) && b[20..24] == Be32(Unsigned(h.nsec, U32_MOD));
    assert b[24..28] == Be32(h.number) && b[28..32] == Be32(h.ack);
    assert b[32..34] == Be16(h.flags) && b[34..36] == Be16(h.len) && b[36..40] == Be32(h.version);
    FieldsRoundTrip(h);
  }

  lemma FieldsRoundTrip(h: Header)
    requires Encodable(h)
    ensures Signed(Long(Be64(Unsigned(h.serviceId, U64_MOD))), U64_MOD) == h.serviceId
    ensures Signed(Long(Be64(Unsigned(h.sec, U64_MOD))), U64_MOD) == h.sec
    ensures Signed(Word(Be32(Unsigned(h.nsec, U32_MOD))), U32_MOD) == h.nsec
    ensures Word(Be32(h.sessionId)) == h.sessionId && Word(Be32(h.number)) == h.number
    ensures Word(Be32(h.ack)) == h.ack && Word(Be32(h.version)) == h.version
    ensures Half(Be16(h.flags)) == h.flags && Half(Be16(h.len)) == h.len
  {
    LongOfBe64(Unsigned(h.serviceId, U64_MOD));
    LongOfBe64(Unsigned(h.sec, U64_MOD));
    WordOfBe32(Unsigned(h.nsec, U32_MOD));
    SignedRoundTrip(h.serviceId, U64_MOD);
    SignedRoundTrip(h.sec, U64_MOD);
    SignedRoundTrip(h.nsec, U32_MOD);
    WordOfBe32(h.sessionId);
    WordOfBe32(h.number);
    WordOfBe32(h.ack);
    WordOfBe32(h.version);
    HalfOfBe16(h.flags);
    HalfOfBe16(h.len);
  }

  /** A datagram that starts with a built packet parses back to that packet, whatever follows it. */
  lemma ParseInvertsBuild(p: Packet, rest: seq<byte>)
    requires Encodable(p.hdr) && p.Sized() && p.hdr.len <= MAX_PAYLOAD && p.hdr.version == PROTOCOL_VERSION
    ensures Parse(WireBytes(p) + rest) == Some(p)
  {
    var b := WireBytes(p) + rest;
    assert b == HeaderBytes(p.hdr) + (p.payload + rest);
    ParseHeaderInverts(p.hdr, p.payload + rest);
    assert b[HEADER_SIZE..HEADER_SIZE + p.hdr.len] == p.payload;
  }

  // ---------- packed container ----------

  datatype Elem = Elem(flags: u16, payload: seq<byte>) {
    predicate Sendable() {
      |payload| <= MAX_PAYLOAD
    }

    function Size(): nat {
      ELEM_HDR_SIZE + |payload|
    }
  }

  function EncodeElem(e: Elem): (b: seq<byte>)
    requires e.Sendable()
    ensures |b| == e.Size()
  {
    Be16(e.flags) + Be32(|e.payload|) + e.payload
  }

  predicate AllSendable(es: seq<Elem>) {
    forall i :: 0 <= i < |es| ==> es[i].Sendable()
  }

  function Encode(es: seq<Elem>): seq<byte>
    requires AllSendable(es)
  {
    if es == [] then [] else EncodeElem(es[0]) + Encode(es[1..])
  }

  datatype Unpacked = Next(elem: Elem, offset: nat) | End | Malformed

  function UnpackNext(b: seq<byte>, offset: nat): (r: Unpacked)
    requires offset <= |b|
    ensures r.Next? ==> r.elem.Sendable() && offset + r.elem.Size() == r.offset <= |b|
    ensures r.Next? ==> r.elem.payload == b[offset + ELEM_HDR_SIZE..r.offset]
  {
    if offset + ELEM_HDR_SIZE > |b| then End
    else
      var flags := Half(b[offset..offset + 2]);
      var len := Word(b[offset + 2..offset + ELEM_HDR_SIZE]);
      if offset + ELEM_HDR_SIZE + len > |b| || len > MAX_PAYLOAD then Malformed
      else Next(Elem(flags, b[offset + ELEM_HDR_SIZE..offset + ELEM_HDR_SIZE + len]), offset + ELEM_HDR_SIZE + len)
  }

  /** The elements the unpack loop delivers. */
  function UnpackFrom(b: seq<byte>, offset: nat): seq<Elem>
    requires offset <= |b|
    decreases |b| - offset
  {
    match UnpackNext(b, offset)
    case Next(e, next) => [e] + UnpackFrom(b, next)
    case End => []
    case Malformed => []
  }

  lemma UnpackNextOfEncode(pre: seq<byte>, e: Elem, post: seq<byte>)
    requires e.Sendable()
    ensures UnpackNext(pre + EncodeElem(e) + post, |pre|) == Next(e, |pre| + e.Size())
  {
    var b := pre + EncodeElem(e) + post;
    assert b[|pre|..|pre| + 2] == Be16(e.flags);
    assert b[|pre| + 2..|pre| + ELEM_HDR_SIZE] == Be32(|e.payload|);
    assert b[|pre| + ELEM_HDR_SIZE..|pre| + e.Size()] == e.payload;
    HalfOfBe16(e.flags);
    WordOfBe32(|e.payload|);
  }

  lemma UnpackStep(b: seq<byte>, offset: nat, e: Elem, next: nat)
    requires offset <= |b| && UnpackNext(b, offset) == Next(e, next)
    ensures UnpackFrom(b, offset) == [e] + UnpackFrom(b, next)
  {
  }

  lemma {:induction false} UnpackOfEncodeAt(pre: seq<byte>, es: seq<Elem>)
    requires AllSendable(es)
    ensures UnpackFrom(pre + Encode(es), |pre|) == es
    decreases |es|
  {
    if es != [] {
      var e, rest := es[0], es[1..];
      var b := pre + EncodeElem(e) + Encode(rest);
      assert pre + Encode(es) == b;
      UnpackNextOfEncode(pre, e, Encode(rest));
      UnpackStep(b, |pre|, e, |pre| + e.Size());
      UnpackOfEncodeAt(pre + EncodeElem(e), rest);
      assert es == [e] + rest;
    }
  }

  /** Unpacking a packed container gives back exactly the packed elements. */
  lemma UnpackOfEncode(es: seq<Elem>)
    requires AllSendable(es)
    ensures UnpackFrom(Encode(es), 0) == es
  {
    assert [] + Encode(es) == Encode(es);
    UnpackOfEncodeAt([], es);
  }

  /** Where each delivered element's payload starts. */
  function Spans(b: seq<byte>, offset: nat): seq<(nat, nat)>
    requires offset <= |b|
    decreases |b| - offset
  {
    match UnpackNext(b, offset)
    case Next(e, next) => [(offset + ELEM_HDR_SIZE, next)] + Spans(b, next)
    case End => []
    case Malformed => []
  }

  /** On arbitrary bytes the loop delivers one element per span; the spans lie inside the buffer, each past
      the previous one and its own header, so no byte is delivered twice. */
  lemma {:induction false} SpansDisjoint(b: seq<byte>, offset: nat)
    requires offset <= |b|
    ensures var spans, es := Spans(b, offset), UnpackFrom(b, offset);
            && |spans| == |es|
            && (forall i :: 0 <= i < |spans| ==>
                  offset + ELEM_HDR_SIZE <= spans[i].0 <= spans[i].1 <= |b| && es[i].payload == b[spans[i].0..spans[i].1])
            && (forall i, j :: 0 <= i < j < |spans| ==> spans[i].1 + ELEM_HDR_SIZE <= spans[j].0)
    decreases |b| - offset
  {
    match UnpackNext(b, offset)
    case Next(e, next) => SpansDisjoint(b, next);
    case End =>
    case Malformed =>
  }
}
