/** Splitting messages into payload elements (prod/libsrc/porter/api/potr_service_send.c) and putting them
    together again (prod/libsrc/porter/thread/thread_recv_slot.c). */
module Fragments {
  import opened SeqNum
  import opened Wire

  /** The compression library; either direction may fail. */
  datatype Codec = Codec(compress: seq<byte> -> Option<seq<byte>>, expand: seq<byte> -> Option<seq<byte>>)

  ghost predicate Lawful(c: Codec) {
    forall m: seq<byte> :: c.compress(m).Some? ==> c.expand(c.compress(m).value) == Some(m)
  }

  // ---------- sending ----------

  /** The bytes that travel and their element flags; `None` when compression fails and the call with it.
      Compression that does not shrink the message is dropped. */
  function Prepare(codec: Codec, m: seq<byte>, compress: bool): Option<(seq<byte>, u16)> {
    if !compress then Some((m, 0))
    else
      match codec.compress(m)
      case None => None
      case Some(z) => if |z| < |m| then Some((z, COMPRESSED)) else Some((m, 0))
  }

  function Fragment(bytes: seq<byte>, flags: u16, chunk: nat): seq<Elem>
    requires 0 < chunk && (flags == 0 || flags == COMPRESSED)
    decreases |bytes|
  {
    if bytes == [] then []
    else if |bytes| <= chunk then [Elem(flags, bytes)]
    else [Elem(With(flags, MORE_FRAG), bytes[..chunk])] + Fragment(bytes[chunk..], flags, chunk)
  }

  lemma {:induction false} FragmentsFit(bytes: seq<byte>, flags: u16, chunk: nat)
    requires 0 < chunk && (flags == 0 || flags == COMPRESSED)
    ensures forall e :: e in Fragment(bytes, flags, chunk) ==> 0 < |e.payload| <= chunk
    decreases |bytes|
  {
    if |bytes| > chunk {
      FragmentsFit(bytes[chunk..], flags, chunk);
    }
  }

  // ---------- receiving ----------

  /** `frag_buf` up to `frag_buf_len`, and `frag_compressed`. */
  datatype Frag = Frag(buf: seq<byte>, compressed: bool)

  const NO_FRAG := Frag([], false)

  function Expand(codec: Codec, bytes: seq<byte>, compressed: bool): Option<seq<byte>> {
    if compressed then codec.expand(bytes) else Some(bytes)
  }

  /** One element arriving while connected: the new buffer and the message completed, if any. */
  function Feed(codec: Codec, max: nat, f: Frag, e: Elem): (Frag, Option<seq<byte>>) {
    if Has(e.flags, MORE_FRAG) then
      if |f.buf| + |e.payload| <= max then
        (Frag(f.buf + e.payload, if f.buf == [] then Has(e.flags, COMPRESSED) else f.compressed), None)
      else
        (NO_FRAG, None)
    else if f.buf != [] then
      (NO_FRAG,
       if |f.buf| + |e.payload| <= max then Expand(codec, f.buf + e.payload, f.compressed) else None)
    else
      (f, Expand(codec, e.payload, Has(e.flags, COMPRESSED)))
  }

  function ToSeq(o: Option<seq<byte>>): seq<seq<byte>> {
    if o.Some? then [o.value] else []
  }

  function FeedAll(codec: Codec, max: nat, f: Frag, es: seq<Elem>): (Frag, seq<seq<byte>>)
    decreases |es|
  {
    if es == [] then (f, [])
    else
      var (f1, o) := Feed(codec, max, f, es[0]);
      var (f2, ms) := FeedAll(codec, max, f1, es[1..]);
      (f2, ToSeq(o) + ms)
  }

  lemma {:induction false} FeedAllConcat(codec: Codec, max: nat, f: Frag, a: seq<Elem>, b: seq<Elem>)
    ensures var (f1, m1) := FeedAll(codec, max, f, a);
            var (f2, m2) := FeedAll(codec, max, f1, b);
            FeedAll(codec, max, f, a + b) == (f2, m1 + m2)
    decreases |a|
  {
    if a == [] {
      var m2 := FeedAll(codec, max, f, b).1;
      assert a + b == b && [] + m2 == m2;
    } else {
      assert (a + b)[1..] == a[1..] + b;
      var (f0, o) := Feed(codec, max, f, a[0]);
      FeedAllConcat(codec, max, f0, a[1..], b);
      var (f1, m1) := FeedAll(codec, max, f0, a[1..]);
      var m2 := FeedAll(codec, max, f1, b).1;
      assert ToSeq(o) + (m1 + m2) == (ToSeq(o) + m1) + m2;
    }
  }

  lemma FeedQuietly(codec: Codec, max: nat, f: Frag, e: Elem, es: seq<Elem>)
    requires Feed(codec, max, f, e).1 == None
    ensures FeedAll(codec, max, f, [e] + es) == FeedAll(codec, max, Feed(codec, max, f, e).0, es)
  {
    assert ([e] + es)[1..] == es;
    var ms := FeedAll(codec, max, Feed(codec, max, f, e).0, es).1;
    assert [] + ms == ms;
  }

  lemma FeedMiddle(codec: Codec, max: nat, f: Frag, part: seq<byte>, flags: u16)
    requires flags == 0 || flags == COMPRESSED
    requires |f.buf| + |part| <= max && (f.buf != [] ==> f.compressed == (flags == COMPRESSED))
    ensures Feed(codec, max, f, Elem(With(flags, MORE_FRAG), part)) == (Frag(f.buf + part, flags == COMPRESSED), None)
  {
  }

  /** A chunk of the message goes into the buffer, and the fragments of the rest go on from there. */
  lemma FeedFirst(codec: Codec, max: nat, f: Frag, rest: seq<byte>, flags: u16, chunk: nat)
    requires 0 < chunk < |rest| && (flags == 0 || flags == COMPRESSED) && |f.buf| + |rest| <= max
    requires f.buf != [] ==> f.compressed == (flags == COMPRESSED)
    ensures FeedAll(codec, max, f, Fragment(rest, flags, chunk))
         == FeedAll(codec, max, Frag(f.buf + rest[..chunk], flags == COMPRESSED), Fragment(rest[chunk..], flags, chunk))
  {
    var e := Elem(With(flags, MORE_FRAG), rest[..chunk]);
    FeedMiddle(codec, max, f, rest[..chunk], flags);
    FeedQuietly(codec, max, f, e, Fragment(rest[chunk..], flags, chunk));
  }

  /** With `f.buf` bytes of the message already there, the fragments of the rest complete it. */
  lemma {:induction false} FeedRest(codec: Codec, max: nat, f: Frag, rest: seq<byte>, flags: u16, chunk: nat)
    requires 0 < chunk && (flags == 0 || flags == COMPRESSED)
    requires rest != [] && |f.buf| + |rest| <= max
    requires f.buf != [] ==> f.compressed == (flags == COMPRESSED)
    ensures var (f2, ms) := FeedAll(codec, max, f, Fragment(rest, flags, chunk));
            f2.buf == [] && ms == ToSeq(Expand(codec, f.buf + rest, flags == COMPRESSED))
    decreases |rest|
  {
    if |rest| > chunk {
      var f1 := Frag(f.buf + rest[..chunk], flags == COMPRESSED);
      FeedRest(codec, max, f1, rest[chunk..], flags, chunk);
      assert f1.buf + rest[chunk..] == f.buf + rest;
      FeedFirst(codec, max, f, rest, flags, chunk);
    } else {
      FeedLast(codec, max, f, rest, flags);
    }
  }

  lemma FeedLast(codec: Codec, max: nat, f: Frag, rest: seq<byte>, flags: u16)
    requires flags == 0 || flags == COMPRESSED
    requires rest != [] && |f.buf| + |rest| <= max
    requires f.buf != [] ==> f.compressed == (flags == COMPRESSED)
    ensures var (f2, ms) := FeedAll(codec, max, f, [Elem(flags, rest)]);
            f2.buf == [] && ms == ToSeq(Expand(codec, f.buf + rest, flags == COMPRESSED))
  {
    var es := [Elem(flags, rest)];
    assert es[1..] == [];
    assert FeedAll(codec, max, Feed(codec, max, f, es[0]).0, es[1..]).1 == [];
    assert f.buf == [] ==> f.buf + rest == rest;
  }

  // ---------- whole message streams ----------

  /** A call of `potr_service_send` that returned OK. */
  datatype Sent = Sent(data: seq<byte>, compress: bool)

  predicate Valid(codec: Codec, max: nat, m: Sent) {
    0 < |m.data| <= max && Prepare(codec, m.data, m.compress).Some? && Prepare(codec, m.data, m.compress).value.0 != []
  }

  predicate AllValid(codec: Codec, max: nat, ms: seq<Sent>) {
    forall i :: 0 <= i < |ms| ==> Valid(codec, max, ms[i])
  }

  function ElemsOf(codec: Codec, chunk: nat, m: Sent): seq<Elem>
    requires 0 < chunk && Prepare(codec, m.data, m.compress).Some?
  {
    var (bytes, flags) := Prepare(codec, m.data, m.compress).value;
    Fragment(bytes, flags, chunk)
  }

  /** Everything the messages put into the send queue. */
  function Elements(codec: Codec, max: nat, chunk: nat, ms: seq<Sent>): seq<Elem>
    requires 0 < chunk && AllValid(codec, max, ms)
  {
    if ms == [] then [] else ElemsOf(codec, chunk, ms[0]) + Elements(codec, max, chunk, ms[1..])
  }

  function Datas(ms: seq<Sent>): seq<seq<byte>> {
    if ms == [] then [] else [ms[0].data] + Datas(ms[1..])
  }

  lemma OneMessage(codec: Codec, max: nat, chunk: nat, f: Frag, m: Sent)
    requires 0 < chunk && Lawful(codec) && Valid(codec, max, m) && f.buf == []
    ensures var (f2, out) := FeedAll(codec, max, f, ElemsOf(codec, chunk, m));
            f2.buf == [] && out == [m.data]
  {
    var (bytes, flags) := Prepare(codec, m.data, m.compress).value;
    FeedRest(codec, max, f, bytes, flags, chunk);
    assert f.buf + bytes == bytes;
  }

  /** Reassembly inverts fragmentation: feeding all elements gives back the messages, byte for byte. */
  lemma {:induction false} ReassemblyInverts(codec: Codec, max: nat, chunk: nat, f: Frag, ms: seq<Sent>)
    requires 0 < chunk && Lawful(codec) && AllValid(codec, max, ms) && f.buf == []
    ensures var (f2, out) := FeedAll(codec, max, f, Elements(codec, max, chunk, ms));
            f2.buf == [] && out == Datas(ms)
    decreases |ms|
  {
    if ms != [] {
      var first := ElemsOf(codec, chunk, ms[0]);
      OneMessage(codec, max, chunk, f, ms[0]);
      FeedAllConcat(codec, max, f, first, Elements(codec, max, chunk, ms[1..]));
      ReassemblyInverts(codec, max, chunk, FeedAll(codec, max, f, first).0, ms[1..]);
    }
  }

  /** Stopping anywhere in the element stream has delivered a prefix of the messages. */
  lemma PrefixOfMessages(codec: Codec, max: nat, chunk: nat, f: Frag, ms: seq<Sent>, seen: seq<Elem>)
    requires 0 < chunk && Lawful(codec) && AllValid(codec, max, ms) && f.buf == []
    requires seen <= Elements(codec, max, chunk, ms)
    ensures FeedAll(codec, max, f, seen).1 <= Datas(ms)
  {
    var all := Elements(codec, max, chunk, ms);
    FeedAllConcat(codec, max, f, seen, all[|seen|..]);
    assert seen + all[|seen|..] == all;
    ReassemblyInverts(codec, max, chunk, f, ms);
  }
}
