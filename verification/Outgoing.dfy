/** Building outer DATA packets, and opening them again
    (prod/libsrc/porter/thread/potr_send_thread.c, thread_recv_validate.c). */
module Outgoing {
  import opened SeqNum
  import opened Packets
  import opened Wire
  import opened Sessions

  /** AES-GCM under the service key: arguments are nonce, authenticated header and text. */
  datatype Cipher = Cipher(seal: (seq<byte>, seq<byte>, seq<byte>) -> seq<byte>,
                           open: (seq<byte>, seq<byte>, seq<byte>) -> Option<seq<byte>>)

  ghost predicate LawfulCipher(c: Cipher) {
    forall nonce, aad, text ::
      |c.seal(nonce, aad, text)| == |text| + TAG_SIZE && c.open(nonce, aad, c.seal(nonce, aad, text)) == Some(text)
  }

  function Overhead(cipher: Option<Cipher>): nat {
    if cipher.Some? then TAG_SIZE else 0
  }

  /** Service and session of the sender, as every header carries them. */
  datatype Origin = Origin(serviceId: int, session: Session)

  predicate EncodableOrigin(o: Origin) {
    && -0x8000_0000_0000_0000 <= o.serviceId < 0x8000_0000_0000_0000
    && -0x8000_0000_0000_0000 <= o.session.sec < 0x8000_0000_0000_0000
    && -0x8000_0000 <= o.session.nsec < 0x8000_0000
  }

  function DataHeader(o: Origin, number: u32, flags: u16, len: u16): Header {
    Header(o.serviceId, o.session.sec, o.session.id, o.session.nsec, number, 0, flags, len, PROTOCOL_VERSION)
  }

  function Nonce(h: Header): seq<byte> {
    Be32(h.sessionId) + Be16(h.flags) + Be32(h.number) + [0, 0]
  }

  predicate Packable(cipher: Option<Cipher>, packed: seq<byte>) {
    0 < |packed| && |packed| + Overhead(cipher) <= MAX_PAYLOAD
  }

  /** The packet as the receiver's window gets to see it. */
  function Plain(o: Origin, number: u32, packed: seq<byte>): Packet
    requires |packed| <= MAX_PAYLOAD
  {
    Packet(DataHeader(o, number, DATA, |packed|), packed)
  }

  /** The packet as it goes into the send window and onto the wire. */
  function Outer(o: Origin, cipher: Option<Cipher>, number: u32, packed: seq<byte>): Packet
    requires Packable(cipher, packed)
  {
    match cipher
    case None => Plain(o, number, packed)
    case Some(c) =>
      var h := DataHeader(o, number, With(DATA, ENCRYPTED), |packed| + TAG_SIZE);
      Packet(h, c.seal(Nonce(h), HeaderBytes(h), packed))
  }

  /** `thread_recv_authenticate_packet`; `None` drops the packet. The authenticated header is the one received. */
  function Authenticate(cipher: Option<Cipher>, p: Packet): Option<Packet> {
    var h := p.hdr;
    if !Has(h.flags, ENCRYPTED) then
      if cipher.None? then Some(p) else None
    else if cipher.None? then None
    else if Has(h.flags, DATA) || Has(h.flags, PING) then
      match cipher.value.open(Nonce(h), HeaderBytes(h), p.payload)
      case None => None
      case Some(text) =>
        if |text| < U16_MOD then Some(Packet(h.(flags := h.flags - ENCRYPTED, len := |text|), text)) else None
    else if h.len != TAG_SIZE then None
    else
      var acked := Has(h.flags, NACK) || Has(h.flags, REJECT) || Has(h.flags, FIN_ACK);
      var nonce := Nonce(if acked then h.(number := h.ack) else h);
      if cipher.value.open(nonce, HeaderBytes(h), p.payload).None? then None
      else Some(Packet(h.(flags := h.flags - ENCRYPTED, len := 0), []))
  }

  /** What reaches the dispatcher from a datagram. */
  function Receive(cipher: Option<Cipher>, datagram: seq<byte>): Option<Packet> {
    var p := Parse(datagram);
    if p.None? then None else Authenticate(cipher, p.value)
  }

  /** Receiving a datagram that was sent gives back the packed container under its number, whether or not it
      was encrypted on the way. */
  lemma ReceiveInvertsSend(o: Origin, cipher: Option<Cipher>, number: u32, packed: seq<byte>)
    requires EncodableOrigin(o) && Packable(cipher, packed) && (cipher.Some? ==> LawfulCipher(cipher.value))
    ensures Receive(cipher, WireBytes(Outer(o, cipher, number, packed))) == Some(Plain(o, number, packed))
  {
    var p := Outer(o, cipher, number, packed);
    assert WireBytes(p) + [] == WireBytes(p);
    ParseInvertsBuild(p, []);
  }
}

/** Suppressing repeated NACKs (prod/libsrc/porter/thread/thread_recv_window.c, `nack_is_duplicate`). */
module NackFilters {
  import opened SeqNum

  const SLOTS := 8
  const FRESH_MS := 200
  const U64_MOD := 0x1_0000_0000_0000_0000

  datatype Seen = Seen(number: u32, at: nat)

  /** An entry that suppresses a NACK for this number: non-zero time, younger than 200 ms. */
  predicate Matches(e: Seen, number: u32, now: nat) {
    e.number == number && e.at != 0 && (now - e.at) % U64_MOD < FRESH_MS
  }

  /** One of the last eight NACKs answered suppresses this one. */
  predicate Repeats(history: seq<Seen>, number: u32, now: nat) {
    exists k :: 0 <= k < |history| && |history| - SLOTS <= k && Matches(history[k], number, now)
  }

  function Answer(history: seq<Seen>, number: u32, now: nat): seq<Seen> {
    if Repeats(history, number, now) then history else history + [Seen(number, now)]
  }

  function AnswerAll(nacks: seq<Seen>): seq<Seen> {
    if nacks == [] then []
    else
      var n := |nacks| - 1;
      Answer(AnswerAll(nacks[..n]), nacks[n].number, nacks[n].at)
  }

  predicate Monotone(nacks: seq<Seen>) {
    forall i, j :: 0 <= i <= j < |nacks| ==> nacks[i].at <= nacks[j].at
  }

  /** Two NACKs for the same number answered within 200 ms have at least eight other answered NACKs between
      them, unless the first was answered at clock reading zero. */
  predicate Spaced(history: seq<Seen>) {
    forall i, j | 0 <= i < j < |history| && history[i].number == history[j].number ::
      history[i].at != 0 && history[j].at - history[i].at < FRESH_MS ==> j - i - 1 >= SLOTS
  }

  predicate Before(history: seq<Seen>, now: nat) {
    forall k :: 0 <= k < |history| ==> history[k].at <= now
  }

  lemma AnswerSpaced(h: seq<Seen>, number: u32, now: nat)
    requires Spaced(h) && Before(h, now)
    ensures Spaced(Answer(h, number, now)) && Before(Answer(h, number, now), now)
  {
    if !Repeats(h, number, now) {
      forall i | 0 <= i < |h| && h[i].number == number && h[i].at != 0 && now - h[i].at < FRESH_MS
        ensures |h| - i - 1 >= SLOTS
      {
        assert Matches(h[i], number, now);
      }
    }
  }

  /** In every run with a clock that does not go back, the NACKs answered are spaced. */
  lemma {:induction false} AnswersSpaced(nacks: seq<Seen>)
    requires Monotone(nacks)
    ensures Spaced(AnswerAll(nacks))
    ensures nacks != [] ==> Before(AnswerAll(nacks), nacks[|nacks| - 1].at)
  {
    if nacks != [] {
      var n := |nacks| - 1;
      AnswersSpaced(nacks[..n]);
      if n > 0 {
        assert nacks[..n][n - 1] == nacks[n - 1];
      }
      AnswerSpaced(AnswerAll(nacks[..n]), nacks[n].number, nacks[n].at);
    }
  }

  /** The exception is exact: when one of the last eight answers was for this number, less than 200 ms ago, a NACK
      for it is suppressed if and only if that answer was not given at clock reading zero, which marks an empty
      entry. */
  lemma ZeroReadingForgotten(h: seq<Seen>, k: nat, now: nat)
    requires k < |h| && |h| - SLOTS <= k
    requires forall j :: 0 <= j < |h| && |h| - SLOTS <= j && h[j].number == h[k].number ==> j == k
    requires h[k].at <= now < h[k].at + FRESH_MS
    ensures Repeats(h, h[k].number, now) <==> h[k].at != 0
    ensures Answer(h, h[k].number, now) == if h[k].at != 0 then h else h + [Seen(h[k].number, now)]
  {
    if h[k].at != 0 {
      assert Matches(h[k], h[k].number, now);
    }
  }

  /** The ring of eight entries. */
  class NackFilter {
    const buf: array<Seen>
    var next: nat
    ghost var history: seq<Seen>

    ghost predicate Valid()
      reads this, buf
    {
      && buf.Length == SLOTS && next == |history| % SLOTS
      && (forall k :: 0 <= k < |history| && |history| - SLOTS <= k ==> buf[k % SLOTS] == history[k])
      && (forall i :: |history| <= i < SLOTS ==> buf[i].at == 0)
    }

    constructor ()
      ensures Valid() && history == [] && fresh(buf)
    {
      buf := new Seen[SLOTS](_ => Seen(0, 0));
      next, history := 0, [];
    }

    method IsDuplicate(number: u32, now: nat) returns (dup: bool)
      requires Valid()
      modifies this, buf
      ensures Valid() && dup == Repeats(old(history), number, now)
      ensures history == Answer(old(history), number, now)
    {
      for i := 0 to SLOTS
        invariant forall j :: 0 <= j < i ==> !Matches(buf[j], number, now)
        invariant Valid() && history == old(history) && buf[..] == old(buf[..])
      {
        if Matches(buf[i], number, now) {
          ghost var k := Newest(|history|, i);
          assert history[k] == buf[i];
          return true;
        }
      }
      assert !Repeats(history, number, now);
      Record(Seen(number, now));
      dup := false;
    }

    method Record(e: Seen)
      requires Valid()
      modifies this, buf
      ensures Valid() && history == old(history) + [e]
    {
      ghost var n := |history|;
      forall k | n - SLOTS < k < n
        ensures k % SLOTS != n % SLOTS
      {
        Apart(k, n);
      }
      buf[next] := e;
      next := (next + 1) % SLOTS;
      history := history + [e];
      assert next == (n + 1) % SLOTS;
    }
  }

  lemma Apart(k: int, n: int)
    requires n - SLOTS < k < n
    ensures k % SLOTS != n % SLOTS
  {
    assert n == SLOTS * (n / SLOTS) + n % SLOTS && k == SLOTS * (k / SLOTS) + k % SLOTS;
  }

  /** The index in the history that ring slot `i` holds. */
  ghost function Newest(n: nat, i: nat): (k: int)
    requires i < SLOTS
    ensures k < n && n - SLOTS <= k && k % SLOTS == i
    ensures i < n || n >= SLOTS ==> 0 <= k
  {
    n - 1 - (n - 1 - i) % SLOTS
  }
}
