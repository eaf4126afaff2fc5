/** The sending side of one destination: flushing packed containers through the send window and answering
    NACKs (prod/libsrc/porter/thread/potr_send_thread.c `flush_packed`, thread_recv_window.c
    `slot_retransmit_or_reject` and `thread_recv_window_on_nack`). UDP only: TCP does not fill the window. */
module Senders {
  import opened SeqNum
  import opened Packets
  import opened Windows
  import opened WindowRuns
  import opened Wire
  import opened Sessions
  import opened Outgoing
  import opened NackFilters

  datatype Reply = Ignored | Resent(bytes: seq<byte>) | Rejected(number: u32)

  /** What a NACK that is not a repetition is answered with, given everything sent so far. */
  ghost predicate Proper(first: u32, size: nat, sent: seq<Packet>, wire: seq<seq<byte>>, number: u32, reply: Reply)
    requires |wire| == |sent|
  {
    && (forall k :: Recent(size, |sent|, k) && Number(first, k) == number ==> reply == Resent(wire[k]))
    && ((forall k :: Recent(size, |sent|, k) ==> Number(first, k) != number) ==> reply == Rejected(number))
  }

  /** Packet `k` has the number `first + k` and went out as `wire[k]`. */
  predicate Recorded(first: u32, sent: seq<Packet>, wire: seq<seq<byte>>) {
    && |wire| == |sent|
    && forall k :: 0 <= k < |sent| ==> wire[k] == WireBytes(sent[k]) && sent[k].hdr.number == Number(first, k)
  }

  /** The window is the view of what was sent. */
  predicate Logged(w: Win, first: u32, size: nat, sent: seq<Packet>, wire: seq<seq<byte>>) {
    SendView(w, first, size, sent) && Recorded(first, sent, wire)
  }

  lemma LoggedPush(w: Win, first: u32, size: nat, sent: seq<Packet>, wire: seq<seq<byte>>, p: Packet)
    requires Logged(w, first, size, sent, wire) && p.hdr.number == Number(first, |sent|)
    ensures SendOk(w) && Logged(SendPush(w, p), first, size, sent + [p], wire + [WireBytes(p)])
  {
    PushExtendsView(w, first, size, sent, p);
  }

  class Sender {
    const origin: Origin
    const cipher: Option<Cipher>
    const raw: bool
    const win: Window
    const filter: NackFilter
    var hasData: bool
    ghost const first: u32
    ghost var sent: seq<Packet>      // every packet ever numbered
    ghost var wire: seq<seq<byte>>   // the bytes first put on the wire for it

    ghost predicate Valid()
      reads this, win, win.hdrs, win.valid, win.pool
    {
      && win.Valid() && Logged(win.View(), first, win.size, sent, wire)
      && win.cap <= MAX_PAYLOAD && (cipher.Some? ==> LawfulCipher(cipher.value))
      && hasData == (sent != [])
    }

    constructor (origin: Origin, cipher: Option<Cipher>, raw: bool, first: u32, size: nat, cap: nat)
      requires 0 < size < U16_MOD && cap <= MAX_PAYLOAD && (cipher.Some? ==> LawfulCipher(cipher.value))
      ensures Valid() && sent == [] && this.first == first
      ensures fresh(win) && fresh(win.hdrs) && fresh(win.valid) && fresh(win.pool)
    {
      this.origin, this.cipher, this.raw, this.first := origin, cipher, raw, first;
      win := new Window(first, size, cap);
      filter := new NackFilter();
      hasData, sent, wire := false, [], [];
    }

    /** Number a packed container, keep it for retransmission and hand out its wire bytes. An empty container
        is refused. */
    method Flush(packed: seq<byte>) returns (r: Option<seq<byte>>)
      requires Valid() && |packed| + Overhead(cipher) <= win.cap
      modifies this, win, win.hdrs, win.valid, win.pool
      ensures Valid() && (r.None? <==> packed == [])
      ensures r.None? ==> sent == old(sent) && wire == old(wire)
      ensures r.Some? ==> wire == old(wire) + [r.value]
      ensures r.Some? ==> sent == old(sent) + [Outer(origin, cipher, Number(first, |old(sent)|), packed)]
    {
      if packed == [] {
        return None;
      }
      var p := Outer(origin, cipher, win.nextSeq, packed);
      Keep(p);
      r := Some(WireBytes(p));
    }

    /** Put a packet with the next number into the window. */
    method Keep(p: Packet)
      requires Valid() && p.hdr.number == Number(first, |sent|) && p.Sized() && |p.payload| <= win.cap
      modifies this, win, win.hdrs, win.valid, win.pool
      ensures Valid() && sent == old(sent) + [p] && wire == old(wire) + [WireBytes(p)]
    {
      LoggedPush(win.View(), first, win.size, sent, wire, p);
      win.SendPushPacket(p);
      sent, wire, hasData := sent + [p], wire + [WireBytes(p)], true;
    }

    /** Retransmission identity: a number still in the window is answered with exactly the bytes first sent for
        it, whatever was sent since; a number evicted or never assigned is answered with REJECT. */
    method Retransmit(number: u32) returns (reply: Reply)
      requires Valid()
      ensures Proper(first, win.size, sent, wire, number, reply)
    {
      ViewDistance(win.View(), first, win.size, sent);
      var p := win.SendGetPacket(number);
      forall k | Recent(win.size, |sent|, k) && Number(first, k) == number
        ensures p == Some(sent[k])
      {
        RecentIsHeld(win.View(), first, win.size, sent, k);
      }
      if p.Some? {
        ghost var k := HeldIsRecent(win.View(), first, win.size, sent, number);
        reply := Resent(WireBytes(p.value));
      } else {
        reply := Rejected(number);
      }
    }

    method OnNack(number: u32, now: nat) returns (reply: Reply)
      requires Valid() && filter.Valid()
      modifies filter, filter.buf
      ensures Valid() && filter.Valid()
      ensures raw ==> reply.Ignored? && filter.history == old(filter.history)
      ensures !raw ==> filter.history == Answer(old(filter.history), number, now)
      ensures !raw && Repeats(old(filter.history), number, now) ==> reply.Ignored?
      ensures !raw && !Repeats(old(filter.history), number, now) ==> Proper(first, win.size, sent, wire, number, reply)
    {
      if raw {
        return Ignored;
      }
      var dup := filter.IsDuplicate(number, now);
      if dup {
        return Ignored;
      }
      reply := Retransmit(number);
    }

    /** The FIN that closes the session: with a target exactly when DATA was sent, and the target is the number
        after the last one. */
    method FinTarget() returns (target: Option<u32>)
      requires Valid()
      ensures target == if sent == [] then None else Some(Number(first, |sent|))
    {
      if hasData {
        return Some(win.nextSeq);
      }
      target := None;
    }
  }
}
