/** Putting the pieces in a row: calls of send, the queue, the send thread's batches, datagrams, the slot. */
module Pipeline {
  import opened SeqNum
  import opened Packets
  import opened Wire
  import opened Sessions
  import opened Traces
  import opened Fragments
  import opened Receiver
  import opened Outgoing
  import opened SendQueues
  import opened SendThreads
  import opened SendRuns
  import opened StreamInvariant
  import opened EndToEnd
  import ReceiverRuns

  predicate AllFound(l: Limits, bs: seq<Batch>) {
    AllLegal(l, bs) && forall i :: 0 <= i < |bs| ==> bs[i].found
  }

  lemma {:induction false} EncodedSize(es: seq<Entry>)
    requires AllSendable(Elems(es))
    ensures |Encode(Elems(es))| == TotalSize(es)
    decreases |es|
  {
    if es != [] {
      var n := |es| - 1;
      assert Elems(es) == Elems(es[..n]) + [es[n].elem];
      EncodedSize(es[..n]);
      EncodeAppend(Elems(es[..n]), es[n].elem);
    } else {
      assert Elems(es) == [];
    }
  }

  /** The encoded container of a batch; a batch of the send thread always leaves room for the tag. */
  function Packed(l: Limits, b: Batch): (packed: seq<byte>)
    requires LimitsOk(l) && Legal(l, b) && b.found
    ensures 0 < |packed| && |packed| + l.tag <= l.maxPayload
  {
    EncodedSize(b.entries);
    assert b.entries == b.entries[..|b.entries| - 1] + [b.entries[|b.entries| - 1]];
    Encode(Elems(b.entries))
  }

  /** The datagram that carries batch `k`. */
  function Datagram(l: Limits, o: Origin, cipher: Option<Cipher>, first: u32, bs: seq<Batch>, k: nat): seq<byte>
    requires LimitsOk(l) && l.tag == Overhead(cipher) && AllFound(l, bs) && k < |bs|
  {
    WireBytes(Outer(o, cipher, Number(first, k), Packed(l, bs[k])))
  }

  /** What the receiver makes of it. */
  function PlainAt(l: Limits, o: Origin, first: u32, bs: seq<Batch>, k: nat): Packet
    requires LimitsOk(l) && AllFound(l, bs) && k < |bs|
  {
    Plain(o, Number(first, k), Packed(l, bs[k]))
  }

  lemma DatagramReceived(l: Limits, o: Origin, cipher: Option<Cipher>, first: u32, bs: seq<Batch>, k: nat)
    requires LimitsOk(l) && l.tag == Overhead(cipher) && AllFound(l, bs) && k < |bs|
    requires EncodableOrigin(o) && (cipher.Some? ==> LawfulCipher(cipher.value))
    ensures Receive(cipher, Datagram(l, o, cipher, first, bs, k)) == Some(PlainAt(l, o, first, bs, k))
  {
    ReceiveInvertsSend(o, cipher, Number(first, k), Packed(l, bs[k]));
  }

  function StreamOf(l: Limits, o: Origin, first: u32, bs: seq<Batch>): (st: Stream)
    requires LimitsOk(l) && AllFound(l, bs)
    ensures StreamOk(st) && |st.packets| == |bs|
    ensures forall k :: 0 <= k < |bs| ==> st.packets[k] == PlainAt(l, o, first, bs, k)
  {
    var containers := seq(|bs|, k requires 0 <= k < |bs| => Elems(bs[k].entries));
    var packets := seq(|bs|, k requires 0 <= k < |bs| && LimitsOk(l) && AllFound(l, bs) =>
                               PlainAt(l, o, first, bs, k));
    var st := Stream(o, first, containers, packets);
    assert forall k :: 0 <= k < |bs| ==> |Packed(l, bs[k])| <= MAX_PAYLOAD && Legal(l, bs[k]) && CarriesAt(st, k);
    st
  }

  lemma {:induction false} FlatOfBatches(l: Limits, o: Origin, first: u32, bs: seq<Batch>, n: nat)
    requires LimitsOk(l) && AllFound(l, bs) && n <= |bs|
    ensures Flat(StreamOf(l, o, first, bs), n) == Elems(AllTaken(bs[..n]))
  {
    if n == 0 {
      assert Elems([]) == [];
    } else {
      FlatOfBatches(l, o, first, bs, n - 1);
      ElemsOfBatches(bs, n);
      assert StreamOf(l, o, first, bs).containers[n - 1] == Elems(bs[n - 1].entries);
    }
  }

  lemma ElemsOfBatches(bs: seq<Batch>, n: nat)
    requires 0 < n <= |bs|
    ensures Elems(AllTaken(bs[..n])) == Elems(AllTaken(bs[..n - 1])) + Elems(bs[n - 1].entries)
  {
    assert bs[..n] == bs[..n - 1] + [bs[n - 1]];
    TakenAppend(bs[..n - 1], bs[n - 1]);
    ElemsConcat(AllTaken(bs[..n - 1]), bs[n - 1].entries);
  }

  lemma ElemsConcat(a: seq<Entry>, b: seq<Entry>)
    ensures Elems(a + b) == Elems(a) + Elems(b)
  {
  }

  /** The packet is one of the sender's datagrams, parsed and authenticated, and not too old. */
  predicate FromWire(l: Limits, o: Origin, cipher: Option<Cipher>, first: u32, bs: seq<Batch>, n: int, size: nat, p: Packet)
    requires LimitsOk(l) && l.tag == Overhead(cipher) && AllFound(l, bs)
  {
    exists k :: 0 <= k < |bs| && n - (U32_MOD - size) <= k < n + U32_MOD
                && Receive(cipher, Datagram(l, o, cipher, first, bs, k)) == Some(p)
  }

  lemma WireIsStream(l: Limits, o: Origin, cipher: Option<Cipher>, first: u32, bs: seq<Batch>, n: int, size: nat, p: Packet)
    requires LimitsOk(l) && l.tag == Overhead(cipher) && AllFound(l, bs)
    requires EncodableOrigin(o) && (cipher.Some? ==> LawfulCipher(cipher.value))
    requires FromWire(l, o, cipher, first, bs, n, size, p)
    ensures FromSender(StreamOf(l, o, first, bs), n, size, p)
  {
    var k :| 0 <= k < |bs| && n - (U32_MOD - size) <= k < n + U32_MOD
             && Receive(cipher, Datagram(l, o, cipher, first, bs, k)) == Some(p);
    DatagramReceived(l, o, cipher, first, bs, k);
  }

  /** An input flagged DATA under the sender's session was taken from the wire. */
  predicate WireInput(l: Limits, o: Origin, cipher: Option<Cipher>, first: u32, bs: seq<Batch>, m: Mark, r: Slot, i: Input)
    requires LimitsOk(l) && l.tag == Overhead(cipher) && AllFound(l, bs)
  {
    i.Recv? && Has(i.p.hdr.flags, DATA) && SessionOf(i.p) == o.session ==>
      FromWire(l, o, cipher, first, bs, PopCount(r.trace) - m.pops, r.win.Size(), i.p)
  }

  lemma WireInputHonest(l: Limits, o: Origin, cipher: Option<Cipher>, first: u32, bs: seq<Batch>, m: Mark, r: Slot, i: Input)
    requires LimitsOk(l) && l.tag == Overhead(cipher) && AllFound(l, bs)
    requires EncodableOrigin(o) && (cipher.Some? ==> LawfulCipher(cipher.value))
    requires WireInput(l, o, cipher, first, bs, m, r, i)
    ensures Honest(StreamOf(l, o, first, bs), m, r, i)
  {
    if i.Recv? && Has(i.p.hdr.flags, DATA) && SessionOf(i.p) == o.session {
      WireIsStream(l, o, cipher, first, bs, PopCount(r.trace) - m.pops, r.win.Size(), i.p);
    }
  }

  /** So is every input after the opening. */
  predicate WireRun(cfg: Config, l: Limits, o: Origin, cipher: Option<Cipher>, first: u32, bs: seq<Batch>,
                    m: Mark, r1: Slot, inputs: seq<Input>)
    requires LimitsOk(l) && l.tag == Overhead(cipher) && AllFound(l, bs)
  {
    && (forall i :: 0 <= i < |inputs| ==> ValidInput(inputs[i]))
    && (forall i :: 0 <= i < |inputs| ==> WireInput(l, o, cipher, first, bs, m, Run(cfg, r1, inputs[..i]), inputs[i]))
  }

  lemma WireRunHonest(cfg: Config, l: Limits, o: Origin, cipher: Option<Cipher>, first: u32, bs: seq<Batch>,
                      m: Mark, r1: Slot, inputs: seq<Input>)
    requires LimitsOk(l) && l.tag == Overhead(cipher) && AllFound(l, bs)
    requires EncodableOrigin(o) && (cipher.Some? ==> LawfulCipher(cipher.value))
    requires WireRun(cfg, l, o, cipher, first, bs, m, r1, inputs)
    ensures HonestRun(cfg, StreamOf(l, o, first, bs), m, r1, inputs)
  {
    var st := StreamOf(l, o, first, bs);
    forall i | 0 <= i < |inputs|
      ensures Honest(st, m, Run(cfg, r1, inputs[..i]), inputs[i])
    {
      WireInputHonest(l, o, cipher, first, bs, m, Run(cfg, r1, inputs[..i]), inputs[i]);
    }
  }

  /** Everything about the sending side: limits, origin, cipher, first number, queue depth, the calls, the steps of
      caller and send thread, and the peer in question. */
  datatype Sending = Sending(l: Limits, o: Origin, cipher: Option<Cipher>, first: u32, codec: Codec, max: nat,
                             depth: nat, calls: seq<Call>, acts: seq<Act>, peer: u32)
  {
    ghost predicate Ok() {
      && LimitsOk(l) && l.tag == Overhead(cipher) && EncodableOrigin(o) && (cipher.Some? ==> LawfulCipher(cipher.value))
      && Lawful(codec) && CallsValid(codec, max, calls)
      && (l.multi || forall i :: 0 <= i < |calls| ==> calls[i].peer == peer)
      && Survives(peer, End().batches)
    }

    /** Queue and containers after the steps. */
    function End(): Sys
      requires LimitsOk(l) && CallsValid(codec, max, calls)
    {
      SysRun(l, Start(depth, CallEntries(codec, max, Chunk(l), calls)), acts)
    }

    /** The containers that went out to the peer. */
    function Containers(): seq<Batch>
      requires LimitsOk(l) && CallsValid(codec, max, calls)
    {
      Mine(peer, End().batches)
    }

    /** Everything was queued, packed, sent and completed. */
    predicate Finished()
      requires LimitsOk(l) && CallsValid(codec, max, calls)
    {
      End().todo == [] && End().q.done == |End().q.log|
    }
  }

  lemma ContainersFound(x: Sending)
    requires x.Ok()
    ensures AllFound(x.l, x.Containers())
  {
    PeerGetsItsElements(x.l, x.codec, x.max, x.depth, x.calls, x.acts, x.peer);
    MineLegal(x.l, x.peer, x.End().batches);
  }

  /** The stream the peer receives carries the elements of the messages sent to it. */
  lemma StreamOfCalls(x: Sending)
    requires x.Ok()
    ensures AllFound(x.l, x.Containers()) && AllValid(x.codec, x.max, MessagesFor(x.peer, x.calls))
    ensures var st := StreamOf(x.l, x.o, x.first, x.Containers());
            var due := Elements(x.codec, x.max, Chunk(x.l), MessagesFor(x.peer, x.calls));
            Flat(st, |st.containers|) <= due && (x.Finished() ==> Flat(st, |st.containers|) == due)
  {
    ContainersFound(x);
    PeerGetsItsElements(x.l, x.codec, x.max, x.depth, x.calls, x.acts, x.peer);
    var bs := x.Containers();
    FlatOfBatches(x.l, x.o, x.first, bs, |bs|);
    assert bs[..|bs|] == bs;
  }

  /** The peer's slot: the stream starts in `s` with `opening`, and `inputs` follow. */
  ghost predicate Receiving(cfg: Config, x: Sending, s: Slot, opening: seq<Input>, inputs: seq<Input>)
    requires LimitsOk(x.l) && x.l.tag == Overhead(x.cipher) && CallsValid(x.codec, x.max, x.calls)
    requires AllFound(x.l, x.Containers())
  {
    && cfg.codec == x.codec && cfg.maxMessage == x.max && ReceiverRuns.ValidInputs(opening)
    && Opens(cfg, StreamOf(x.l, x.o, x.first, x.Containers()), s, opening)
    && var r1 := Run(cfg, s, opening);
       WireRun(cfg, x.l, x.o, x.cipher, x.first, x.Containers(), MarkAt(s, r1), r1, inputs)
  }

  /** From call to callback: messages sent in any order to any peers, queued while the send thread takes them in
      containers of its choice, in every interleaving; numbered, optionally encrypted, carried by an unreliable
      network to a slot in which the stream starts; as long as that slot stays connected in one session, what it
      delivers is a prefix of the messages sent to it. (`AllFound` follows from `Ok`, by `ContainersFound`.) */
  lemma SentArrives(cfg: Config, x: Sending, s: Slot, opening: seq<Input>, inputs: seq<Input>)
    requires x.Ok() && AllFound(x.l, x.Containers()) && Receiving(cfg, x, s, opening, inputs)
    ensures var r1 := Run(cfg, s, opening);
            var r := Run(cfg, r1, inputs);
            Losses(r.trace) == Losses(r1.trace) ==>
              && Messages(s.trace) <= Messages(r.trace)
              && Messages(r.trace)[|Messages(s.trace)|..] <= Datas(MessagesFor(x.peer, x.calls))
  {
    var st := StreamOf(x.l, x.o, x.first, x.Containers());
    StreamOfCalls(x);
    var r1 := Run(cfg, s, opening);
    WireRunHonest(cfg, x.l, x.o, x.cipher, x.first, x.Containers(), MarkAt(s, r1), r1, inputs);
    DeliveredIsPrefixOfSent(cfg, st, Chunk(x.l), MessagesFor(x.peer, x.calls), s, opening, inputs);
  }

  /** And when all of it was sent and the FIN after the last packet takes effect on a connection calm until then,
      everything sent to the peer has been delivered. */
  lemma ClosedComplete(cfg: Config, x: Sending, s: Slot, opening: seq<Input>, inputs: seq<Input>)
    requires x.Ok() && x.Finished() && AllFound(x.l, x.Containers()) && Receiving(cfg, x, s, opening, inputs)
    ensures var r1 := Run(cfg, s, opening);
            var sent := |x.Containers()|;
            var fin := AtFin(MarkAt(s, r1), Run(cfg, r1, inputs).trace);
            && fin.Some? && !BareFin(fin.value.before) && fin.value.last.target == Number(x.first, sent)
            && sent < PopCount(fin.value.before) - PopCount(s.trace) + U32_MOD
            ==> Messages(fin.value.before) == Messages(s.trace) + Datas(MessagesFor(x.peer, x.calls))
  {
    var st := StreamOf(x.l, x.o, x.first, x.Containers());
    StreamOfCalls(x);
    var r1 := Run(cfg, s, opening);
    WireRunHonest(cfg, x.l, x.o, x.cipher, x.first, x.Containers(), MarkAt(s, r1), r1, inputs);
    NothingLostAtFin(cfg, st, Chunk(x.l), MessagesFor(x.peer, x.calls), s, opening, inputs);
  }
}
