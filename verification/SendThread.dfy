/** From messages to packed containers: the fragmentation loop of send
    (prod/libsrc/porter/api/potr_service_send.c) and the packing loops of the send thread
    (prod/libsrc/porter/thread/potr_send_thread.c). */
module SendThreads {
  import opened SeqNum
  import opened Wire
  import opened Fragments
  import opened SendQueues

  /** `max_payload`, bytes an authentication tag takes, and whether the queue is shared by N:1 peers. */
  datatype Limits = Limits(maxPayload: nat, tag: nat, multi: bool)

  /** What `potr_service_open` enforces. */
  predicate LimitsOk(l: Limits) {
    64 <= l.maxPayload <= MAX_PAYLOAD && (l.tag == 0 || l.tag == TAG_SIZE)
  }

  /** Payload bytes per fragment. */
  function Chunk(l: Limits): nat
    requires LimitsOk(l)
  {
    l.maxPayload - ELEM_HDR_SIZE - l.tag
  }

  predicate Fitting(l: Limits, e: Entry)
    requires LimitsOk(l)
  {
    |e.elem.payload| <= Chunk(l)
  }

  function EntriesOf(peer: u32, es: seq<Elem>): (r: seq<Entry>)
    ensures |r| == |es| && forall i :: 0 <= i < |es| ==> r[i] == Entry(peer, es[i])
  {
    seq(|es|, i requires 0 <= i < |es| => Entry(peer, es[i]))
  }

  /** The next element of the loop below is the head of the fragments that remain. */
  lemma NextFragment(rest: seq<byte>, flags: u16, chunk: nat, all: seq<Elem>, n: nat)
    requires 0 < chunk && (flags == 0 || flags == COMPRESSED) && rest != []
    requires n <= |all| && all[n..] == Fragment(rest, flags, chunk)
    ensures var size := if |rest| > chunk then chunk else |rest|;
            var e := Elem(if |rest| > size then With(flags, MORE_FRAG) else flags, rest[..size]);
            n < |all| && all[n] == e && all[n + 1..] == Fragment(rest[size..], flags, chunk)
            && all[..n + 1] == all[..n] + [e]
  {
    assert rest[..|rest|] == rest && rest[|rest|..] == [];
    var size := if |rest| > chunk then chunk else |rest|;
    var tail := Fragment(rest[size..], flags, chunk);
    assert all[n..] == [all[n..][0]] + tail;
    assert all[n] == all[n..][0] && all[n + 1..] == all[n..][1..];
  }

  lemma EntriesAppend(peer: u32, es: seq<Elem>, e: Elem)
    ensures EntriesOf(peer, es + [e]) == EntriesOf(peer, es) + [Entry(peer, e)]
  {
  }

  /** Some, but not all, of the elements were added to the log. */
  predicate CutShort(log: seq<Entry>, was: seq<Entry>, peer: u32, es: seq<Elem>) {
    exists n :: 0 <= n < |es| && log == was + EntriesOf(peer, es[..n])
  }

  /** `wait_drained`: returns once everything queued has been completed. The pops and completions in the loop are
      those of the send thread. */
  method WaitDrained(q: SendQueue)
    requires q.Valid()
    modifies q
    ensures q.Valid() && q.log == old(q.log) && q.View().done == q.View().popped == |q.log|
  {
    while q.count > 0 || q.inflight > 0
      invariant q.Valid() && q.log == old(q.log)
      decreases 2 * q.count + q.inflight
    {
      if q.inflight > 0 {
        q.CompleteOne();
      } else {
        var e := q.PopEntry();
      }
    }
  }

  /** `send_to_peer`: cut the bytes into fragments and queue them in order. A full queue that is not drained any
      more (the send thread has stopped) cancels the call, leaving the fragments queued so far. A blocking call
      returns only when everything queued has been completed. */
  method SendToPeer(q: SendQueue, l: Limits, peer: u32, bytes: seq<byte>, flags: u16, blocking: bool) returns (ok: bool)
    requires q.Valid() && LimitsOk(l) && (flags == 0 || flags == COMPRESSED)
    modifies q, q.entries
    ensures q.Valid()
    ensures !blocking ==> q.View().popped == old(q.View().popped) && q.View().done == old(q.View().done)
    ensures blocking && ok ==> q.View().done == |q.log|
    ensures ok ==> q.log == old(q.log) + EntriesOf(peer, Fragment(bytes, flags, Chunk(l)))
    ensures !ok ==> CutShort(q.log, old(q.log), peer, Fragment(bytes, flags, Chunk(l)))
  {
    if blocking {
      WaitDrained(q);
    }
    ok := PushFragments(q, l, peer, bytes, flags);
    if blocking && ok {
      WaitDrained(q);
    }
  }

  /** The log has grown by the first `n` of the elements, and `rest` is what the others are made of. */
  predicate Pushing(log: seq<Entry>, was: seq<Entry>, peer: u32, all: seq<Elem>, n: nat, rest: seq<byte>, flags: u16, chunk: nat)
    requires 0 < chunk && (flags == 0 || flags == COMPRESSED)
  {
    n <= |all| && log == was + EntriesOf(peer, all[..n]) && all[n..] == Fragment(rest, flags, chunk)
  }

  lemma PushedOne(log: seq<Entry>, was: seq<Entry>, peer: u32, all: seq<Elem>, n: nat, rest: seq<byte>, flags: u16,
                  chunk: nat, size: nat, e: Elem)
    requires 0 < chunk && (flags == 0 || flags == COMPRESSED) && rest != []
    requires Pushing(log, was, peer, all, n, rest, flags, chunk) && size == (if |rest| > chunk then chunk else |rest|)
    requires e == Elem(if |rest| > size then With(flags, MORE_FRAG) else flags, rest[..size])
    ensures Pushing(log + [Entry(peer, e)], was, peer, all, n + 1, rest[size..], flags, chunk)
    ensures CutShort(log, was, peer, all)
  {
    NextFragment(rest, flags, chunk, all, n);
    EntriesAppend(peer, all[..n], e);
    assert was + EntriesOf(peer, all[..n]) + [Entry(peer, e)] == was + (EntriesOf(peer, all[..n]) + [Entry(peer, e)]);
  }

  method PushFragments(q: SendQueue, l: Limits, peer: u32, bytes: seq<byte>, flags: u16) returns (ok: bool)
    requires q.Valid() && LimitsOk(l) && (flags == 0 || flags == COMPRESSED)
    modifies q, q.entries
    ensures q.Valid() && q.View().popped == old(q.View().popped) && q.View().done == old(q.View().done)
    ensures ok ==> q.log == old(q.log) + EntriesOf(peer, Fragment(bytes, flags, Chunk(l)))
    ensures !ok ==> CutShort(q.log, old(q.log), peer, Fragment(bytes, flags, Chunk(l)))
  {
    var chunk := Chunk(l);
    ghost var all := Fragment(bytes, flags, chunk);
    var rest := bytes;
    ghost var n := 0;
    assert all[0..] == all && q.log == old(q.log) + EntriesOf(peer, all[..0]);
    while |rest| > 0
      invariant q.Valid() && q.View().popped == old(q.View().popped) && q.View().done == old(q.View().done)
      invariant Pushing(q.log, old(q.log), peer, all, n, rest, flags, chunk)
      decreases |rest|
    {
      var size := if |rest| > chunk then chunk else |rest|;
      var e := Elem(if |rest| > size then With(flags, MORE_FRAG) else flags, rest[..size]);
      PushedOne(q.log, old(q.log), peer, all, n, rest, flags, chunk, size, e);
      ok := q.PushEntry(Entry(peer, e));
      if !ok {
        return;
      }
      rest := rest[size..];
      n := n + 1;
    }
    assert all[..n] == all;
    ok := true;
  }

  datatype SendResult = SentOk | InvalidArgument | CompressFailed | Canceled

  /** `potr_service_send` to one peer that is connected: refuse a length out of range, compress the message if that
      is asked for and shrinks it, and queue its fragments. */
  method ServiceSend(q: SendQueue, l: Limits, codec: Codec, max: nat, peer: u32, m: Sent, blocking: bool)
      returns (r: SendResult)
    requires q.Valid() && LimitsOk(l)
    modifies q, q.entries
    ensures q.Valid()
    ensures r.InvalidArgument? <==> !(0 < |m.data| <= max)
    ensures r.CompressFailed? <==> 0 < |m.data| <= max && Prepare(codec, m.data, m.compress).None?
    ensures r.InvalidArgument? || r.CompressFailed? ==> q.log == old(q.log)
    ensures r.SentOk? ==> q.log == old(q.log) + EntriesOf(peer, ElemsOf(codec, Chunk(l), m))
    ensures r.Canceled? ==> CutShort(q.log, old(q.log), peer, ElemsOf(codec, Chunk(l), m))
  {
    if |m.data| == 0 || |m.data| > max {
      return InvalidArgument;
    }
    var bytes, flags := m.data, 0;
    if m.compress {
      var z := codec.compress(m.data);
      if z.None? {
        return CompressFailed;
      }
      if |z.value| < |m.data| {
        bytes, flags := z.value, COMPRESSED;
      }
    }
    assert Prepare(codec, m.data, m.compress) == Some((bytes, flags));
    var ok := SendToPeer(q, l, peer, bytes, flags, blocking);
    r := if ok then SentOk else Canceled;
  }

  // ---------- packing ----------

  function Elems(es: seq<Entry>): (r: seq<Elem>)
    ensures |r| == |es| && forall i :: 0 <= i < |es| ==> r[i] == es[i].elem
  {
    seq(|es|, i requires 0 <= i < |es| => es[i].elem)
  }

  function TotalSize(es: seq<Entry>): nat {
    if es == [] then 0 else TotalSize(es[..|es| - 1]) + es[|es| - 1].elem.Size()
  }

  /** What may travel together: entries of one peer, with their headers and tag within `max_payload`, and a
      fragment that is not the last of its message only on its own. */
  predicate Container(l: Limits, es: seq<Entry>) {
    && es != []
    && (l.multi ==> forall i :: 0 <= i < |es| ==> es[i].peer == es[0].peer)
    && TotalSize(es) + l.tag <= l.maxPayload
    && (|es| > 1 ==> forall i :: 0 <= i < |es| ==> !Has(es[i].elem.flags, MORE_FRAG))
    && AllSendable(Elems(es))
  }

  /** `append_payload_elem`. */
  method AppendElem(buf: array<byte>, len: nat, e: Elem) returns (newLen: nat)
    requires e.Sendable() && len + e.Size() <= buf.Length
    modifies buf
    ensures newLen == len + e.Size() && buf[..newLen] == old(buf[..len]) + EncodeElem(e)
  {
    var b := EncodeElem(e);
    newLen := len + e.Size();
    forall k | 0 <= k < |b| {
      buf[len + k] := b[k];
    }
    assert buf[..newLen] == buf[..len] + buf[len..newLen];
  }

  lemma {:induction false} EncodeAppend(es: seq<Elem>, e: Elem)
    requires AllSendable(es) && e.Sendable()
    ensures AllSendable(es + [e]) && Encode(es + [e]) == Encode(es) + EncodeElem(e)
    decreases |es|
  {
    if es == [] {
      assert [e][1..] == [] && Encode([]) == [];
    } else {
      assert (es + [e])[1..] == es[1..] + [e];
      EncodeAppend(es[1..], e);
    }
  }

  ghost predicate PackedInto(l: Limits, es: seq<Entry>, buf: array<byte>, len: nat)
    reads buf
  {
    Container(l, es) && len == TotalSize(es) <= buf.Length && buf[..len] == Encode(Elems(es))
  }

  lemma {:induction false} ContainerAppend(l: Limits, es: seq<Entry>, e: Entry)
    requires Container(l, es) && (forall i :: 0 <= i < |es| ==> !Has(es[i].elem.flags, MORE_FRAG))
    requires e.elem.Sendable() && !Has(e.elem.flags, MORE_FRAG) && (l.multi ==> e.peer == es[0].peer)
    requires TotalSize(es) + e.elem.Size() + l.tag <= l.maxPayload
    ensures Container(l, es + [e]) && TotalSize(es + [e]) == TotalSize(es) + e.elem.Size()
    ensures Encode(Elems(es + [e])) == Encode(Elems(es)) + EncodeElem(e.elem)
  {
    assert (es + [e])[..|es|] == es && Elems(es + [e]) == Elems(es) + [e.elem];
    EncodeAppend(Elems(es), e.elem);
  }

  /** One turn of the packing loop: the next entry is popped and appended when it may travel along. */
  method PackNext(q: SendQueue, l: Limits, buf: array<byte>, len: nat, first: Entry, ghost es: seq<Entry>)
      returns (more: Option<Entry>, newLen: nat)
    requires q.Valid() && LimitsOk(l) && l.maxPayload <= buf.Length && AllFitting(l, q.log)
    requires PackedInto(l, es, buf, len) && es[0] == first && NoneMore(es)
    modifies q, buf
    ensures q.Valid() && q.log == old(q.log) && q.View().done == old(q.View().done)
    ensures more.None? ==> q.View() == old(q.View()) && newLen == len && PackedInto(l, es, buf, len)
    ensures more.Some? ==>
              && q.View().popped == old(q.View().popped) + 1 <= |q.log| && more.value == q.log[old(q.View().popped)]
              && PackedInto(l, es + [more.value], buf, newLen) && !Has(more.value.elem.flags, MORE_FRAG)
  {
    var next := q.Peek();
    if next.None? || (l.multi && next.value.peer != first.peer) || Has(next.value.elem.flags, MORE_FRAG)
       || len + next.value.elem.Size() > l.maxPayload - l.tag {
      return None, len;
    }
    more := q.PopEntry();
    ContainerAppend(l, es, more.value);
    newLen := AppendElem(buf, len, more.value.elem);
  }

  predicate NoneMore(es: seq<Entry>) {
    forall i :: 0 <= i < |es| ==> !Has(es[i].elem.flags, MORE_FRAG)
  }

  /** `es` are the entries of the log from `from` on. */
  predicate TakenAt(es: seq<Entry>, log: seq<Entry>, from: nat) {
    from + |es| <= |log| && es == log[from..from + |es|]
  }

  lemma TakenAtAppend(es: seq<Entry>, log: seq<Entry>, from: nat)
    requires TakenAt(es, log, from) && from + |es| < |log|
    ensures TakenAt(es + [log[from + |es|]], log, from)
  {
  }

  method PackFirst(l: Limits, buf: array<byte>, first: Entry) returns (len: nat)
    requires LimitsOk(l) && l.maxPayload <= buf.Length && Fitting(l, first)
    modifies buf
    ensures PackedInto(l, [first], buf, len)
  {
    len := AppendElem(buf, 0, first.elem);
    assert [first][..0] == [] && Elems([first]) == [] + [first.elem];
    EncodeAppend([], first.elem);
  }

  /** Other threads queue entries meanwhile; those that find no room wait outside. */
  method Arrive(q: SendQueue, es: seq<Entry>)
    requires q.Valid()
    modifies q, q.entries
    ensures q.Valid() && old(q.log) <= q.log && q.inflight == old(q.inflight)
    ensures q.View().popped == old(q.View()).popped && q.View().done == old(q.View()).done
    ensures forall i :: |old(q.log)| <= i < |q.log| ==> q.log[i] in es
  {
    for i := 0 to |es|
      invariant q.Valid() && old(q.log) <= q.log && q.inflight == old(q.inflight)
      invariant q.View().popped == old(q.View()).popped && q.View().done == old(q.View()).done
      invariant forall i :: |old(q.log)| <= i < |q.log| ==> q.log[i] in es
    {
      var ok := q.PushEntry(es[i]);
    }
  }

  predicate AllFitting(l: Limits, es: seq<Entry>)
    requires LimitsOk(l)
  {
    forall i :: 0 <= i < |es| ==> Fitting(l, es[i])
  }

  /** One element per look at the queue: what other threads queue before it. */
  predicate ArrivalsFit(l: Limits, arrivals: seq<seq<Entry>>)
    requires LimitsOk(l)
  {
    forall k :: 0 <= k < |arrivals| ==> AllFitting(l, arrivals[k])
  }

  /** A container being packed: the entries of the log from `from` on, the first of which may have company. */
  ghost predicate Packing(q: SendQueue, l: Limits, buf: array<byte>, len: nat, first: Entry, from: nat, es: seq<Entry>)
    requires LimitsOk(l)
    reads q, q.entries, buf
  {
    && q.Valid() && l.maxPayload <= buf.Length && AllFitting(l, q.log)
    && es != [] && es[0] == first && NoneMore(es)
    && q.View().popped == from + |es| && TakenAt(es, q.log, from) && PackedInto(l, es, buf, len)
  }

  /** One look at the queue after other threads have queued entries. */
  method LookAgain(q: SendQueue, l: Limits, buf: array<byte>, len: nat, first: Entry, ghost from: nat,
                   es: seq<Entry>, arriving: seq<Entry>) returns (newLen: nat, newEs: seq<Entry>)
    requires LimitsOk(l) && AllFitting(l, arriving) && Packing(q, l, buf, len, first, from, es)
    modifies q, q.entries, buf
    ensures Packing(q, l, buf, newLen, first, from, newEs)
    ensures old(q.log) <= q.log && q.View().done == old(q.View().done)
  {
    ArriveWhilePacking(q, l, buf, len, first, from, es, arriving);
    newLen, newEs := TryNext(q, l, buf, len, first, from, es);
  }

  method ArriveWhilePacking(q: SendQueue, l: Limits, buf: array<byte>, len: nat, first: Entry, ghost from: nat,
                            es: seq<Entry>, arriving: seq<Entry>)
    requires LimitsOk(l) && AllFitting(l, arriving) && Packing(q, l, buf, len, first, from, es)
    modifies q, q.entries
    ensures Packing(q, l, buf, len, first, from, es)
    ensures old(q.log) <= q.log && q.View().done == old(q.View().done)
  {
    Arrive(q, arriving);
    assert TakenAt(es, q.log, from);
  }

  method TryNext(q: SendQueue, l: Limits, buf: array<byte>, len: nat, first: Entry, ghost from: nat, es: seq<Entry>)
      returns (newLen: nat, newEs: seq<Entry>)
    requires LimitsOk(l) && Packing(q, l, buf, len, first, from, es)
    modifies q, buf
    ensures Packing(q, l, buf, newLen, first, from, newEs)
    ensures q.log == old(q.log) && q.View().done == old(q.View().done)
  {
    var more;
    more, newLen := PackNext(q, l, buf, len, first, es);
    newEs := es;
    if more.Some? {
      TakenAtAppend(es, q.log, from);
      newEs := es + [more.value];
    }
  }

  /** The container that starts with an entry just popped, which was number `from` of the log. Other threads queue
      entries before every look; when the list ends, the pack wait is over. */
  method PackContainer(q: SendQueue, l: Limits, buf: array<byte>, first: Entry, ghost from: nat, arrivals: seq<seq<Entry>>)
      returns (len: nat, es: seq<Entry>)
    requires q.Valid() && LimitsOk(l) && l.maxPayload <= buf.Length
    requires AllFitting(l, q.log) && ArrivalsFit(l, arrivals)
    requires q.View().popped == from + 1 && TakenAt([first], q.log, from)
    modifies q, q.entries, buf
    ensures q.Valid() && old(q.log) <= q.log && AllFitting(l, q.log) && q.View().done == old(q.View().done)
    ensures q.View().popped == from + |es| && TakenAt(es, q.log, from)
    ensures PackedInto(l, es, buf, len)
  {
    assert first == q.log[from];
    len := PackFirst(l, buf, first);
    es := [first];
    if Has(first.elem.flags, MORE_FRAG) {
      return;
    }
    for k := 0 to |arrivals|
      invariant Packing(q, l, buf, len, first, from, es)
      invariant old(q.log) <= q.log && q.View().done == old(q.View().done)
    {
      var newLen, newEs := LookAgain(q, l, buf, len, first, from, es, arrivals[k]);
      if |newEs| == |es| {
        return newLen, newEs;
      }
      len, es := newLen, newEs;
    }
  }

  /** `send_packed_peer_mode` and one turn of `send_thread_func`: pop, pack, complete, while other threads go on
      queueing. `found` says whether the peer still exists; without it the entry is dropped. Every entry popped is
      completed exactly once. */
  method SendOne(q: SendQueue, l: Limits, buf: array<byte>, found: bool, arrivals: seq<seq<Entry>>)
      returns (b: Option<Batch>, len: nat)
    requires q.Valid() && LimitsOk(l) && l.maxPayload <= buf.Length && q.inflight == 0
    requires AllFitting(l, q.log) && ArrivalsFit(l, arrivals)
    modifies q, q.entries, buf
    ensures q.Valid() && old(q.log) <= q.log && AllFitting(l, q.log) && q.inflight == 0
    ensures b.None? ==> q.View() == old(q.View()) && old(q.View()).popped == |q.log|
    ensures b.Some? ==>
              && b.value.found == found && Legal(l, b.value)
              && q.View().popped == q.View().done == old(q.View()).popped + |b.value.entries|
              && TakenAt(b.value.entries, q.log, old(q.View()).popped)
              && (found ==> PackedInto(l, b.value.entries, buf, len))
  {
    ghost var from := q.View().popped;
    var first := q.PopEntry();
    if first.None? {
      return None, 0;
    }
    assert TakenAt([first.value], q.log, from);
    if !found {
      q.CompleteOne();
      return Some(Batch([first.value], false)), 0;
    }
    var es;
    len, es := PackContainer(q, l, buf, first.value, from, arrivals);
    CompleteAll(q, |es|);
    b := Some(Batch(es, true));
  }

  method CompleteAll(q: SendQueue, n: nat)
    requires q.Valid() && n <= q.inflight
    modifies q
    ensures q.Valid() && q.log == old(q.log) && q.inflight == old(q.inflight) - n
    ensures q.View().popped == old(q.View()).popped && q.View().done == old(q.View()).done + n
  {
    for i := 0 to n
      invariant q.Valid() && q.log == old(q.log) && q.inflight == old(q.inflight) - i
      invariant q.View().popped == old(q.View()).popped && q.View().done == old(q.View()).done + i
    {
      q.CompleteOne();
    }
  }

  // ---------- routing to peers ----------

  /** What one turn of the send thread takes from the queue, and whether its peer was found. */
  datatype Batch = Batch(entries: seq<Entry>, found: bool)

  predicate Legal(l: Limits, b: Batch) {
    if b.found then Container(l, b.entries) else |b.entries| == 1
  }

  predicate AllLegal(l: Limits, bs: seq<Batch>) {
    forall i :: 0 <= i < |bs| ==> Legal(l, bs[i])
  }

  function AllTaken(bs: seq<Batch>): seq<Entry> {
    if bs == [] then [] else bs[0].entries + AllTaken(bs[1..])
  }

  lemma {:induction false} TakenAppend(bs: seq<Batch>, b: Batch)
    ensures AllTaken(bs + [b]) == AllTaken(bs) + b.entries
    decreases |bs|
  {
    if bs == [] {
      assert AllTaken([b][1..]) == [];
    } else {
      assert (bs + [b])[1..] == bs[1..] + [b];
      TakenAppend(bs[1..], b);
    }
  }

  /** One turn of the send thread: what is queued before it and during it, and whether the peer is found. */
  datatype Turn = Turn(before: seq<Entry>, arrivals: seq<seq<Entry>>, found: bool)

  predicate TurnFits(l: Limits, t: Turn)
    requires LimitsOk(l)
  {
    AllFitting(l, t.before) && ArrivalsFit(l, t.arrivals)
  }

  /** The send thread between two turns: it has taken and completed the log from `start` on, as these batches. */
  ghost predicate Served(q: SendQueue, l: Limits, start: nat, bs: seq<Batch>)
    requires LimitsOk(l)
    reads q, q.entries
  {
    && q.Valid() && q.inflight == 0 && AllFitting(l, q.log) && AllLegal(l, bs)
    && TakenAt(AllTaken(bs), q.log, start) && q.View().popped == q.View().done == start + |AllTaken(bs)|
  }

  method OneTurn(q: SendQueue, l: Limits, buf: array<byte>, t: Turn, ghost start: nat, bs: seq<Batch>)
      returns (r: seq<Batch>)
    requires LimitsOk(l) && l.maxPayload <= buf.Length && TurnFits(l, t) && Served(q, l, start, bs)
    modifies q, q.entries, buf
    ensures Served(q, l, start, r) && old(q.log) <= q.log && bs <= r
  {
    Arrive(q, t.before);
    assert TakenAt(AllTaken(bs), q.log, start);
    var b, len := SendOne(q, l, buf, t.found, t.arrivals);
    if b.None? {
      return bs;
    }
    r := bs + [b.value];
    TakenAppend(bs, b.value);
    TakenOnward(AllTaken(bs), b.value.entries, q.log, start);
  }

  lemma TakenOnward(a: seq<Entry>, b: seq<Entry>, log: seq<Entry>, from: nat)
    requires from + |a| <= |log| && a == log[from..from + |a|] && TakenAt(b, log, from + |a|)
    ensures TakenAt(a + b, log, from)
  {
  }

  /** The send thread over any number of turns, with entries queued at any time: the containers are the log from
      where it started, in order, and everything taken has been completed. */
  method SendTurns(q: SendQueue, l: Limits, buf: array<byte>, turns: seq<Turn>) returns (bs: seq<Batch>)
    requires q.Valid() && LimitsOk(l) && l.maxPayload <= buf.Length && q.inflight == 0 && AllFitting(l, q.log)
    requires forall k :: 0 <= k < |turns| ==> TurnFits(l, turns[k])
    modifies q, q.entries, buf
    ensures Served(q, l, old(q.View()).popped, bs) && old(q.log) <= q.log
  {
    bs := [];
    for k := 0 to |turns|
      invariant Served(q, l, old(q.View()).popped, bs) && old(q.log) <= q.log
    {
      bs := OneTurn(q, l, buf, turns[k], old(q.View()).popped, bs);
    }
  }

  function For(peer: u32, es: seq<Entry>): seq<Elem> {
    if es == [] then [] else (if es[0].peer == peer then [es[0].elem] else []) + For(peer, es[1..])
  }

  /** The elements that go out to a peer, in wire order. */
  function WireOrder(peer: u32, bs: seq<Batch>): seq<Elem> {
    if bs == [] then []
    else
      (if bs[0].found && bs[0].entries != [] && bs[0].entries[0].peer == peer then Elems(bs[0].entries) else [])
      + WireOrder(peer, bs[1..])
  }

  predicate Survives(peer: u32, bs: seq<Batch>) {
    forall i :: 0 <= i < |bs| && bs[i].entries != [] && bs[i].entries[0].peer == peer ==> bs[i].found
  }

  predicate OnePeer(es: seq<Entry>) {
    forall i :: 0 <= i < |es| ==> es[i].peer == es[0].peer
  }

  /** No container mixes peers, as is always so for N:1. */
  predicate Unmixed(bs: seq<Batch>) {
    forall i :: 0 <= i < |bs| ==> OnePeer(bs[i].entries)
  }

  lemma {:induction false} ForConcat(peer: u32, a: seq<Entry>, b: seq<Entry>)
    ensures For(peer, a + b) == For(peer, a) + For(peer, b)
    decreases |a|
  {
    if a == [] {
      assert a + b == b;
    } else {
      assert (a + b)[0] == a[0] && (a + b)[1..] == a[1..] + b;
      ForConcat(peer, a[1..], b);
      var head := if a[0].peer == peer then [a[0].elem] else [];
      assert For(peer, a + b) == head + For(peer, a[1..] + b);
      assert head + (For(peer, a[1..]) + For(peer, b)) == (head + For(peer, a[1..])) + For(peer, b);
    }
  }

  lemma {:induction false} ForUniform(peer: u32, es: seq<Entry>, owner: u32)
    requires forall i :: 0 <= i < |es| ==> es[i].peer == owner
    ensures For(peer, es) == if owner == peer then Elems(es) else []
    decreases |es|
  {
    if es == [] {
      assert Elems(es) == [];
    } else {
      ForUniform(peer, es[1..], owner);
      assert Elems(es) == [es[0].elem] + Elems(es[1..]);
    }
  }

  /** N:1 routing: whatever the interleaving of peers in the shared queue and whatever is packed together, the
      elements that go out to a surviving peer are its queued elements in queue order. */
  lemma {:induction false} RoutingKeepsOrder(l: Limits, peer: u32, bs: seq<Batch>)
    requires AllLegal(l, bs) && Unmixed(bs) && Survives(peer, bs)
    ensures WireOrder(peer, bs) == For(peer, AllTaken(bs))
    decreases |bs|
  {
    if bs != [] {
      assert Legal(l, bs[0]) && OnePeer(bs[0].entries);
      assert Unmixed(bs[1..]) && Survives(peer, bs[1..]) by {
        assert forall i :: 0 <= i < |bs[1..]| ==> bs[1..][i] == bs[i + 1];
      }
      var owner := bs[0].entries[0].peer;
      ForUniform(peer, bs[0].entries, owner);
      ForConcat(peer, bs[0].entries, AllTaken(bs[1..]));
      RoutingKeepsOrder(l, peer, bs[1..]);
    }
  }
}
