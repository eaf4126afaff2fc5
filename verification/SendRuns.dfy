/** Everything that happens between calls of send and the wire: one caller thread queueing the fragments of its
    calls, and the send thread taking them in containers, in any interleaving. Each step is one critical section
    of the queue's mutex. */
module SendRuns {
  import opened SeqNum
  import opened Wire
  import opened Fragments
  import opened SendQueues
  import opened SendThreads

  /** A call of `potr_service_send` for one peer. */
  datatype Call = Call(peer: u32, m: Sent)

  function MessagesFor(peer: u32, calls: seq<Call>): seq<Sent> {
    if calls == [] then []
    else (if calls[0].peer == peer then [calls[0].m] else []) + MessagesFor(peer, calls[1..])
  }

  predicate CallsValid(codec: Codec, max: nat, calls: seq<Call>) {
    forall i :: 0 <= i < |calls| ==> Valid(codec, max, calls[i].m)
  }

  /** What the calls put into the queue, in order. */
  function CallEntries(codec: Codec, max: nat, chunk: nat, calls: seq<Call>): seq<Entry>
    requires 0 < chunk && CallsValid(codec, max, calls)
  {
    if calls == [] then []
    else EntriesOf(calls[0].peer, ElemsOf(codec, chunk, calls[0].m)) + CallEntries(codec, max, chunk, calls[1..])
  }

  /** The queue, the entries still to be queued, the container being packed and the containers sent. */
  datatype Sys = Sys(q: Queue, todo: seq<Entry>, open: seq<Entry>, batches: seq<Batch>)

  datatype Act =
    | Offer               // the caller queues the next fragment, if there is room
    | Take                // the send thread pops the first entry of a container
    | More                // ... and one more that may travel along
    | Close(found: bool)  // ... and sends them, or drops the entry of a vanished peer

  predicate MayJoin(l: Limits, open: seq<Entry>, e: Entry) {
    && open != [] && NoneMore(open) && !Has(e.elem.flags, MORE_FRAG) && (l.multi ==> e.peer == open[0].peer)
    && TotalSize(open) + e.elem.Size() + l.tag <= l.maxPayload
  }

  function SysStep(l: Limits, s: Sys, act: Act): Sys
    requires QueueOk(s.q)
  {
    match act
    case Offer =>
      if s.todo == [] || QueueStep(s.q, Push(s.todo[0])).1.Full? then s
      else s.(q := QueueStep(s.q, Push(s.todo[0])).0, todo := s.todo[1..])
    case Take =>
      if s.open != [] || s.q.popped == |s.q.log| then s
      else s.(q := QueueStep(s.q, Pop).0, open := [s.q.log[s.q.popped]])
    case More =>
      if s.q.popped == |s.q.log| || !MayJoin(l, s.open, s.q.log[s.q.popped]) then s
      else s.(q := QueueStep(s.q, Pop).0, open := s.open + [s.q.log[s.q.popped]])
    case Close(found) =>
      if s.open == [] || (!found && |s.open| != 1) || s.q.done + |s.open| > s.q.popped then s
      else s.(q := s.q.(done := s.q.done + |s.open|), open := [], batches := s.batches + [Batch(s.open, found)])
  }

  /** What every interleaving keeps: nothing is lost, doubled or reordered between the calls and the containers. */
  predicate SysOk(l: Limits, all: seq<Entry>, s: Sys)
    requires LimitsOk(l)
  {
    && QueueOk(s.q) && s.q.log + s.todo == all && AllFitting(l, all)
    && AllTaken(s.batches) + s.open == s.q.log[..s.q.popped] && s.q.done == |AllTaken(s.batches)|
    && AllLegal(l, s.batches) && (s.open != [] ==> Container(l, s.open))
  }

  lemma FirstFits(l: Limits, e: Entry)
    requires LimitsOk(l) && Fitting(l, e)
    ensures Container(l, [e]) && e.elem.Sendable()
  {
    assert [e][..0] == [] && TotalSize([e][..0]) == 0;
  }

  lemma OfferKeeps(l: Limits, all: seq<Entry>, s: Sys)
    requires LimitsOk(l) && SysOk(l, all, s)
    ensures SysOk(l, all, SysStep(l, s, Offer))
  {
    if s.todo != [] {
      assert s.q.log + [s.todo[0]] + s.todo[1..] == s.q.log + s.todo;
      assert (s.q.log + [s.todo[0]])[..s.q.popped] == s.q.log[..s.q.popped];
    }
  }

  lemma PopsKeep(l: Limits, all: seq<Entry>, s: Sys, act: Act)
    requires LimitsOk(l) && SysOk(l, all, s) && (act.Take? || act.More?)
    ensures SysOk(l, all, SysStep(l, s, act))
  {
    var n := s.q.popped;
    if n < |s.q.log| {
      var e := s.q.log[n];
      assert e == all[n] && Fitting(l, e);
      assert s.q.log[..n + 1] == s.q.log[..n] + [e];
      FirstFits(l, e);
      if act.More? && MayJoin(l, s.open, e) {
        ContainerAppend(l, s.open, e);
        assert AllTaken(s.batches) + (s.open + [e]) == AllTaken(s.batches) + s.open + [e];
      }
    }
  }

  lemma CloseKeeps(l: Limits, all: seq<Entry>, s: Sys, found: bool)
    requires LimitsOk(l) && SysOk(l, all, s)
    ensures SysOk(l, all, SysStep(l, s, Close(found)))
  {
    TakenAppend(s.batches, Batch(s.open, found));
    var r := SysStep(l, s, Close(found));
    assert r.open == [] || r == s;
    assert AllTaken(s.batches) + s.open + [] == AllTaken(s.batches) + s.open;
  }

  lemma SysStepKeeps(l: Limits, all: seq<Entry>, s: Sys, act: Act)
    requires LimitsOk(l) && SysOk(l, all, s)
    ensures SysOk(l, all, SysStep(l, s, act))
  {
    match act
    case Offer => OfferKeeps(l, all, s);
    case Take => PopsKeep(l, all, s, Take);
    case More => PopsKeep(l, all, s, More);
    case Close(found) => CloseKeeps(l, all, s, found);
  }

  lemma FrontOfLog(l: Limits, all: seq<Entry>, s: Sys)
    requires LimitsOk(l) && SysOk(l, all, s)
    ensures s.q.log <= all && AllTaken(s.batches) <= s.q.log
    ensures s.q.done == |s.q.log| ==> AllTaken(s.batches) == s.q.log
  {
    assert AllTaken(s.batches) <= s.q.log[..s.q.popped];
  }

  function SysRun(l: Limits, s: Sys, acts: seq<Act>): Sys
    requires QueueOk(s.q)
  {
    if acts == [] then s
    else
      var r := SysRun(l, s, acts[..|acts| - 1]);
      if QueueOk(r.q) then SysStep(l, r, acts[|acts| - 1]) else r
  }

  function Start(depth: nat, all: seq<Entry>): Sys {
    Sys(Queue(depth, [], 0, 0), all, [], [])
  }

  /** In every interleaving: the log is the entries of the calls queued so far, the containers sent and the one
      being packed are the front of the log, in order, and every entry of a container sent has been completed. */
  lemma {:induction false} SendsInEveryRun(l: Limits, depth: nat, all: seq<Entry>, acts: seq<Act>)
    requires LimitsOk(l) && AllFitting(l, all)
    ensures var r := SysRun(l, Start(depth, all), acts);
            SysOk(l, all, r) && r.q.log <= all && AllTaken(r.batches) <= r.q.log
  {
    if acts == [] {
      assert [] + all == all;
    } else {
      var n := |acts| - 1;
      SendsInEveryRun(l, depth, all, acts[..n]);
      SysStepKeeps(l, all, SysRun(l, Start(depth, all), acts[..n]), acts[n]);
      FrontOfLog(l, all, SysRun(l, Start(depth, all), acts));
    }
  }

  // ---------- the share of one peer ----------

  lemma {:induction false} ForOfEntries(peer: u32, owner: u32, es: seq<Elem>)
    ensures For(peer, EntriesOf(owner, es)) == if owner == peer then es else []
  {
    ForUniform(peer, EntriesOf(owner, es), owner);
    assert Elems(EntriesOf(owner, es)) == es;
  }

  lemma {:induction false} MessagesForValid(codec: Codec, max: nat, peer: u32, calls: seq<Call>)
    requires CallsValid(codec, max, calls)
    ensures AllValid(codec, max, MessagesFor(peer, calls))
    decreases |calls|
  {
    if calls != [] {
      assert CallsValid(codec, max, calls[1..]);
      MessagesForValid(codec, max, peer, calls[1..]);
    }
  }

  /** Of what the calls queue, a peer's share is the elements of the messages sent to it, in order. */
  lemma {:induction false} ShareOfCalls(codec: Codec, max: nat, chunk: nat, peer: u32, calls: seq<Call>)
    requires 0 < chunk && CallsValid(codec, max, calls)
    ensures AllValid(codec, max, MessagesFor(peer, calls))
    ensures For(peer, CallEntries(codec, max, chunk, calls)) == Elements(codec, max, chunk, MessagesFor(peer, calls))
    decreases |calls|
  {
    MessagesForValid(codec, max, peer, calls);
    if calls != [] {
      assert CallsValid(codec, max, calls[1..]);
      var es := ElemsOf(codec, chunk, calls[0].m);
      var rest := CallEntries(codec, max, chunk, calls[1..]);
      ShareOfCalls(codec, max, chunk, peer, calls[1..]);
      ForConcat(peer, EntriesOf(calls[0].peer, es), rest);
      ForOfEntries(peer, calls[0].peer, es);
      var tail := MessagesFor(peer, calls[1..]);
      if calls[0].peer == peer {
        assert ([calls[0].m] + tail)[1..] == tail;
      } else {
        assert [] + tail == tail && [] + For(peer, rest) == For(peer, rest);
      }
    }
  }

  lemma ForPrefix(peer: u32, a: seq<Entry>, b: seq<Entry>)
    requires a <= b
    ensures For(peer, a) <= For(peer, b)
  {
    ForConcat(peer, a, b[|a|..]);
    assert a + b[|a|..] == b;
  }

  lemma {:induction false} CallsFit(codec: Codec, max: nat, l: Limits, calls: seq<Call>)
    requires LimitsOk(l) && CallsValid(codec, max, calls)
    ensures AllFitting(l, CallEntries(codec, max, Chunk(l), calls))
    decreases |calls|
  {
    if calls != [] {
      assert CallsValid(codec, max, calls[1..]);
      CallsFit(codec, max, l, calls[1..]);
      var (bytes, flags) := Prepare(codec, calls[0].m.data, calls[0].m.compress).value;
      FragmentsFit(bytes, flags, Chunk(l));
    }
  }

  // ---------- the containers of one peer ----------

  /** The containers sent to a peer. */
  function Mine(peer: u32, bs: seq<Batch>): seq<Batch> {
    if bs == [] then []
    else (if bs[0].found && bs[0].entries != [] && bs[0].entries[0].peer == peer then [bs[0]] else []) + Mine(peer, bs[1..])
  }

  lemma {:induction false} MineLegal(l: Limits, peer: u32, bs: seq<Batch>)
    requires AllLegal(l, bs)
    ensures AllLegal(l, Mine(peer, bs)) && forall i :: 0 <= i < |Mine(peer, bs)| ==> Mine(peer, bs)[i].found
    decreases |bs|
  {
    if bs != [] {
      MineLegal(l, peer, bs[1..]);
      assert Legal(l, bs[0]);
    }
  }

  lemma {:induction false} MineTaken(peer: u32, bs: seq<Batch>)
    ensures Elems(AllTaken(Mine(peer, bs))) == WireOrder(peer, bs)
    decreases |bs|
  {
    if bs == [] {
      assert Elems(AllTaken(Mine(peer, bs))) == [];
    } else {
      var rest := Mine(peer, bs[1..]);
      MineTaken(peer, bs[1..]);
      if bs[0].found && bs[0].entries != [] && bs[0].entries[0].peer == peer {
        assert ([bs[0]] + rest)[1..] == rest;
        assert Elems(bs[0].entries + AllTaken(rest)) == Elems(bs[0].entries) + Elems(AllTaken(rest));
      } else {
        assert [] + rest == rest && [] + WireOrder(peer, bs[1..]) == WireOrder(peer, bs[1..]);
      }
    }
  }

  /** A peer that was never missing gets, in every interleaving and with any other peers in the queue, the elements
      of the messages sent to it: as many as have been taken, in order. */
  lemma PeerGetsItsElements(l: Limits, codec: Codec, max: nat, depth: nat, calls: seq<Call>, acts: seq<Act>, peer: u32)
    requires LimitsOk(l) && CallsValid(codec, max, calls)
    requires l.multi || forall i :: 0 <= i < |calls| ==> calls[i].peer == peer
    requires Survives(peer, SysRun(l, Start(depth, CallEntries(codec, max, Chunk(l), calls)), acts).batches)
    ensures AllValid(codec, max, MessagesFor(peer, calls))
    ensures var r := SysRun(l, Start(depth, CallEntries(codec, max, Chunk(l), calls)), acts);
            var mine := Elems(AllTaken(Mine(peer, r.batches)));
            var due := Elements(codec, max, Chunk(l), MessagesFor(peer, calls));
            && AllLegal(l, r.batches) && mine <= due
            && (r.todo == [] && r.q.done == |r.q.log| ==> mine == due)
  {
    var all := CallEntries(codec, max, Chunk(l), calls);
    CallsFit(codec, max, l, calls);
    SendsInEveryRun(l, depth, all, acts);
    PeerShare(l, codec, max, calls, peer, SysRun(l, Start(depth, all), acts));
  }

  lemma PeerShare(l: Limits, codec: Codec, max: nat, calls: seq<Call>, peer: u32, r: Sys)
    requires LimitsOk(l) && CallsValid(codec, max, calls)
    requires l.multi || forall i :: 0 <= i < |calls| ==> calls[i].peer == peer
    requires SysOk(l, CallEntries(codec, max, Chunk(l), calls), r) && Survives(peer, r.batches)
    ensures AllValid(codec, max, MessagesFor(peer, calls))
    ensures var mine := Elems(AllTaken(Mine(peer, r.batches)));
            var due := Elements(codec, max, Chunk(l), MessagesFor(peer, calls));
            mine <= due && (r.todo == [] && r.q.done == |r.q.log| ==> mine == due)
  {
    var all := CallEntries(codec, max, Chunk(l), calls);
    ShareOfCalls(codec, max, Chunk(l), peer, calls);
    MineTaken(peer, r.batches);
    BatchesUnmixed(l, codec, max, calls, peer, r);
    RoutingKeepsOrder(l, peer, r.batches);
    FrontOfLog(l, all, r);
    ForPrefix(peer, AllTaken(r.batches), r.q.log);
    ForPrefix(peer, r.q.log, all);
    if r.todo == [] {
      assert r.q.log + [] == r.q.log;
    }
  }

  lemma BatchesUnmixed(l: Limits, codec: Codec, max: nat, calls: seq<Call>, peer: u32, r: Sys)
    requires LimitsOk(l) && CallsValid(codec, max, calls)
    requires l.multi || forall i :: 0 <= i < |calls| ==> calls[i].peer == peer
    requires SysOk(l, CallEntries(codec, max, Chunk(l), calls), r)
    ensures Unmixed(r.batches)
  {
    var all := CallEntries(codec, max, Chunk(l), calls);
    if l.multi {
      forall i | 0 <= i < |r.batches|
        ensures OnePeer(r.batches[i].entries)
      {
        assert Legal(l, r.batches[i]);
      }
    } else {
      OneCaller(codec, max, Chunk(l), calls, peer);
      FrontOfLog(l, all, r);
      TakenOfOne(r.batches, peer);
    }
  }

  lemma {:induction false} OneCaller(codec: Codec, max: nat, chunk: nat, calls: seq<Call>, peer: u32)
    requires 0 < chunk && CallsValid(codec, max, calls) && forall i :: 0 <= i < |calls| ==> calls[i].peer == peer
    ensures forall k :: 0 <= k < |CallEntries(codec, max, chunk, calls)| ==> CallEntries(codec, max, chunk, calls)[k].peer == peer
    decreases |calls|
  {
    if calls != [] {
      assert CallsValid(codec, max, calls[1..]);
      OneCaller(codec, max, chunk, calls[1..], peer);
    }
  }

  lemma {:induction false} TakenOfOne(bs: seq<Batch>, peer: u32)
    requires forall k :: 0 <= k < |AllTaken(bs)| ==> AllTaken(bs)[k].peer == peer
    ensures Unmixed(bs)
    decreases |bs|
  {
    if bs != [] {
      var first, rest := bs[0].entries, AllTaken(bs[1..]);
      assert AllTaken(bs) == first + rest;
      assert forall k :: 0 <= k < |first| ==> first[k] == AllTaken(bs)[k];
      assert forall k :: 0 <= k < |rest| ==> rest[k] == AllTaken(bs)[|first| + k];
      TakenOfOne(bs[1..], peer);
      assert forall i :: 1 <= i < |bs| ==> bs[i] == bs[1..][i - 1];
    }
  }
}
