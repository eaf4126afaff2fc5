/** What a connection loss does to a message that is half received. Only a RAW slot drops the fragments it holds
    (prod/libsrc/porter/thread/thread_recv_window.c); elsewhere they stay in the buffer, and the next message
    that arrives whole is glued to them. */
module StaleFragments {
  import opened SeqNum
  import opened Packets
  import opened Windows
  import opened Wire
  import opened Sessions
  import opened Traces
  import opened PathEvents
  import opened Fragments
  import opened Receiver
  import opened Outgoing
  import opened StreamInvariant
  import opened EndToEnd
  import Recovery

  const ANYTIME := Mark(NO_FRAG, 0, 0, 0, [])

  lemma {:induction false} DeadDelivery(cfg: Config, s: Slot, es: seq<Elem>)
    requires !s.alive
    ensures DeliverAll(cfg, s, es) == s
    decreases |es|
  {
    if es != [] {
      DeadDelivery(cfg, s, es[1..]);
    }
  }

  /** While disconnected, packets leave the window without touching the fragment buffer. */
  lemma {:induction false} DeadPops(cfg: Config, s: Slot)
    requires !s.alive
    ensures PopAll(cfg, s).frag == s.frag && !PopAll(cfg, s).alive && Messages(PopAll(cfg, s).trace) == Messages(s.trace)
    decreases Leading(s.win.slots)
  {
    if CanPop(s.win) {
      PopShortens(cfg, s);
      RecvOpsKeepOk(s.win, s.win.slots[0].value);
      var p := s.win.slots[0].value;
      var ping := Has(p.hdr.flags, PING) && !cfg.service.Tcp?;
      DeadDelivery(cfg, Emit(s.(win := Consume(s.win)), Popped(p.hdr.number, s.alive && !ping)), UnpackFrom(p.payload, 0));
      DeadPops(cfg, PopOne(cfg, s));
    }
  }

  lemma FinFireFrag(cfg: Config, s: Slot, target: u32)
    ensures FinFire(cfg, s, target).frag == s.frag && Messages(FinFire(cfg, s, target).trace) == Messages(s.trace)
  {
    var s1 := Emit(s, FinFired(target));
    var s2 := if cfg.service.Tcp? then Emit(s1, FinAckSent(target)) else s1;
    DiffQuiet(ANYTIME, s1.trace, s1.logical, DOWN, MAX_PATH);
    DiffQuiet(ANYTIME, s2.trace, s2.logical, DOWN, MAX_PATH);
    var s3 := Forget(DropPaths(s2).(pendingFin := None, waiting := None));
    assert Messages(s3.trace) == Messages(DropPaths(s2).trace) == Messages(s.trace);
  }

  lemma DeadDrain(cfg: Config, s: Slot)
    requires !s.alive
    ensures Drain(cfg, s).frag == s.frag && Messages(Drain(cfg, s).trace) == Messages(s.trace)
  {
    DeadPops(cfg, s);
    FinFireFrag(cfg, PopAll(cfg, s), PopAll(cfg, s).win.next);
  }

  /** A REJECT, which disconnects and gives up a packet, delivers nothing and keeps the fragments. */
  lemma RejectKeepsFragments(cfg: Config, s: Slot, p: Packet)
    requires !cfg.service.Raw?
    ensures OnReject(cfg, s, p).frag == s.frag && Messages(OnReject(cfg, s, p).trace) == Messages(s.trace)
  {
    var (ok, s1) := Adopt(s, p);
    assert s1.frag == s.frag && Messages(s1.trace) == Messages(s.trace);
    if ok {
      DiffQuiet(ANYTIME, s1.trace, s1.logical, DOWN, MAX_PATH);
      var s2 := DropPaths(s1).(waiting := None);
      assert !s2.alive && Messages(s2.trace) == Messages(s1.trace);
      DeadDrain(cfg, Skip(s2, p.hdr.ack));
    }
  }

  // ---------- one packet in sequence ----------

  predicate Packable1(es: seq<Elem>) {
    AllSendable(es) && |Encode(es)| <= MAX_PAYLOAD
  }

  /** The packet that carries these elements, and the stream made of it alone. */
  function Carrier(o: Origin, number: u32, es: seq<Elem>): Packet
    requires Packable1(es)
  {
    Plain(o, number, Encode(es))
  }

  function Single(o: Origin, number: u32, es: seq<Elem>): (st: Stream)
    requires Packable1(es)
    ensures StreamOk(st) && st.packets == [Carrier(o, number, es)] && Flat(st, 1) == es
  {
    var st := Stream(o, number, [es], [Carrier(o, number, es)]);
    WrapSame(number);
    assert CarriesAt(st, 0);
    assert Flat(st, 0) == [] && [] + es == es;
    st
  }

  lemma WrapSame(number: u32)
    ensures Number(number, 0) == number
  {
  }

  /** `r` has delivered what the elements complete, and waits for the next number with an empty window. */
  predicate Took(cfg: Config, s: Slot, r: Slot, o: Origin, number: u32, es: seq<Elem>) {
    var (f, ms) := FeedAll(cfg.codec, cfg.maxMessage, s.frag, es);
    && r.frag == f && Messages(r.trace) == Messages(s.trace) + ms
    && r.alive && r.followed == Some(o.session) && r.win == Init(Inc(number), r.win.Size())
  }

  lemma TookAll(cfg: Config, s: Slot, r: Slot, m: Mark, o: Origin, number: u32, es: seq<Elem>)
    requires Packable1(es) && Progress(cfg, Single(o, number, es), m, r)
    requires m.frag == s.frag && m.pops == PopCount(s.trace) && m.said == Messages(s.trace)
    requires PopCount(r.trace) > PopCount(s.trace)
    ensures Took(cfg, s, r, o, number, es)
  {
    var st := Single(o, number, es);
    assert PopCount(r.trace) - m.pops == 1;
    assert Holds(st, 1, r.win);
    assert forall d :: 0 <= d < r.win.Size() ==> r.win.slots[d].None?;
    IncWrap(number);
    assert r.win.slots == Init(Inc(number), r.win.Size()).slots;
  }

  /** A DATA packet of a newer session: adopted, stored and delivered in one step. The connection stays up: the only
      loss counted is the switch itself. */
  lemma SwitchTakes(cfg: Config, s: Slot, o: Origin, number: u32, es: seq<Elem>, path: nat, now: nat)
    requires Packable1(es) && FirstContact(cfg, Single(o, number, es), s, Recv(Carrier(o, number, es), path, now))
    ensures var r := Step(cfg, s, Recv(Carrier(o, number, es), path, now));
            Took(cfg, s, r, o, number, es) && Losses(r.trace) == Losses(s.trace) + if s.followed.Some? then 1 else 0
  {
    var i := Recv(Carrier(o, number, es), path, now);
    var m := MarkAt(s, s);
    FirstContactStarts(cfg, Single(o, number, es), m, s, i);
    TookAll(cfg, s, Step(cfg, s, i), m, o, number, es);
  }

  /** A DATA packet of the followed session at the number due. */
  lemma NextTakes(cfg: Config, s: Slot, o: Origin, number: u32, es: seq<Elem>, path: nat, now: nat)
    requires Packable1(es) && path < MAX_PATH && !cfg.service.Tcp? && s.active && s.alive && s.pendingFin == None
    requires s.followed == Some(o.session) && s.win == Init(number, s.win.Size())
    ensures Took(cfg, s, Step(cfg, s, Recv(Carrier(o, number, es), path, now)), o, number, es)
  {
    var p := Carrier(o, number, es);
    var s0 := Emit(s, Got(p));
    VerdictIsOrder(o.session, o.session);
    SameStep(cfg, s, p, path, now);
    var m := MarkAt(s0, s0);
    AcceptFirst(cfg, Single(o, number, es), m, s0, path, now);
    TookAll(cfg, s0, AcceptOuter(cfg, s0, p, path, now), m, o, number, es);
  }

  lemma SameStep(cfg: Config, s: Slot, p: Packet, path: nat, now: nat)
    requires path < MAX_PATH && s.active && !cfg.service.Tcp? && p.hdr.flags == DATA
    requires s.followed == Some(SessionOf(p))
    ensures Step(cfg, s, Recv(p, path, now)) == AcceptOuter(cfg, Emit(s, Got(p)), p, path, now)
  {
    VerdictIsOrder(SessionOf(p), SessionOf(p));
    var s0 := Emit(s, Got(p));
    assert KindOf(p).Data? && Adopt(s0, p) == (true, s0);
    assert Dispatch(cfg, s0, p, path, now) == AcceptOuter(cfg, s0, p, path, now);
  }

  // ---------- the next message ----------

  /** A message that fits one element arrives as sent exactly when no fragment is waiting. */
  lemma Glued(cfg: Config, f: Frag, m: seq<byte>)
    requires m != [] && !f.compressed
    ensures FeedAll(cfg.codec, cfg.maxMessage, f, [Elem(0, m)]).1 == [m] <==> f.buf == []
    ensures f.buf != [] && |f.buf| + |m| <= cfg.maxMessage ==>
              FeedAll(cfg.codec, cfg.maxMessage, f, [Elem(0, m)]).1 == [f.buf + m]
  {
    var e := Elem(0, m);
    assert !Has(0, MORE_FRAG) && !Has(0, COMPRESSED) && [e][1..] == [];
    assert |f.buf + m| != |m| || f.buf == [];
    var (f1, o) := Feed(cfg.codec, cfg.maxMessage, f, e);
    assert FeedAll(cfg.codec, cfg.maxMessage, f, [e]).1 == ToSeq(o) + [] == ToSeq(o);
  }

  lemma GluedTail(said: seq<seq<byte>>, more: seq<seq<byte>>, m: seq<byte>)
    ensures said + more == said + [m] <==> more == [m]
  {
    if said + more == said + [m] {
      assert more == (said + more)[|said|..] && [m] == (said + [m])[|said|..];
    }
  }

  /** Session adoption: when a newer session's DATA reaches a slot, the first whole message is delivered as sent if
      and only if no fragment of the older session was waiting. Otherwise the two are glued together, and no
      DISCONNECTED tells the application. (With compressed fragments the outcome is up to the decompressor.) */
  lemma WholeAfterSwitch(cfg: Config, s: Slot, o: Origin, number: u32, m: seq<byte>, path: nat, now: nat)
    requires m != [] && !s.frag.compressed && Packable1([Elem(0, m)])
    requires FirstContact(cfg, Single(o, number, [Elem(0, m)]), s, Recv(Carrier(o, number, [Elem(0, m)]), path, now))
    ensures var r := Step(cfg, s, Recv(Carrier(o, number, [Elem(0, m)]), path, now));
            && (Messages(r.trace) == Messages(s.trace) + [m] <==> s.frag.buf == [])
            && (s.frag.buf != [] && |s.frag.buf| + |m| <= cfg.maxMessage ==>
                  Messages(r.trace) == Messages(s.trace) + [s.frag.buf + m])
            && r.alive && Losses(r.trace) == Losses(s.trace) + if s.followed.Some? then 1 else 0
  {
    var es := [Elem(0, m)];
    SwitchTakes(cfg, s, o, number, es, path, now);
    Glued(cfg, s.frag, m);
    GluedTail(Messages(s.trace), FeedAll(cfg.codec, cfg.maxMessage, s.frag, es).1, m);
  }

  /** The number due after a REJECT, when nothing is stored behind it. */
  function AfterReject(s: Slot, reject: Packet): u32 {
    if s.win.next == reject.hdr.ack then Inc(s.win.next) else s.win.next
  }

  lemma RejectEmpties(cfg: Config, s: Slot, reject: Packet, path: nat, now: nat)
    requires !cfg.service.Raw? && !cfg.service.Tcp? && path < MAX_PATH && s.active && s.pendingFin == None
    requires KindOf(reject).Reject? && s.followed == Some(SessionOf(reject)) && s.win == Init(s.win.next, s.win.Size())
    ensures var r := Step(cfg, s, Recv(reject, path, now));
            && r.active && r.followed == s.followed && r.pendingFin == None && r.frag == s.frag && !r.alive
            && Messages(r.trace) == Messages(s.trace) && r.win == Init(AfterReject(s, reject), r.win.Size())
  {
    var s0 := Emit(s, Got(reject));
    Recovery.RejectGivesUp(cfg, s0, reject);
    RejectKeepsFragments(cfg, s0, reject);
    var w := if s.win.next == reject.hdr.ack then Consume(s.win) else s.win;
    assert w.slots == Init(w.next, w.Size()).slots;
    assert !CanPop(w) && Recovery.PopWin(w) == w;
  }

  /** REJECT, then a PING that reconnects, then the next DATA: its message is delivered as sent if and only if no
      fragment was waiting before the REJECT. */
  lemma WholeAfterReject(cfg: Config, s: Slot, o: Origin, reject: Packet, ping: Packet, m: seq<byte>, path: nat, now: nat)
    requires !cfg.service.Raw? && !cfg.service.Tcp? && path < MAX_PATH && s.active && s.pendingFin == None
    requires s.followed == Some(o.session) && s.win == Init(s.win.next, s.win.Size())
    requires KindOf(reject).Reject? && SessionOf(reject) == o.session
    requires m != [] && !s.frag.compressed && Packable1([Elem(0, m)])
    requires ConnectingPing(cfg, Single(o, AfterReject(s, reject), []), s, ping, path)
    ensures var r1 := Step(cfg, s, Recv(reject, path, now));
            var r2 := Step(cfg, r1, Recv(ping, path, now));
            var r3 := Step(cfg, r2, Recv(Carrier(o, AfterReject(s, reject), [Elem(0, m)]), path, now));
            && (Messages(r3.trace) == Messages(s.trace) + [m] <==> s.frag.buf == [])
            && (s.frag.buf != [] && |s.frag.buf| + |m| <= cfg.maxMessage ==>
                  Messages(r3.trace) == Messages(s.trace) + [s.frag.buf + m])
  {
    var number := AfterReject(s, reject);
    RejectEmpties(cfg, s, reject, path, now);
    var r1 := Step(cfg, s, Recv(reject, path, now));
    PingReconnects(cfg, r1, o, number, ping, path, now);
    var r2 := Step(cfg, r1, Recv(ping, path, now));
    NextTakes(cfg, r2, o, number, [Elem(0, m)], path, now);
    Glued(cfg, s.frag, m);
    GluedTail(Messages(s.trace), FeedAll(cfg.codec, cfg.maxMessage, s.frag, [Elem(0, m)]).1, m);
  }

  lemma PingReconnects(cfg: Config, s: Slot, o: Origin, number: u32, ping: Packet, path: nat, now: nat)
    requires ConnectingPing(cfg, Single(o, number, []), s, ping, path)
    requires s.followed == Some(o.session) && s.win == Init(number, s.win.Size())
    ensures Reconnected(s, Step(cfg, s, Recv(ping, path, now)))
  {
    var s0 := Emit(s, Got(ping));
    VerdictIsOrder(o.session, o.session);
    assert Adopt(s0, ping) == (true, s0);
    PingConnects(cfg, Single(o, number, []), s0, ping, path, now);
  }

  /** Losing the connection on a RAW slot drops the fragments, so the same message arrives as sent. */
  lemma WholeAfterRawLoss(cfg: Config, s: Slot, up: Flags, m: seq<byte>)
    requires AnyUp(up) && m != []
    ensures var r := SetPaths(RawDisconnect(s), up);
            Messages(Deliver(cfg, r, Elem(0, m)).trace) == Messages(s.trace) + [m]
  {
    DiffQuiet(ANYTIME, s.trace, s.logical, DOWN, MAX_PATH);
    var r0 := RawDisconnect(s);
    DiffQuiet(ANYTIME, r0.trace, r0.logical, up, MAX_PATH);
    GluedMessage(cfg, SetPaths(r0, up), m);
  }

  lemma GluedMessage(cfg: Config, s: Slot, m: seq<byte>)
    requires s.alive && m != [] && s.frag == NO_FRAG
    ensures Messages(Deliver(cfg, s, Elem(0, m)).trace) == Messages(s.trace) + [m]
  {
    assert !Has(0, MORE_FRAG) && !Has(0, COMPRESSED);
  }

  // ---------- runs that glue two messages ----------

  lemma HalfFed(cfg: Config, part: seq<byte>)
    requires 0 < |part| <= cfg.maxMessage
    ensures FeedAll(cfg.codec, cfg.maxMessage, NO_FRAG, [Elem(MORE_FRAG, part)]) == (Frag(part, false), [])
  {
    var e := Elem(MORE_FRAG, part);
    assert Has(MORE_FRAG, MORE_FRAG) && !Has(MORE_FRAG, COMPRESSED) && [] + part == part;
    assert Feed(cfg.codec, cfg.maxMessage, NO_FRAG, e) == (Frag(part, false), None);
    FeedQuietly(cfg.codec, cfg.maxMessage, NO_FRAG, e, []);
    assert [e] + [] == [e];
  }

  lemma FirstRest(cfg: Config, s: Slot, p: Packet, path: nat, now: nat)
    requires cfg.service.Oneway? && path < MAX_PATH && s.active && p.hdr.flags == DATA
    requires Judge(s.followed, SessionOf(p)).New?
    ensures var r := Step(cfg, s, Recv(p, path, now)); r.active && r.pendingFin == None
  {
    FirstStep(cfg, s, p, path, now);
    Recovery.AcceptAbsorbs(cfg, Adopt(Emit(s, Got(p)), p).1, p, path, now);
  }

  /** A slot that holds half a message of this session and is ready for the next number. */
  predicate HoldsHalf(r: Slot, o: Origin, part: seq<byte>) {
    && r.frag == Frag(part, false) && Messages(r.trace) == [] && Losses(r.trace) == 0 && r.alive && r.active
    && r.followed == Some(o.session) && r.pendingFin == None && r.win == Init(1, r.win.Size())
  }

  /** The first fragment of a message as first contact on a one-way slot just opened. */
  lemma HalfMessage(cfg: Config, size: nat, o: Origin, part: seq<byte>, path: nat, now: nat)
    requires cfg.service.Oneway? && 0 < size < U16_MOD && path < MAX_PATH
    requires 0 < |part| <= cfg.maxMessage && Packable1([Elem(MORE_FRAG, part)])
    ensures HoldsHalf(Step(cfg, Opened(size), Recv(Carrier(o, 0, [Elem(MORE_FRAG, part)]), path, now)), o, part)
  {
    var es := [Elem(MORE_FRAG, part)];
    var s := Opened(size);
    SwitchTakes(cfg, s, o, 0, es, path, now);
    HalfFed(cfg, part);
    assert Messages(Nothing) == [] && Messages(s.trace) == [] && Losses(Nothing) == 0 && Losses(s.trace) == 0;
    FirstRest(cfg, s, Carrier(o, 0, es), path, now);
  }

  /** One-way, from opening: half a message of one session, then a whole message of a newer one. The application gets
      one message made of both, and no DISCONNECTED in between. */
  lemma GluedBySwitch(cfg: Config, size: nat, o: Origin, o2: Origin, number: u32, part: seq<byte>, m: seq<byte>,
                      path: nat, now: nat)
    requires cfg.service.Oneway? && 0 < size < U16_MOD && path < MAX_PATH && part != [] && m != []
    requires |part| + |m| <= cfg.maxMessage && Packable1([Elem(MORE_FRAG, part)]) && Packable1([Elem(0, m)])
    requires !AtMost(o2.session, o.session)
    ensures var r := Run(cfg, Opened(size), [Recv(Carrier(o, 0, [Elem(MORE_FRAG, part)]), path, now),
                                             Recv(Carrier(o2, number, [Elem(0, m)]), path, now)]);
            Messages(r.trace) == [part + m] && r.alive && Losses(r.trace) == 1
  {
    var a, b := Recv(Carrier(o, 0, [Elem(MORE_FRAG, part)]), path, now), Recv(Carrier(o2, number, [Elem(0, m)]), path, now);
    HalfMessage(cfg, size, o, part, path, now);
    VerdictIsOrder(o.session, o2.session);
    WholeAfterSwitch(cfg, Step(cfg, Opened(size), a), o2, number, m, path, now);
    RunOne(cfg, Opened(size), a);
    RunSnoc(cfg, Opened(size), [a], b);
    assert [a, b] == [a] + [b];
    assert [] + [part + m] == [part + m];
  }

  /** One-way, from opening: half a message, REJECT of the next number, a PING that reconnects, a whole message. The
      application gets one message made of both. */
  lemma GluedByReject(cfg: Config, size: nat, o: Origin, reject: Packet, ping: Packet, part: seq<byte>, m: seq<byte>,
                      path: nat, now: nat)
    requires cfg.service.Oneway? && 0 < size < U16_MOD && path < MAX_PATH && part != [] && m != []
    requires |part| + |m| <= cfg.maxMessage && Packable1([Elem(MORE_FRAG, part)]) && Packable1([Elem(0, m)])
    requires KindOf(reject).Reject? && SessionOf(reject) == o.session && reject.hdr.ack == 1
    requires KindOf(ping).Ping? && SessionOf(ping) == o.session && ping.hdr.number == 2
    ensures var r := Run(cfg, Opened(size), [Recv(Carrier(o, 0, [Elem(MORE_FRAG, part)]), path, now), Recv(reject, path, now),
                                             Recv(ping, path, now), Recv(Carrier(o, 2, [Elem(0, m)]), path, now)]);
            Messages(r.trace) == [part + m]
  {
    var a := Recv(Carrier(o, 0, [Elem(MORE_FRAG, part)]), path, now);
    var b, c, d := Recv(reject, path, now), Recv(ping, path, now), Recv(Carrier(o, 2, [Elem(0, m)]), path, now);
    HalfMessage(cfg, size, o, part, path, now);
    var s := Step(cfg, Opened(size), a);
    WholeAfterReject(cfg, s, o, reject, ping, m, path, now);
    RunFour(cfg, Opened(size), a, b, c, d);
    assert [] + [part + m] == [part + m];
  }

  lemma RunFour(cfg: Config, s: Slot, a: Input, b: Input, c: Input, d: Input)
    requires ValidInput(a) && ValidInput(b) && ValidInput(c) && ValidInput(d)
    ensures Run(cfg, s, [a, b, c, d]) == Step(cfg, Step(cfg, Step(cfg, Step(cfg, s, a), b), c), d)
  {
    RunOne(cfg, s, a);
    RunSnoc(cfg, s, [a], b);
    RunSnoc(cfg, s, [a, b], c);
    RunSnoc(cfg, s, [a, b, c], d);
    assert [a, b] == [a] + [b] && [a, b, c] == [a, b] + [c] && [a, b, c, d] == [a, b, c] + [d];
  }

  lemma RunSnoc(cfg: Config, s: Slot, xs: seq<Input>, x: Input)
    requires ValidInput(x) && forall i :: 0 <= i < |xs| ==> ValidInput(xs[i])
    ensures (forall i :: 0 <= i < |xs + [x]| ==> ValidInput((xs + [x])[i]))
    ensures Run(cfg, s, xs + [x]) == Step(cfg, Run(cfg, s, xs), x)
  {
    assert (xs + [x])[..|xs|] == xs;
  }
}
