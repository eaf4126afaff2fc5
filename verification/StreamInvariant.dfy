/** What a slot keeps while it receives one stream of packets: the containers it has popped reassemble to the
    messages it has delivered. Every input of the slot is shown to keep this until the connection is lost. */
module StreamInvariant {
  import opened SeqNum
  import opened Packets
  import opened Windows
  import opened Wire
  import opened Sessions
  import opened Traces
  import opened PathEvents
  import opened Fragments
  import opened Receiver
  import opened Outgoing

  /** What the sender put on the wire: packet `k` carries container `k` and the number `first + k`, as the
      receiver sees it after authentication. */
  datatype Stream = Stream(origin: Origin, first: u32, containers: seq<seq<Elem>>, packets: seq<Packet>)

  predicate StreamOk(st: Stream) {
    && |st.packets| == |st.containers|
    && forall k :: 0 <= k < |st.packets| ==> CarriesAt(st, k)
  }

  predicate CarriesAt(st: Stream, k: nat)
    requires k < |st.packets| == |st.containers|
  {
    && AllSendable(st.containers[k]) && |Encode(st.containers[k])| <= MAX_PAYLOAD
    && st.packets[k] == Plain(st.origin, Number(st.first, k), Encode(st.containers[k]))
  }

  /** The elements of the first `n` containers. */
  function Flat(st: Stream, n: nat): seq<Elem>
    requires n <= |st.containers|
  {
    if n == 0 then [] else Flat(st, n - 1) + st.containers[n - 1]
  }

  /** A packet of the stream that is not older than 2^32 minus the window size, seen from index `n`. */
  predicate FromSender(st: Stream, n: int, size: nat, p: Packet) {
    exists k :: 0 <= k < |st.packets| && n - (U32_MOD - size) <= k < n + U32_MOD && p == st.packets[k]
  }

  /** The moment a stream starts in a history: the fragments held, the events, the losses, the packets popped
      and the messages delivered so far. */
  datatype Mark = Mark(frag: Frag, at: nat, losses: nat, pops: nat, said: seq<seq<byte>>)

  /** Connected all the time since the mark, in one session. */
  predicate Calm(m: Mark, t: Trace) {
    Losses(t) == m.losses
  }

  /** `n` containers of the stream reassemble to what was delivered since the mark. */
  predicate Fed(cfg: Config, st: Stream, m: Mark, n: nat, t: Trace)
    requires n <= |st.containers|
  {
    Messages(t) == m.said + FeedAll(cfg.codec, cfg.maxMessage, m.frag, Flat(st, n)).1
  }

  /** After `n` pops since the mark the slot holds packets of the stream from index `n` on and has reassembled
      exactly the elements before. */
  predicate Progress(cfg: Config, st: Stream, m: Mark, s: Slot) {
    && s.alive && s.followed == Some(st.origin.session)
    && m.pops <= PopCount(s.trace) <= m.pops + |st.containers|
    && var n := PopCount(s.trace) - m.pops;
    && s.win.next == Number(st.first, n) && Holds(st, n, s.win)
    && s.frag == FeedAll(cfg.codec, cfg.maxMessage, m.frag, Flat(st, n)).0 && Fed(cfg, st, m, n, s.trace)
  }

  predicate Holds(st: Stream, n: nat, w: Win) {
    forall d :: 0 <= d < w.Size() && w.slots[d].Some? ==> n + d < |st.packets| && w.slots[d].value == st.packets[n + d]
  }

  /** The history up to the FIN that ended the calm. */
  function AtFin(m: Mark, t: Trace): (r: Option<Trace>)
    ensures r.Some? ==> r.value.Then? && r.value.last.FinFired? && Calm(m, r.value.before)
  {
    match t
    case Nothing => None
    case Then(b, FinFired(_)) => if Calm(m, b) && m.at <= Length(b) then Some(t) else AtFin(m, b)
    case Then(b, _) => AtFin(m, b)
  }

  /** The packet just received is a FIN without a target. */
  predicate BareFin(t: Trace) {
    t.Then? && t.last.Got? && !Has(t.last.p.hdr.flags, FIN_TARGET_VALID)
  }

  /** When the FIN ended the calm, the elements before its target had been reassembled. */
  predicate Ended(cfg: Config, st: Stream, m: Mark, t: Trace)
    requires t.Then? && t.last.FinFired?
  {
    && m.pops <= PopCount(t.before) <= m.pops + |st.containers|
    && var n := PopCount(t.before) - m.pops;
    && Fed(cfg, st, m, n, t.before) && (t.last.target == Number(st.first, n) || BareFin(t.before))
  }

  predicate J(cfg: Config, st: Stream, m: Mark, s: Slot) {
    && m.losses <= Losses(s.trace) && m.at <= Length(s.trace)
    && (Calm(m, s.trace) ==> Progress(cfg, st, m, s))
    && (AtFin(m, s.trace).Some? ==> Ended(cfg, st, m, AtFin(m, s.trace).value))
  }

  /** `t` differs from `b` in nothing that reassembly depends on. */
  predicate SameFolds(m: Mark, b: Trace, t: Trace) {
    && Losses(t) == Losses(b) && Length(t) >= Length(b) && PopCount(t) == PopCount(b) && Messages(t) == Messages(b)
    && AtFin(m, t) == AtFin(m, b)
  }

  predicate Quiet(m: Mark, s: Slot, r: Slot) {
    && r.win == s.win && r.frag == s.frag && r.alive == s.alive && r.followed == s.followed
    && SameFolds(m, s.trace, r.trace)
  }

  lemma QuietJ(cfg: Config, st: Stream, m: Mark, s: Slot, r: Slot)
    requires J(cfg, st, m, s) && Quiet(m, s, r)
    ensures J(cfg, st, m, r)
  {
  }

  /** Once the calm is over, only the FIN that ended it matters. */
  lemma LostJ(cfg: Config, st: Stream, m: Mark, s: Slot, r: Slot)
    requires J(cfg, st, m, s) && m.losses < Losses(r.trace)
    requires Length(r.trace) >= Length(s.trace) && AtFin(m, r.trace) == AtFin(m, s.trace)
    ensures J(cfg, st, m, r)
  {
  }

  // ---------- callbacks ----------

  lemma {:induction false} DiffQuiet(m: Mark, t: Trace, was: Flags, next: Flags, n: nat)
    requires n <= MAX_PATH
    ensures SameFolds(m, t, Diff(t, was, next, n))
  {
    if n > 0 {
      DiffQuiet(m, t, was, next, n - 1);
    }
  }

  /** Losing the connection ends the calm. */
  lemma SetPathsJ(cfg: Config, st: Stream, m: Mark, s: Slot, next: Flags)
    requires J(cfg, st, m, s)
    ensures J(cfg, st, m, SetPaths(s, next))
    ensures !AnyUp(next) ==> !Calm(m, SetPaths(s, next).trace)
  {
    DiffQuiet(m, s.trace, s.logical, next, MAX_PATH);
    var s1 := s.(trace := Diff(s.trace, s.logical, next, MAX_PATH));
    QuietJ(cfg, st, m, s, s1);
    var r := SetPaths(s, next);
    if s.alive == AnyUp(next) {
      assert r.trace == s1.trace;
      QuietJ(cfg, st, m, s1, r);
    } else {
      assert r.trace == Then(s1.trace, if AnyUp(next) then Connected else Disconnected);
      LostJ(cfg, st, m, s1, r);
    }
  }

  lemma DropPathsJ(cfg: Config, st: Stream, m: Mark, s: Slot)
    requires J(cfg, st, m, s)
    ensures !Calm(m, DropPaths(s).trace) && !Calm(m, Disconnect(s).trace)
    ensures J(cfg, st, m, DropPaths(s)) && J(cfg, st, m, Disconnect(s))
  {
    SetPathsJ(cfg, st, m, s.(pings := NO_PINGS, remote := NO_PINGS), DOWN);
    SetPathsJ(cfg, st, m, s, DOWN);
  }

  lemma SyncJ(cfg: Config, st: Stream, m: Mark, s: Slot)
    requires J(cfg, st, m, s)
    ensures J(cfg, st, m, Sync(cfg, s))
  {
    SetPathsJ(cfg, st, m, s, [PathUp(cfg, s, 0), PathUp(cfg, s, 1), PathUp(cfg, s, 2), PathUp(cfg, s, 3)]);
  }

  // ---------- delivery ----------

  lemma {:induction false} DeliverAllFeeds(cfg: Config, s: Slot, es: seq<Elem>)
    requires s.alive
    ensures var r := DeliverAll(cfg, s, es);
            var (f, ms) := FeedAll(cfg.codec, cfg.maxMessage, s.frag, es);
            && r == s.(frag := f, trace := r.trace)
            && Messages(r.trace) == Messages(s.trace) + ms
            && PopCount(r.trace) == PopCount(s.trace) && Losses(r.trace) == Losses(s.trace)
    decreases |es|
  {
    if es != [] {
      var s1 := Deliver(cfg, s, es[0]);
      DeliverAllFeeds(cfg, s1, es[1..]);
      var ms := FeedAll(cfg.codec, cfg.maxMessage, s1.frag, es[1..]).1;
      var o := Feed(cfg.codec, cfg.maxMessage, s.frag, es[0]).1;
      assert Messages(s1.trace) == Messages(s.trace) + ToSeq(o);
      assert Messages(s.trace) + ToSeq(o) + ms == Messages(s.trace) + (ToSeq(o) + ms);
    }
  }

  lemma {:induction false} DeliverAllCalm(cfg: Config, m: Mark, s: Slot, es: seq<Elem>)
    ensures var t := DeliverAll(cfg, s, es).trace;
            Losses(t) == Losses(s.trace) && Length(t) >= Length(s.trace) && AtFin(m, t) == AtFin(m, s.trace)
    decreases |es|
  {
    if es != [] {
      DeliverAllCalm(cfg, m, Deliver(cfg, s, es[0]), es[1..]);
    }
  }

  lemma PopOneJ(cfg: Config, st: Stream, m: Mark, s: Slot)
    requires StreamOk(st) && J(cfg, st, m, s) && CanPop(s.win)
    ensures J(cfg, st, m, PopOne(cfg, s))
  {
    RecvOpsKeepOk(s.win, s.win.slots[0].value);
    var p := s.win.slots[0].value;
    var ping := Has(p.hdr.flags, PING) && !cfg.service.Tcp?;
    DeliverAllCalm(cfg, m, Emit(s.(win := Consume(s.win)), Popped(p.hdr.number, s.alive && !ping)), UnpackFrom(p.payload, 0));
    if Calm(m, s.trace) {
      PopOneCalm(cfg, st, m, s);
    }
  }

  lemma PopDelivers(cfg: Config, st: Stream, s: Slot, n: nat)
    requires StreamOk(st) && CanPop(s.win) && s.alive && Holds(st, n, s.win) && n < |st.containers|
    ensures RecvOk(Consume(s.win))
    ensures PopOne(cfg, s)
         == DeliverAll(cfg, Emit(s.(win := Consume(s.win)), Popped(s.win.next, true)), st.containers[n])
  {
    var p := s.win.slots[0].value;
    assert p == st.packets[n + 0] && CarriesAt(st, n);
    assert p.hdr.flags == DATA && p.hdr.number == s.win.next;
    UnpackOfEncode(st.containers[n]);
    RecvOpsKeepOk(s.win, p);
  }

  lemma PopFeeds(cfg: Config, st: Stream, s: Slot, n: nat)
    requires StreamOk(st) && CanPop(s.win) && s.alive && Holds(st, n, s.win) && n < |st.containers|
    ensures var r := PopOne(cfg, s);
            var (f, ms) := FeedAll(cfg.codec, cfg.maxMessage, s.frag, st.containers[n]);
            && r.win == Consume(s.win) && r.alive && r.followed == s.followed && r.frag == f
            && Messages(r.trace) == Messages(s.trace) + ms && PopCount(r.trace) == PopCount(s.trace) + 1
  {
    PopDelivers(cfg, st, s, n);
    DeliverAllFeeds(cfg, Emit(s.(win := Consume(s.win)), Popped(s.win.next, true)), st.containers[n]);
  }

  lemma PopOneCalm(cfg: Config, st: Stream, m: Mark, s: Slot)
    requires StreamOk(st) && Progress(cfg, st, m, s) && CanPop(s.win)
    ensures Progress(cfg, st, m, PopOne(cfg, s))
  {
    var n := PopCount(s.trace) - m.pops;
    assert n + 0 < |st.packets|;
    PopFeeds(cfg, st, s, n);
    FeedContainer(cfg, st, m, n);
    IncWrap(st.first + n);
    ConsumeHolds(st, n, s.win);
  }

  /** One more container continues the reassembly. */
  lemma FeedContainer(cfg: Config, st: Stream, m: Mark, n: nat)
    requires n < |st.containers|
    ensures var (f, ms) := FeedAll(cfg.codec, cfg.maxMessage, m.frag, Flat(st, n));
            var (f2, ms2) := FeedAll(cfg.codec, cfg.maxMessage, f, st.containers[n]);
            var all := FeedAll(cfg.codec, cfg.maxMessage, m.frag, Flat(st, n + 1));
            all.0 == f2 && m.said + all.1 == m.said + ms + ms2
  {
    FeedAllConcat(cfg.codec, cfg.maxMessage, m.frag, Flat(st, n), st.containers[n]);
    assert Flat(st, n + 1) == Flat(st, n) + st.containers[n];
  }

  lemma ConsumeHolds(st: Stream, n: nat, w: Win)
    requires w.Sane() && Holds(st, n, w)
    ensures Holds(st, n + 1, Consume(w))
  {
    var c := Consume(w);
    forall d | 0 <= d < c.Size() && c.slots[d].Some?
      ensures n + 1 + d < |st.packets| && c.slots[d].value == st.packets[n + 1 + d]
    {
      assert c.slots[d] == w.slots[d + 1];
      assert n + (d + 1) == n + 1 + d;
    }
  }

  lemma {:induction false} PopAllJ(cfg: Config, st: Stream, m: Mark, s: Slot)
    requires StreamOk(st) && J(cfg, st, m, s)
    ensures J(cfg, st, m, PopAll(cfg, s))
    decreases Leading(s.win.slots)
  {
    if CanPop(s.win) {
      PopShortens(cfg, s);
      PopOneJ(cfg, st, m, s);
      PopAllJ(cfg, st, m, PopOne(cfg, s));
    }
  }

  /** Once the calm is over, forgetting the session and restarting the window change nothing. */
  lemma ForgetJ(cfg: Config, st: Stream, m: Mark, s: Slot)
    requires J(cfg, st, m, s) && !Calm(m, s.trace)
    ensures var r := Restart(Forget(s.(pendingFin := None, waiting := None)), 0);
            !Calm(m, r.trace) && J(cfg, st, m, r)
  {
    var s1 := Forget(s.(pendingFin := None, waiting := None));
    assert !Calm(m, s1.trace) && AtFin(m, s1.trace) == AtFin(m, s.trace);
  }

  lemma EndedHere(cfg: Config, st: Stream, m: Mark, s: Slot, target: u32)
    requires Progress(cfg, st, m, s) && (target == s.win.next || BareFin(s.trace))
    ensures Ended(cfg, st, m, Then(s.trace, FinFired(target))) && Progress(cfg, st, m, Emit(s, FinFired(target)))
  {
  }

  lemma FiredJ(cfg: Config, st: Stream, m: Mark, s: Slot, target: u32)
    requires J(cfg, st, m, s) && (Calm(m, s.trace) ==> target == s.win.next || BareFin(s.trace))
    ensures J(cfg, st, m, Emit(s, FinFired(target)))
    ensures J(cfg, st, m, Emit(Emit(s, FinFired(target)), FinAckSent(target)))
  {
    var s1 := Emit(s, FinFired(target));
    if Calm(m, s.trace) {
      EndedHere(cfg, st, m, s, target);
      assert AtFin(m, s1.trace) == Some(s1.trace);
    } else {
      LostJ(cfg, st, m, s, s1);
    }
    QuietJ(cfg, st, m, s1, Emit(s1, FinAckSent(target)));
  }

  lemma FinFireJ(cfg: Config, st: Stream, m: Mark, s: Slot, target: u32)
    requires J(cfg, st, m, s) && (Calm(m, s.trace) ==> target == s.win.next || BareFin(s.trace))
    ensures !Calm(m, FinFire(cfg, s, target).trace) && J(cfg, st, m, FinFire(cfg, s, target))
  {
    FiredJ(cfg, st, m, s, target);
    var s1 := Emit(s, FinFired(target));
    if cfg.service.N1? {
      DropPathsJ(cfg, st, m, s1);
    } else {
      var s2 := if cfg.service.Tcp? then Emit(s1, FinAckSent(target)) else s1;
      DropPathsJ(cfg, st, m, s2);
      ForgetJ(cfg, st, m, DropPaths(s2));
    }
  }

  lemma DrainJ(cfg: Config, st: Stream, m: Mark, s: Slot)
    requires StreamOk(st) && J(cfg, st, m, s)
    ensures J(cfg, st, m, Drain(cfg, s))
  {
    PopAllJ(cfg, st, m, s);
    FinFireJ(cfg, st, m, PopAll(cfg, s), PopAll(cfg, s).win.next);
  }

  // ---------- DATA ----------

  /** A packet of the stream is stored at its own offset: the window test is not fooled by the wrap. */
  lemma StoredJ(cfg: Config, st: Stream, m: Mark, s: Slot, p: Packet)
    requires StreamOk(st) && J(cfg, st, m, s) && Accepts(s.win, p.hdr.number)
    requires Calm(m, s.trace) ==> FromSender(st, PopCount(s.trace) - m.pops, s.win.Size(), p)
    ensures J(cfg, st, m, Stored(s, p))
  {
    if Calm(m, s.trace) {
      StoreHolds(st, PopCount(s.trace) - m.pops, s.win, p);
    }
  }

  lemma StoreHolds(st: Stream, n: nat, w: Win, p: Packet)
    requires StreamOk(st) && w.Sane() && w.base == Number(st.first, n) && Holds(st, n, w)
    requires Accepts(w, p.hdr.number) && FromSender(st, n, w.Size(), p)
    ensures Holds(st, n, RecvPush(w, p))
  {
    var k :| 0 <= k < |st.packets| && n - (U32_MOD - w.Size()) <= k < n + U32_MOD && p == st.packets[k];
    assert CarriesAt(st, k);
    InWindowAgrees(st.first + k, st.first + n, w.Size());
    assert Distance(p.hdr.number, w.base) == k - n;
  }

  lemma GapReadyQuiet(cfg: Config, m: Mark, s: Slot, number: u32, now: nat)
    ensures Quiet(m, s, GapReady(cfg, s, number, now).1) && Quiet(m, s, NackIfReady(cfg, s, number, now))
  {
    assert Quiet(m, s, GapReady(cfg, s, number, now).1);
  }

  lemma GapReadyJ(cfg: Config, st: Stream, m: Mark, s: Slot, number: u32, now: nat)
    requires J(cfg, st, m, s)
    ensures J(cfg, st, m, GapReady(cfg, s, number, now).1) && J(cfg, st, m, NackIfReady(cfg, s, number, now))
  {
    GapReadyQuiet(cfg, m, s, number, now);
    QuietJ(cfg, st, m, s, GapReady(cfg, s, number, now).1);
    QuietJ(cfg, st, m, s, NackIfReady(cfg, s, number, now));
  }

  lemma RawRestartJ(cfg: Config, st: Stream, m: Mark, s: Slot, p: Packet)
    requires J(cfg, st, m, s)
    ensures !Calm(m, RawDisconnect(s).trace) && !Calm(m, RawRestart(s, p).trace)
    ensures J(cfg, st, m, RawDisconnect(s)) && J(cfg, st, m, RawRestart(s, p))
  {
    DropPathsJ(cfg, st, m, s);
    assert !Calm(m, RawDisconnect(s).trace) && J(cfg, st, m, RawDisconnect(s));
  }

  lemma GapsJ(cfg: Config, st: Stream, m: Mark, s: Slot, p: Packet, now: nat)
    requires J(cfg, st, m, s)
    ensures J(cfg, st, m, GapBeforeDrain(cfg, s, p, now)) && J(cfg, st, m, GapAfterDrain(cfg, s, now))
  {
    GapReadyJ(cfg, st, m, s, s.win.next, now);
    RawRestartJ(cfg, st, m, GapReady(cfg, s, s.win.next, now).1, p);
    QuietJ(cfg, st, m, s, s.(waiting := None));
  }

  lemma AcceptOuterJ(cfg: Config, st: Stream, m: Mark, s: Slot, p: Packet, path: nat, now: nat)
    requires StreamOk(st) && J(cfg, st, m, s) && path < MAX_PATH
    requires Calm(m, s.trace) ==> FromSender(st, PopCount(s.trace) - m.pops, s.win.Size(), p)
    ensures J(cfg, st, m, AcceptOuter(cfg, s, p, path, now))
  {
    if Accepts(s.win, p.hdr.number) || cfg.service.Raw? {
      var s1 := if Accepts(s.win, p.hdr.number) then Stored(s, p) else RawRestart(s, p);
      if Accepts(s.win, p.hdr.number) { StoredJ(cfg, st, m, s, p); } else { RawRestartJ(cfg, st, m, s, p); }
      EnteredJ(cfg, st, m, s1, p, path, now);
    }
  }

  lemma EnteredJ(cfg: Config, st: Stream, m: Mark, s: Slot, p: Packet, path: nat, now: nat)
    requires StreamOk(st) && J(cfg, st, m, s) && path < MAX_PATH
    ensures var s3 := Drain(cfg, HeardData(cfg, GapBeforeDrain(cfg, s, p, now), path));
            J(cfg, st, m, s3) && J(cfg, st, m, GapAfterDrain(cfg, s3, now))
  {
    GapsJ(cfg, st, m, s, p, now);
    var s1 := GapBeforeDrain(cfg, s, p, now);
    HeardDataJ(cfg, st, m, s1, path);
    DrainJ(cfg, st, m, HeardData(cfg, s1, path));
    GapsJ(cfg, st, m, Drain(cfg, HeardData(cfg, s1, path)), p, now);
  }

  lemma HeardDataJ(cfg: Config, st: Stream, m: Mark, s: Slot, path: nat)
    requires J(cfg, st, m, s) && path < MAX_PATH
    ensures J(cfg, st, m, HeardData(cfg, s, path))
  {
    SyncJ(cfg, st, m, Heard(s, path));
  }

  // ---------- the other packets ----------

  /** Adopting another session switches or restarts only when the calm is over. */
  lemma AdoptJ(cfg: Config, st: Stream, m: Mark, s: Slot, p: Packet)
    requires J(cfg, st, m, s)
    ensures J(cfg, st, m, Adopt(s, p).1)
    ensures Calm(m, Adopt(s, p).1.trace) && Adopt(s, p).0 ==> Adopt(s, p).1 == s && SessionOf(p) == st.origin.session
  {
    if Judge(s.followed, SessionOf(p)).New? {
      var s1 := if s.followed.Some? then Emit(s, Switched) else s;
      assert !Calm(m, s1.trace);
    } else if s.followed.Some? {
      VerdictIsOrder(s.followed.value, SessionOf(p));
    }
  }

  lemma {:induction false} ScanJ(cfg: Config, st: Stream, m: Mark, s: Slot, d: nat, target: u32, now: nat)
    requires J(cfg, st, m, s)
    ensures J(cfg, st, m, Scan(cfg, s, d, target, now))
    decreases s.win.Size() - d
  {
    var number := Wrap(s.win.base + d);
    if number != target && d < s.win.Size() {
      if s.win.slots[d].Some? {
        ScanJ(cfg, st, m, s, d + 1, target, now);
      } else {
        ReadyJ(cfg, st, m, s, number, now);
        var (ready, s1) := GapReady(cfg, s, number, now);
        if ready {
          ScanJ(cfg, st, m, Emit(s1, NackSent(number)), d + 1, target, now);
        }
      }
    }
  }

  lemma ReadyJ(cfg: Config, st: Stream, m: Mark, s: Slot, number: u32, now: nat)
    requires J(cfg, st, m, s)
    ensures var (ready, s1) := GapReady(cfg, s, number, now);
            J(cfg, st, m, s1) && s1.win == s.win && (ready ==> J(cfg, st, m, Emit(s1, NackSent(number))))
  {
    GapReadyJ(cfg, st, m, s, number, now);
    var (ready, s1) := GapReady(cfg, s, number, now);
    if ready {
      assert NackIfReady(cfg, s, number, now) == Emit(s1, NackSent(number));
    }
  }

  lemma ScanPingJ(cfg: Config, st: Stream, m: Mark, s: Slot, p: Packet, now: nat)
    requires J(cfg, st, m, s)
    ensures J(cfg, st, m, ScanPing(cfg, s, p, now))
  {
    if cfg.service.N1? || cfg.service.Raw? {
      GapReadyJ(cfg, st, m, s, s.win.next, now);
      RawRestartJ(cfg, st, m, GapReady(cfg, s, s.win.next, now).1, p);
      QuietJ(cfg, st, m, s, s.(waiting := None));
    } else {
      ScanJ(cfg, st, m, s, 0, p.hdr.number, now);
    }
  }

  lemma OnPingJ(cfg: Config, st: Stream, m: Mark, s: Slot, p: Packet, path: nat, now: nat)
    requires J(cfg, st, m, s) && path < MAX_PATH
    ensures J(cfg, st, m, OnPing(cfg, s, p, path, now))
  {
    var s1 := ApplyReport(Heard(s, path), p);
    QuietJ(cfg, st, m, s, s1);
    if cfg.service.Raw? {
      ScanPingJ(cfg, st, m, s1, p, now);
      SyncJ(cfg, st, m, ScanPing(cfg, s1, p, now));
    } else {
      SyncJ(cfg, st, m, s1);
      ScanPingJ(cfg, st, m, Sync(cfg, s1), p, now);
    }
  }

  lemma OnFinJ(cfg: Config, st: Stream, m: Mark, s: Slot, p: Packet, targeted: bool)
    requires J(cfg, st, m, s) && s.trace.Then? && s.trace.last == Got(p) && targeted == Has(p.hdr.flags, FIN_TARGET_VALID)
    ensures J(cfg, st, m, OnFin(cfg, s, p, targeted))
  {
    AdoptJ(cfg, st, m, s, p);
    var (ok, s1) := if cfg.service.N1? then (true, s) else Adopt(s, p);
    if ok {
      AdoptedFinJ(cfg, st, m, s1, p, targeted);
    }
  }

  lemma AdoptedFinJ(cfg: Config, st: Stream, m: Mark, s: Slot, p: Packet, targeted: bool)
    requires J(cfg, st, m, s) && targeted == Has(p.hdr.flags, FIN_TARGET_VALID)
    requires Calm(m, s.trace) ==> s.trace.Then? && s.trace.last == Got(p)
    ensures J(cfg, st, m, s.(pendingFin := Some(p.hdr.ack)))
    ensures !targeted || s.win.next == p.hdr.ack ==> J(cfg, st, m, FinFire(cfg, s, p.hdr.ack))
  {
    QuietJ(cfg, st, m, s, s.(pendingFin := Some(p.hdr.ack)));
    if !targeted || s.win.next == p.hdr.ack {
      FinFireJ(cfg, st, m, s, p.hdr.ack);
    }
  }

  lemma OnRejectJ(cfg: Config, st: Stream, m: Mark, s: Slot, p: Packet)
    requires StreamOk(st) && J(cfg, st, m, s)
    ensures J(cfg, st, m, OnReject(cfg, s, p))
  {
    if !cfg.service.Raw? {
      AdoptJ(cfg, st, m, s, p);
      var (ok, s1) := Adopt(s, p);
      DropPathsJ(cfg, st, m, s1);
      var s2 := Skip(DropPaths(s1).(waiting := None), p.hdr.ack);
      assert !Calm(m, s2.trace);
      DrainJ(cfg, st, m, s2);
    }
  }

  // ---------- steps and runs ----------

  /** Packets flagged DATA that carry the session come from the sender and are not too old. */
  predicate Honest(st: Stream, m: Mark, s: Slot, i: Input) {
    i.Recv? && Has(i.p.hdr.flags, DATA) && SessionOf(i.p) == st.origin.session ==>
      FromSender(st, PopCount(s.trace) - m.pops, s.win.Size(), i.p)
  }

  lemma DispatchJ(cfg: Config, st: Stream, m: Mark, s: Slot, p: Packet, path: nat, now: nat)
    requires StreamOk(st) && J(cfg, st, m, s) && path < MAX_PATH && s.trace.Then? && s.trace.last == Got(p)
    requires Calm(m, s.trace) ==> Honest(st, m, s, Recv(p, path, now))
    ensures J(cfg, st, m, Dispatch(cfg, s, p, path, now))
  {
    AdoptJ(cfg, st, m, s, p);
    match KindOf(p)
    case Fin(targeted) => OnFinJ(cfg, st, m, s, p, targeted);
    case Reject => OnRejectJ(cfg, st, m, s, p);
    case Ping => OnPingJ(cfg, st, m, Adopt(s, p).1, p, path, now);
    case Data => if Adopt(s, p).0 { AcceptOuterJ(cfg, st, m, Adopt(s, p).1, p, path, now); }
    case _ =>
  }

  lemma TcpHandleJ(cfg: Config, st: Stream, m: Mark, s: Slot, p: Packet, path: nat, now: nat)
    requires StreamOk(st) && J(cfg, st, m, s) && path < MAX_PATH && s.trace.Then? && s.trace.last == Got(p)
    requires Calm(m, s.trace) ==> Honest(st, m, s, Recv(p, path, now))
    ensures J(cfg, st, m, TcpHandle(cfg, s, p, path))
  {
    if Has(p.hdr.flags, FIN_ACK) {
    } else if Has(p.hdr.flags, FIN) {
      OnFinJ(cfg, st, m, s, p, Has(p.hdr.flags, FIN_TARGET_VALID));
    } else if Has(p.hdr.flags, PING) {
      QuietJ(cfg, st, m, s, ApplyReport(Heard(s, path), p));
      SyncJ(cfg, st, m, ApplyReport(Heard(s, path), p));
    } else if Has(p.hdr.flags, DATA) {
      AdoptJ(cfg, st, m, s, p);
      var (ok, s1) := Adopt(s, p);
      if ok && Accepts(s1.win, p.hdr.number) {
        StoredJ(cfg, st, m, s1, p);
        DrainJ(cfg, st, m, Stored(s1, p));
      }
    }
  }

  lemma HealthJ(cfg: Config, st: Stream, m: Mark, s: Slot, expired: Flags, silent: bool)
    requires J(cfg, st, m, s)
    ensures J(cfg, st, m, Health(cfg, s, expired, silent))
  {
    var pings := Expire(s.pings, expired);
    QuietJ(cfg, st, m, s, s.(pings := pings));
    SyncJ(cfg, st, m, s.(pings := pings));
    var s1 := if pings == s.pings then s else Sync(cfg, s.(pings := pings));
    SilentJ(cfg, st, m, s1);
  }

  lemma SilentJ(cfg: Config, st: Stream, m: Mark, s: Slot)
    requires J(cfg, st, m, s)
    ensures J(cfg, st, m, Disconnect(s.(remote := NO_PINGS)).(active := false))
    ensures J(cfg, st, m, Restart(Forget(DropPaths(s).(pendingFin := None, waiting := None)), 0))
  {
    QuietJ(cfg, st, m, s, s.(remote := NO_PINGS));
    DropPathsJ(cfg, st, m, s.(remote := NO_PINGS));
    DropPathsJ(cfg, st, m, s);
    ForgetJ(cfg, st, m, DropPaths(s));
  }

  lemma PollJ(cfg: Config, st: Stream, m: Mark, s: Slot, now: nat)
    requires J(cfg, st, m, s)
    ensures J(cfg, st, m, Poll(cfg, s, now))
  {
    if s.waiting.Some? {
      GapReadyJ(cfg, st, m, s, s.waiting.value.0, now);
      var s1 := GapReady(cfg, s, s.waiting.value.0, now).1;
      DropPathsJ(cfg, st, m, s1);
      assert !Calm(m, Forget(RawDisconnect(s1)).trace);
    }
  }

  lemma StepJ(cfg: Config, st: Stream, m: Mark, s: Slot, i: Input)
    requires StreamOk(st) && J(cfg, st, m, s) && ValidInput(i) && Honest(st, m, s, i)
    ensures J(cfg, st, m, Step(cfg, s, i))
  {
    match i
    case Recv(p, path, now) =>
      QuietJ(cfg, st, m, s, Emit(s, Got(p)));
      DispatchJ(cfg, st, m, Emit(s, Got(p)), p, path, now);
      TcpHandleJ(cfg, st, m, Emit(s, Got(p)), p, path, now);
    case HealthCheck(expired, silent) => HealthJ(cfg, st, m, s, expired, silent);
    case PollTimer(now) => PollJ(cfg, st, m, s, now);
    case Link(linked) => QuietJ(cfg, st, m, s, s.(linked := linked));
    case AppDisconnect => DropPathsJ(cfg, st, m, s);
  }

  predicate HonestRun(cfg: Config, st: Stream, m: Mark, s: Slot, inputs: seq<Input>) {
    && (forall i :: 0 <= i < |inputs| ==> ValidInput(inputs[i]))
    && (forall i :: 0 <= i < |inputs| ==> Honest(st, m, Run(cfg, s, inputs[..i]), inputs[i]))
  }

  lemma {:induction false} RunJ(cfg: Config, st: Stream, m: Mark, s: Slot, inputs: seq<Input>)
    requires StreamOk(st) && J(cfg, st, m, s) && HonestRun(cfg, st, m, s, inputs)
    ensures J(cfg, st, m, Run(cfg, s, inputs))
  {
    if inputs != [] {
      var n := |inputs| - 1;
      assert forall i :: 0 <= i < n ==> inputs[..n][..i] == inputs[..i];
      RunJ(cfg, st, m, s, inputs[..n]);
      StepJ(cfg, st, m, Run(cfg, s, inputs[..n]), inputs[n]);
    }
  }

}
