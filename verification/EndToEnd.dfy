/** The whole pipeline: messages, fragments, containers, numbers, an unreliable network, the receiving slot,
    messages again. */
module EndToEnd {
  import opened SeqNum
  import opened Packets
  import opened Windows
  import opened Wire
  import opened Sessions
  import opened Traces
  import opened PathEvents
  import opened Fragments
  import opened Receiver
  import opened Outgoing
  import opened StreamInvariant
  import ReceiverRuns

  // ---------- where a stream starts ----------

  /** A connected slot that follows the sender and whose empty window is about to see the first packet. */
  predicate Ready(st: Stream, s: Slot) {
    && s.alive && s.followed == Some(st.origin.session) && s.frag.buf == []
    && s.win == Init(st.first, s.win.Size())
  }

  /** The first packet of the stream is the first contact with the session. One-way and RAW slots become connected
      by it; TCP and bidirectional slots must be connected already. */
  predicate FirstContact(cfg: Config, st: Stream, s: Slot, i: Input) {
    && st.packets != [] && i.Recv? && i.path < MAX_PATH && i.p == st.packets[0]
    && s.active && Judge(s.followed, st.origin.session).New? && !cfg.service.N1?
    && (cfg.service.Tcp? || cfg.service.Bidir? ==> s.alive)
  }

  /** The inputs that bring the first packet where that is the first contact; none where a PING was. */
  predicate Opens(cfg: Config, st: Stream, s: Slot, opening: seq<Input>) {
    || (opening == [] && Ready(st, s))
    || (|opening| == 1 && FirstContact(cfg, st, s, opening[0]) && s.frag.buf == [])
  }

  /** The stream starts in `s` and has started in `r`. */
  function MarkAt(s: Slot, r: Slot): Mark {
    Mark(s.frag, Length(r.trace), Losses(r.trace), PopCount(s.trace), Messages(s.trace))
  }

  lemma {:induction false} NoFinYet(m: Mark, t: Trace)
    requires Length(t) <= m.at
    ensures AtFin(m, t) == None
  {
    if t.Then? {
      NoFinYet(m, t.before);
    }
  }

  lemma StartJ(cfg: Config, st: Stream, s: Slot, r: Slot)
    requires Progress(cfg, st, MarkAt(s, r), r)
    ensures J(cfg, st, MarkAt(s, r), r)
  {
    NoFinYet(MarkAt(s, r), r.trace);
  }

  lemma ReadyStarts(cfg: Config, st: Stream, s: Slot)
    requires StreamOk(st) && Ready(st, s)
    ensures J(cfg, st, MarkAt(s, s), s)
  {
    assert Progress(cfg, st, MarkAt(s, s), s);
    StartJ(cfg, st, s, s);
  }

  /** A slot that has just adopted the session of the first packet and stored it. */
  predicate Loaded(st: Stream, s: Slot) {
    && st.packets != [] && s.alive && s.followed == Some(st.origin.session) && s.pendingFin == None
    && s.win.next == st.first && Holds(st, 0, s.win) && CanPop(s.win)
  }

  lemma StoresFirst(st: Stream, s: Slot)
    requires StreamOk(st) && st.packets != [] && s.win == Init(st.first, s.win.Size())
    ensures Accepts(s.win, st.packets[0].hdr.number) && st.packets[0].hdr.number == st.first
    ensures var r := Stored(s, st.packets[0]);
            r.win.next == st.first && Holds(st, 0, r.win) && !HasGap(r.win) && CanPop(r.win)
  {
    assert CarriesAt(st, 0);
    StepRoundTrip(st.first, 0);
  }

  lemma {:induction false} PopAllProgress(cfg: Config, st: Stream, m: Mark, s: Slot)
    requires StreamOk(st) && Progress(cfg, st, m, s)
    ensures Progress(cfg, st, m, PopAll(cfg, s)) && PopAll(cfg, s).pendingFin == s.pendingFin
    ensures PopCount(PopAll(cfg, s).trace) >= PopCount(s.trace) + if CanPop(s.win) then 1 else 0
    ensures Losses(PopAll(cfg, s).trace) == Losses(s.trace)
    decreases Leading(s.win.slots)
  {
    if CanPop(s.win) {
      PopShortens(cfg, s);
      PopOneCalm(cfg, st, m, s);
      PopCounts(cfg, st, m, s);
      var p := s.win.slots[0].value;
      RecvOpsKeepOk(s.win, p);
      var ping := Has(p.hdr.flags, PING) && !cfg.service.Tcp?;
      DeliverAllKeeps(cfg, Emit(s.(win := Consume(s.win)), Popped(p.hdr.number, s.alive && !ping)), UnpackFrom(p.payload, 0));
      PopAllProgress(cfg, st, m, PopOne(cfg, s));
    }
  }

  lemma PopCounts(cfg: Config, st: Stream, m: Mark, s: Slot)
    requires StreamOk(st) && Progress(cfg, st, m, s) && CanPop(s.win)
    ensures PopCount(PopOne(cfg, s).trace) == PopCount(s.trace) + 1 && Losses(PopOne(cfg, s).trace) == Losses(s.trace)
  {
    var n := PopCount(s.trace) - m.pops;
    assert n + 0 < |st.packets|;
    PopDelivers(cfg, st, s, n);
    var s1 := Emit(s.(win := Consume(s.win)), Popped(s.win.next, true));
    DeliverAllFeeds(cfg, s1, st.containers[n]);
  }

  /** The first packet is popped and delivered in the step that brings it. */
  lemma LoadedDrains(cfg: Config, st: Stream, m: Mark, s: Slot, now: nat)
    requires StreamOk(st) && Loaded(st, s)
    requires m.frag == s.frag && m.pops == PopCount(s.trace) && m.said == Messages(s.trace)
    ensures var r := Drain(cfg, s); Progress(cfg, st, m, r) && PopCount(r.trace) > PopCount(s.trace) && Losses(r.trace) == Losses(s.trace)
    ensures var r := GapAfterDrain(cfg, Drain(cfg, s), now);
            Progress(cfg, st, m, r) && PopCount(r.trace) > PopCount(s.trace) && Losses(r.trace) == Losses(s.trace)
  {
    LoadedProgress(cfg, st, m, s);
    PopAllProgress(cfg, st, m, s);
    var r := PopAll(cfg, s);
    assert Drain(cfg, s) == r;
    AfterDrainQuiet(cfg, m, r, now);
    ProgressQuiet(cfg, st, m, r, GapAfterDrain(cfg, r, now));
  }

  lemma LoadedProgress(cfg: Config, st: Stream, m: Mark, s: Slot)
    requires StreamOk(st) && Loaded(st, s)
    requires m.frag == s.frag && m.pops == PopCount(s.trace) && m.said == Messages(s.trace)
    ensures Progress(cfg, st, m, s)
  {
  }

  lemma ProgressQuiet(cfg: Config, st: Stream, m: Mark, s: Slot, r: Slot)
    requires Progress(cfg, st, m, s) && Quiet(m, s, r)
    ensures Progress(cfg, st, m, r)
  {
  }

  lemma AfterDrainQuiet(cfg: Config, m: Mark, s: Slot, now: nat)
    ensures Quiet(m, s, GapAfterDrain(cfg, s, now))
  {
    GapReadyQuiet(cfg, m, s, s.win.next, now);
  }

  lemma AdoptFirst(st: Stream, s: Slot, p: Packet)
    requires Judge(s.followed, SessionOf(p)).New?
    ensures var (ok, r) := Adopt(s, p);
            && ok && r.win == Init(p.hdr.number, r.win.Size()) && r.followed == Some(SessionOf(p))
            && r.pendingFin == None && r.frag == s.frag && r.alive == s.alive && r.active == s.active
            && PopCount(r.trace) == PopCount(s.trace) && Messages(r.trace) == Messages(s.trace)
            && Losses(r.trace) == Losses(s.trace) + if s.followed.Some? then 1 else 0
  {
    var s1 := if s.followed.Some? then Emit(s, Switched) else s;
    assert Losses(s1.trace) == Losses(s.trace) + if s.followed.Some? then 1 else 0;
    assert PopCount(s1.trace) == PopCount(s.trace) && Messages(s1.trace) == Messages(s.trace);
  }

  lemma HeardIsAlive(cfg: Config, m: Mark, s: Slot, path: nat)
    requires path < MAX_PATH && !cfg.service.Tcp? && (cfg.service.Bidir? || cfg.service.N1? ==> s.alive)
    ensures var r := HeardData(cfg, s, path);
            && r.alive && r.win == s.win && r.frag == s.frag && r.followed == s.followed && r.pendingFin == s.pendingFin
            && PopCount(r.trace) == PopCount(s.trace) && Messages(r.trace) == Messages(s.trace)
            && Losses(r.trace) == Losses(s.trace)
  {
    if !cfg.service.Bidir? && !cfg.service.N1? {
      var s1 := Heard(s, path);
      ReceiverRuns.SyncAlive(cfg, s1, path);
      var next := [PathUp(cfg, s1, 0), PathUp(cfg, s1, 1), PathUp(cfg, s1, 2), PathUp(cfg, s1, 3)];
      DiffQuiet(m, s1.trace, s1.logical, next, MAX_PATH);
    }
  }

  /** A slot that has adopted the session and waits for its first packet, with the mark at its start. */
  predicate Adopted(st: Stream, m: Mark, s: Slot) {
    && s.followed == Some(st.origin.session) && s.win == Init(st.first, s.win.Size()) && s.pendingFin == None
    && m.frag == s.frag && m.pops == PopCount(s.trace) && m.said == Messages(s.trace)
  }

  lemma AcceptFirst(cfg: Config, st: Stream, m: Mark, s: Slot, path: nat, now: nat)
    requires StreamOk(st) && st.packets != [] && Adopted(st, m, s) && path < MAX_PATH
    requires !cfg.service.Tcp? && (cfg.service.Bidir? || cfg.service.N1? ==> s.alive) && s.active
    ensures var r := AcceptOuter(cfg, s, st.packets[0], path, now);
            Progress(cfg, st, m, r) && PopCount(r.trace) > PopCount(s.trace) && Losses(r.trace) == Losses(s.trace)
  {
    var p := st.packets[0];
    StoresFirst(st, s);
    var s3 := Stored(s, p).(waiting := None);
    assert GapBeforeDrain(cfg, Stored(s, p), p, now) == s3;
    HeardIsAlive(cfg, m, s3, path);
    LoadedDrains(cfg, st, m, HeardData(cfg, s3, path), now);
  }

  lemma TcpFirst(cfg: Config, st: Stream, m: Mark, s: Slot)
    requires StreamOk(st) && st.packets != [] && Adopted(st, m, s) && s.alive
    ensures Accepts(s.win, st.packets[0].hdr.number)
    ensures var r := Drain(cfg, Stored(s, st.packets[0]));
            Progress(cfg, st, m, r) && PopCount(r.trace) > PopCount(s.trace) && Losses(r.trace) == Losses(s.trace)
  {
    StoresFirst(st, s);
    LoadedDrains(cfg, st, m, Stored(s, st.packets[0]), 0);
  }

  /** First contact: the packet goes to a window just started at its number. */
  lemma FirstStep(cfg: Config, s: Slot, p: Packet, path: nat, now: nat)
    requires path < MAX_PATH && s.active && !cfg.service.N1? && p.hdr.flags == DATA
    requires Judge(s.followed, SessionOf(p)).New?
    ensures var s1 := Adopt(Emit(s, Got(p)), p).1;
            Step(cfg, s, Recv(p, path, now))
            == if !cfg.service.Tcp? then AcceptOuter(cfg, s1, p, path, now)
               else if Accepts(s1.win, p.hdr.number) then Drain(cfg, Stored(s1, p)) else s1
  {
  }

  lemma FirstContactStarts(cfg: Config, st: Stream, m: Mark, s: Slot, i: Input)
    requires StreamOk(st) && FirstContact(cfg, st, s, i)
    requires m.frag == s.frag && m.pops == PopCount(s.trace) && m.said == Messages(s.trace)
    ensures var r := Step(cfg, s, i);
            && Progress(cfg, st, m, r) && PopCount(r.trace) > PopCount(s.trace)
            && Losses(r.trace) == Losses(s.trace) + if s.followed.Some? then 1 else 0
  {
    assert CarriesAt(st, 0);
    var s0 := Emit(s, Got(i.p));
    AdoptFirst(st, s0, i.p);
    var s1 := Adopt(s0, i.p).1;
    assert Adopted(st, m, s1);
    FirstStep(cfg, s, i.p, i.path, i.now);
    if cfg.service.Tcp? {
      TcpFirst(cfg, st, m, s1);
    } else {
      AcceptFirst(cfg, st, m, s1, i.path, i.now);
    }
  }

  // ---------- a PING starts a stream ----------

  /** A PING that makes the slot connected: on a bidirectional service it must report its path NORMAL. */
  predicate ConnectingPing(cfg: Config, st: Stream, s: Slot, p: Packet, path: nat) {
    && path < MAX_PATH && KindOf(p).Ping? && SessionOf(p) == st.origin.session && p.hdr.number == st.first
    && !cfg.service.Tcp? && s.active
    && (cfg.service.Raw? || cfg.service.Oneway? || (|p.payload| >= MAX_PATH && p.payload[path] == NORMAL))
  }

  /** First contact by PING, or the PING that created the N:1 peer: the slot is ready for the stream that goes on
      from the PING's number. So ready slots are reached from every service just opened, except over TCP, where
      PINGs do not start a window and the first DATA is the first contact. */
  lemma PingMakesReady(cfg: Config, st: Stream, s: Slot, p: Packet, path: nat, now: nat)
    requires ConnectingPing(cfg, st, s, p, path)
    requires if cfg.service.N1? then s.followed == Some(st.origin.session) && s.win == Init(st.first, s.win.Size())
             else Judge(s.followed, st.origin.session).New?
    requires s.frag.buf == []
    ensures Ready(st, Step(cfg, s, Recv(p, path, now)))
  {
    var s0 := Emit(s, Got(p));
    if cfg.service.N1? {
      VerdictIsOrder(s.followed.value, SessionOf(p));
    } else {
      AdoptFirst(st, s0, p);
    }
    var s1 := Adopt(s0, p).1;
    PingConnects(cfg, st, s1, p, path, now);
  }

  lemma PingConnects(cfg: Config, st: Stream, s: Slot, p: Packet, path: nat, now: nat)
    requires ConnectingPing(cfg, st, s, p, path) && s.followed == Some(st.origin.session)
    requires s.win == Init(st.first, s.win.Size())
    ensures Reconnected(s, OnPing(cfg, s, p, path, now))
  {
    var s1 := ApplyReport(Heard(s, path), p);
    assert PathUp(cfg, s1, path);
    if cfg.service.Raw? {
      assert ScanPing(cfg, s1, p, now) == s1.(waiting := None);
      SyncConnects(cfg, s1.(waiting := None), path);
    } else {
      SyncConnects(cfg, s1, path);
      PingAtNext(cfg, Sync(cfg, s1), p, now);
    }
  }

  /** Connected, and otherwise as before for what is delivered. */
  predicate Reconnected(s: Slot, r: Slot) {
    && r.alive && r.win == s.win && r.followed == s.followed && r.frag == s.frag && r.pendingFin == s.pendingFin
    && r.active == s.active && PopCount(r.trace) == PopCount(s.trace) && Messages(r.trace) == Messages(s.trace)
  }

  lemma SyncConnects(cfg: Config, s: Slot, path: nat)
    requires path < MAX_PATH && PathUp(cfg, s, path)
    ensures Reconnected(s, Sync(cfg, s))
  {
    ReceiverRuns.SyncAlive(cfg, s, path);
    var next := [PathUp(cfg, s, 0), PathUp(cfg, s, 1), PathUp(cfg, s, 2), PathUp(cfg, s, 3)];
    DiffQuiet(Mark(NO_FRAG, 0, 0, 0, []), s.trace, s.logical, next, MAX_PATH);
  }

  /** A PING at the number due finds no gap. */
  lemma PingAtNext(cfg: Config, s: Slot, p: Packet, now: nat)
    requires p.hdr.number == s.win.next && !cfg.service.Raw?
    ensures var r := ScanPing(cfg, s, p, now); r == s || r == s.(waiting := None)
  {
  }

  // ---------- the theorems ----------

  lemma {:induction false} RunConcat(cfg: Config, s: Slot, a: seq<Input>, b: seq<Input>)
    requires ReceiverRuns.ValidInputs(a) && ReceiverRuns.ValidInputs(b)
    ensures ReceiverRuns.ValidInputs(a + b) && Run(cfg, s, a + b) == Run(cfg, Run(cfg, s, a), b)
  {
    if b == [] {
      assert a + b == a;
    } else {
      var n := |b| - 1;
      assert (a + b)[..|a + b| - 1] == a + b[..n];
      RunConcat(cfg, s, a, b[..n]);
    }
  }

  lemma RunOne(cfg: Config, s: Slot, i: Input)
    requires ValidInput(i)
    ensures Run(cfg, s, [i]) == Step(cfg, s, i)
  {
    assert Run(cfg, s, [i][..0]) == s;
  }

  lemma OpeningStarts(cfg: Config, st: Stream, s: Slot, opening: seq<Input>)
    requires StreamOk(st) && Opens(cfg, st, s, opening)
    ensures ReceiverRuns.ValidInputs(opening)
    ensures var r := Run(cfg, s, opening); J(cfg, st, MarkAt(s, r), r)
  {
    if opening == [] {
      ReadyStarts(cfg, st, s);
    } else {
      var i := opening[0];
      assert opening == [i];
      RunOne(cfg, s, i);
      var r := Step(cfg, s, i);
      FirstContactStarts(cfg, st, MarkAt(s, r), s, i);
      StartJ(cfg, st, s, r);
    }
  }

  /** What reaches the slot after the opening flagged DATA under the sender's session is the sender's. */
  predicate Faithful(cfg: Config, st: Stream, s: Slot, opening: seq<Input>, inputs: seq<Input>)
    requires ReceiverRuns.ValidInputs(opening)
  {
    var r := Run(cfg, s, opening);
    HonestRun(cfg, st, MarkAt(s, r), r, inputs)
  }

  /** End to end: for every list of messages, every way of packing their elements into containers, and every
      loss, duplication, delay and reordering of packets, mixed with any other packets and timeouts, on every
      kind of service, from any slot in which the stream starts with a PING or with its first packet: as long as
      the slot stays connected in one session, what it delivers is a prefix of the messages sent, byte for byte. */
  lemma DeliveredIsPrefixOfSent(cfg: Config, st: Stream, chunk: nat, ms: seq<Sent>,
                                s: Slot, opening: seq<Input>, inputs: seq<Input>)
    requires Lawful(cfg.codec) && 0 < chunk && AllValid(cfg.codec, cfg.maxMessage, ms)
    requires StreamOk(st) && Flat(st, |st.containers|) <= Elements(cfg.codec, cfg.maxMessage, chunk, ms)
    requires Opens(cfg, st, s, opening) && ReceiverRuns.ValidInputs(opening) && Faithful(cfg, st, s, opening, inputs)
    ensures var r := Run(cfg, Run(cfg, s, opening), inputs);
            Losses(r.trace) == Losses(Run(cfg, s, opening).trace) ==>
              && Messages(s.trace) <= Messages(r.trace)
              && Messages(r.trace)[|Messages(s.trace)|..] <= Datas(ms)
  {
    OpeningStarts(cfg, st, s, opening);
    var r1 := Run(cfg, s, opening);
    var m := MarkAt(s, r1);
    RunJ(cfg, st, m, r1, inputs);
    PrefixAt(cfg, st, chunk, ms, m, Run(cfg, r1, inputs));
  }

  lemma PrefixAt(cfg: Config, st: Stream, chunk: nat, ms: seq<Sent>, m: Mark, r: Slot)
    requires Lawful(cfg.codec) && 0 < chunk && AllValid(cfg.codec, cfg.maxMessage, ms) && m.frag.buf == []
    requires StreamOk(st) && Flat(st, |st.containers|) <= Elements(cfg.codec, cfg.maxMessage, chunk, ms)
    requires J(cfg, st, m, r)
    ensures Calm(m, r.trace) ==> m.said <= Messages(r.trace) && Messages(r.trace)[|m.said|..] <= Datas(ms)
  {
    if Calm(m, r.trace) {
      var n := PopCount(r.trace) - m.pops;
      FlatPrefix(st, n, |st.containers|);
      PrefixOfMessages(cfg.codec, cfg.maxMessage, chunk, m.frag, ms, Flat(st, n));
      var ds := FeedAll(cfg.codec, cfg.maxMessage, m.frag, Flat(st, n)).1;
      assert (m.said + ds)[|m.said|..] == ds;
    }
  }

  /** Graceful close: when everything was sent and the FIN carrying the number after the last packet takes effect
      on a connection that was calm until then, every message has been delivered, in order and byte for byte. The
      FIN is not fooled by the wrap as long as the slot is less than 2^32 packets behind. */
  lemma NothingLostAtFin(cfg: Config, st: Stream, chunk: nat, ms: seq<Sent>,
                         s: Slot, opening: seq<Input>, inputs: seq<Input>)
    requires Lawful(cfg.codec) && 0 < chunk && AllValid(cfg.codec, cfg.maxMessage, ms)
    requires StreamOk(st) && Flat(st, |st.containers|) == Elements(cfg.codec, cfg.maxMessage, chunk, ms)
    requires Opens(cfg, st, s, opening) && ReceiverRuns.ValidInputs(opening) && Faithful(cfg, st, s, opening, inputs)
    ensures var r1 := Run(cfg, s, opening);
            var fin := AtFin(MarkAt(s, r1), Run(cfg, r1, inputs).trace);
            && fin.Some? && !BareFin(fin.value.before) && fin.value.last.target == Number(st.first, |st.packets|)
            && |st.packets| < PopCount(fin.value.before) - PopCount(s.trace) + U32_MOD
            ==> Messages(fin.value.before) == Messages(s.trace) + Datas(ms)
  {
    OpeningStarts(cfg, st, s, opening);
    var r1 := Run(cfg, s, opening);
    var m := MarkAt(s, r1);
    RunJ(cfg, st, m, r1, inputs);
    var fin := AtFin(m, Run(cfg, r1, inputs).trace);
    if fin.Some? && !BareFin(fin.value.before) && fin.value.last.target == Number(st.first, |st.packets|) {
      CompleteAt(cfg, st, chunk, ms, m, fin.value);
    }
  }

  lemma CompleteAt(cfg: Config, st: Stream, chunk: nat, ms: seq<Sent>, m: Mark, t: Trace)
    requires Lawful(cfg.codec) && 0 < chunk && AllValid(cfg.codec, cfg.maxMessage, ms) && m.frag.buf == []
    requires StreamOk(st) && Flat(st, |st.containers|) == Elements(cfg.codec, cfg.maxMessage, chunk, ms)
    requires t.Then? && t.last.FinFired? && Ended(cfg, st, m, t) && !BareFin(t.before)
    requires t.last.target == Number(st.first, |st.packets|)
    ensures |st.packets| < PopCount(t.before) - m.pops + U32_MOD ==> Messages(t.before) == m.said + Datas(ms)
  {
    if |st.packets| < PopCount(t.before) - m.pops + U32_MOD {
      SameNumber(st.first, PopCount(t.before) - m.pops, |st.packets|);
      ReassemblyInverts(cfg.codec, cfg.maxMessage, chunk, m.frag, ms);
    }
  }

  lemma {:induction false} FlatPrefix(st: Stream, m: nat, n: nat)
    requires m <= n <= |st.containers|
    ensures Flat(st, m) <= Flat(st, n)
  {
    if m < n {
      FlatPrefix(st, m, n - 1);
    }
  }

  /** Both, for every run of a service just opened: whatever happened `before`, also earlier sessions, losses and
      messages. */
  lemma StreamsInEveryRun(cfg: Config, st: Stream, chunk: nat, ms: seq<Sent>,
                          s0: Slot, before: seq<Input>, opening: seq<Input>, inputs: seq<Input>)
    requires ReceiverRuns.Initial(cfg, s0) && ReceiverRuns.ValidInputs(before)
    requires Lawful(cfg.codec) && 0 < chunk && AllValid(cfg.codec, cfg.maxMessage, ms)
    requires StreamOk(st) && Flat(st, |st.containers|) <= Elements(cfg.codec, cfg.maxMessage, chunk, ms)
    requires Opens(cfg, st, Run(cfg, s0, before), opening) && ReceiverRuns.ValidInputs(opening)
    requires Faithful(cfg, st, Run(cfg, s0, before), opening, inputs)
    ensures ReceiverRuns.ValidInputs(before + opening) && ReceiverRuns.ValidInputs(before + opening + inputs)
    ensures var s := Run(cfg, s0, before);
            var r1 := Run(cfg, s0, before + opening);
            var r := Run(cfg, s0, before + opening + inputs);
            && CallbacksOk(r.trace) && NoSilentGap(r.trace)
            && (Losses(r.trace) == Losses(r1.trace) ==>
                  && Messages(s.trace) <= Messages(r.trace)
                  && Messages(r.trace)[|Messages(s.trace)|..] <= Datas(ms))
            && var fin := AtFin(MarkAt(s, r1), r.trace);
               (&& Flat(st, |st.containers|) == Elements(cfg.codec, cfg.maxMessage, chunk, ms)
                && fin.Some? && !BareFin(fin.value.before) && fin.value.last.target == Number(st.first, |st.packets|)
                && |st.packets| < PopCount(fin.value.before) - PopCount(s.trace) + U32_MOD
                ==> Messages(fin.value.before) == Messages(s.trace) + Datas(ms))
  {
    var s := Run(cfg, s0, before);
    RunConcat(cfg, s0, before, opening);
    RunConcat(cfg, s0, before + opening, inputs);
    ReceiverRuns.CallbacksInEveryRun(cfg, s0, before + opening + inputs);
    ReceiverRuns.NoSilentGapInEveryRun(cfg, s0, before + opening + inputs);
    DeliveredIsPrefixOfSent(cfg, st, chunk, ms, s, opening, inputs);
    if Flat(st, |st.containers|) == Elements(cfg.codec, cfg.maxMessage, chunk, ms) {
      NothingLostAtFin(cfg, st, chunk, ms, s, opening, inputs);
    }
  }
}
