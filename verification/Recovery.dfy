/** One recovery round on a 1:1 slot without reorder wait: a PING reveals what is missing, the sender can resend
    all of it, and the resent packets, in any order, bring the window up to the PING. */
module Recovery {
  import opened SeqNum
  import opened Packets
  import opened Windows
  import opened WindowRuns
  import opened Wire
  import opened Sessions
  import opened Traces
  import opened PathEvents
  import opened Receiver
  import opened Outgoing
  import opened Senders

  // ---------- the PING asks for exactly what is missing ----------

  function NacksIn(t: Trace): seq<u32> {
    match t
    case Nothing => []
    case Then(b, NackSent(n)) => NacksIn(b) + [n]
    case Then(b, _) => NacksIn(b)
  }

  /** The missing numbers at offsets `d` to `m`, ascending. */
  function Missing(w: Win, d: nat, m: nat): seq<u32>
    requires m <= w.Size()
    decreases m - d
  {
    if d >= m then []
    else (if w.slots[d].None? then [Wrap(w.base + d)] else []) + Missing(w, d + 1, m)
  }

  predicate Immediate(cfg: Config) {
    cfg.reorderMs == 0 && (cfg.service.Oneway? || cfg.service.Bidir?)
  }

  /** How far the scan of a slot looks for a PING with this number. */
  function Reach(w: Win, target: u32): nat {
    Min(Distance(target, w.base), w.Size())
  }

  /** One number of the scan. */
  lemma ScanTurn(cfg: Config, s: Slot, d: nat, target: u32, now: nat) returns (r: Slot)
    requires Immediate(cfg) && d < Reach(s.win, target)
    ensures Scan(cfg, s, d, target, now) == Scan(cfg, r, d + 1, target, now) && r == s.(trace := r.trace)
    ensures var m := Reach(s.win, target);
            NacksIn(r.trace) + Missing(s.win, d + 1, m) == NacksIn(s.trace) + Missing(s.win, d, m)
  {
    var number := Wrap(s.win.base + d);
    ScanNumber(s.win.base, d, s.win.Size());
    ScanUnfold(cfg, s, d, number, target, now);
    if s.win.slots[d].Some? {
      r := s;
    } else {
      NackAppends(cfg, s, number, now);
      r := NackIfReady(cfg, s, number, now);
      Associate(NacksIn(s.trace), number, Missing(s.win, d + 1, Reach(s.win, target)));
    }
  }

  lemma {:induction false} ScanNacksMissing(cfg: Config, s: Slot, d: nat, target: u32, now: nat)
    requires Immediate(cfg) && d <= Reach(s.win, target)
    ensures NacksIn(Scan(cfg, s, d, target, now).trace) == NacksIn(s.trace) + Missing(s.win, d, Reach(s.win, target))
    ensures var r := Scan(cfg, s, d, target, now); r == s.(waiting := r.waiting, trace := r.trace)
    decreases Reach(s.win, target) - d
  {
    if d == Reach(s.win, target) {
      ScanNumber(s.win.base, d, s.win.Size());
      DistanceRoundTrip(target, s.win.base);
      ScanEnd(cfg, s, d, Wrap(s.win.base + d), target, now);
      assert NacksIn(s.trace) + [] == NacksIn(s.trace);
    } else {
      var r := ScanTurn(cfg, s, d, target, now);
      ScanNacksMissing(cfg, r, d + 1, target, now);
    }
  }

  lemma Associate(a: seq<u32>, x: u32, b: seq<u32>)
    ensures a + [x] + b == a + ([x] + b)
  {
  }

  lemma NackAppends(cfg: Config, s: Slot, number: u32, now: nat)
    requires Immediate(cfg)
    ensures var r := NackIfReady(cfg, s, number, now);
            && GapReady(cfg, s, number, now).0 && r == Emit(GapReady(cfg, s, number, now).1, NackSent(number))
            && NacksIn(r.trace) == NacksIn(s.trace) + [number] && r == s.(trace := r.trace)
  {
    assert NacksIn(GapReady(cfg, s, number, now).1.trace) == NacksIn(s.trace);
  }

  lemma {:induction false} DiffNoNacks(t: Trace, was: Flags, next: Flags, n: nat)
    requires n <= MAX_PATH
    ensures NacksIn(Diff(t, was, next, n)) == NacksIn(t)
  {
    if n > 0 {
      DiffNoNacks(t, was, next, n - 1);
    }
  }

  lemma SyncNoNacks(cfg: Config, s: Slot)
    ensures NacksIn(Sync(cfg, s).trace) == NacksIn(s.trace)
  {
    DiffNoNacks(s.trace, s.logical, Sync(cfg, s).logical, MAX_PATH);
  }

  /** A PING makes the slot NACK, in order, exactly the missing numbers before its own if that is at forward
      distance at most the window size; a PING from anywhere else, such as a delayed one from behind the window,
      makes it NACK everything missing in the whole window. The window is left alone. */
  lemma PingNacksMissing(cfg: Config, s: Slot, p: Packet, path: nat, now: nat)
    requires Immediate(cfg) && path < MAX_PATH
    ensures var r := OnPing(cfg, s, p, path, now);
            && NacksIn(r.trace) == NacksIn(s.trace) + Missing(s.win, 0, Min(Distance(p.hdr.number, s.win.next), s.win.Size()))
            && r.win == s.win && r.pendingFin == s.pendingFin && r.followed == s.followed && r.active == s.active
  {
    var s1 := Sync(cfg, ApplyReport(Heard(s, path), p));
    SyncNoNacks(cfg, ApplyReport(Heard(s, path), p));
    ScanNacksMissing(cfg, s1, 0, p.hdr.number, now);
  }

  // ---------- storing and draining, as the window sees it ----------

  function PopWin(w: Win): Win
    requires RecvOk(w)
    decreases Leading(w.slots)
  {
    if CanPop(w) then
      RecvOpsKeepOk(w, w.slots[0].value);
      LeadingAppend(w.slots[1..]);
      PopWin(Consume(w))
    else w
  }

  lemma {:induction false} PopAllWin(cfg: Config, s: Slot)
    ensures var r := PopAll(cfg, s);
            r.win == PopWin(s.win) && r.pendingFin == s.pendingFin && r.followed == s.followed && r.active == s.active
    decreases Leading(s.win.slots)
  {
    if CanPop(s.win) {
      PopShortens(cfg, s);
      PopOneKeepsRest(cfg, s);
      PopAllWin(cfg, PopOne(cfg, s));
    }
  }

  lemma PopOneKeepsRest(cfg: Config, s: Slot)
    requires CanPop(s.win)
    ensures var r := PopOne(cfg, s); r.pendingFin == s.pendingFin && r.followed == s.followed && r.active == s.active
  {
    RecvOpsKeepOk(s.win, s.win.slots[0].value);
    var p := s.win.slots[0].value;
    var ping := Has(p.hdr.flags, PING) && !cfg.service.Tcp?;
    DeliverAllKeeps(cfg, Emit(s.(win := Consume(s.win)), Event.Popped(p.hdr.number, s.alive && !ping)), UnpackFrom(p.payload, 0));
  }

  /** What a DATA packet of the followed session does to the window of such a slot. */
  function Absorb(w: Win, p: Packet): Win
    requires RecvOk(w)
  {
    RecvOpsKeepOk(w, p);
    if Accepts(w, p.hdr.number) then PopWin(RecvPush(w, p)) else w
  }

  predicate Awaiting(s: Slot) {
    s.active && s.followed.Some? && s.pendingFin.None?
  }

  /** What neither storing nor asking for packets changes. */
  predicate SameRest(s: Slot, r: Slot) {
    r.win == s.win && r.pendingFin == s.pendingFin && r.followed == s.followed && r.active == s.active
  }

  /** The FIN took effect: disconnected, and the session forgotten or the N:1 slot released. */
  predicate FinTookEffect(cfg: Config, r: Slot) {
    !r.alive && r.pendingFin == None && if cfg.service.N1? then !r.active else r.followed == None
  }

  lemma GapsKeepRest(cfg: Config, s: Slot, p: Packet, now: nat)
    requires !cfg.service.Raw?
    ensures SameRest(s, GapBeforeDrain(cfg, s, p, now)) && SameRest(s, GapAfterDrain(cfg, s, now))
    ensures s.alive == GapBeforeDrain(cfg, s, p, now).alive == GapAfterDrain(cfg, s, now).alive
  {
  }

  /** Draining pops everything in sequence; a pending FIN takes effect exactly when that reaches its target. */
  lemma DrainOrFin(cfg: Config, s: Slot)
    ensures var r, w := Drain(cfg, s), PopWin(s.win);
            if s.pendingFin == Some(w.next) then FinTookEffect(cfg, r) && (!cfg.service.N1? ==> r.win == Init(0, w.Size()))
            else r.win == w && r.pendingFin == s.pendingFin && r.followed == s.followed && r.active == s.active
  {
    PopAllWin(cfg, s);
  }

  /** A DATA packet acts on the window as storing it and popping everything in sequence, on any UDP service that is
      not RAW, with or without a reorder wait; a pending FIN takes effect exactly when its target is then reached. */
  lemma AcceptAbsorbs(cfg: Config, s: Slot, p: Packet, path: nat, now: nat)
    requires !cfg.service.Raw? && !cfg.service.Tcp? && path < MAX_PATH && s.active
    ensures var r, w := AcceptOuter(cfg, s, p, path, now), Absorb(s.win, p);
            if Accepts(s.win, p.hdr.number) && s.pendingFin == Some(w.next) then FinTookEffect(cfg, r)
            else r.win == w && r.pendingFin == s.pendingFin && r.followed == s.followed && r.active
  {
    if Accepts(s.win, p.hdr.number) {
      GapsKeepRest(cfg, Stored(s, p), p, now);
      var s2 := HeardData(cfg, GapBeforeDrain(cfg, Stored(s, p), p, now), path);
      DrainOrFin(cfg, s2);
      GapsKeepRest(cfg, Drain(cfg, s2), p, now);
    }
  }

  /** After DATA, a hole in front of a stored packet is asked for at once. */
  lemma DataAsksForGap(cfg: Config, s: Slot, p: Packet, path: nat, now: nat)
    requires (Immediate(cfg) || cfg.service.N1?) && path < MAX_PATH && s.active && Accepts(s.win, p.hdr.number)
    ensures var r := AcceptOuter(cfg, s, p, path, now);
            r.active && HasGap(r.win) ==> r.trace.Then? && r.trace.last == NackSent(r.win.next)
  {
    var s3 := Drain(cfg, HeardData(cfg, GapBeforeDrain(cfg, Stored(s, p), p, now), path));
    AsksAfterDrain(cfg, s3, now);
  }

  lemma AsksAfterDrain(cfg: Config, s: Slot, now: nat)
    requires Immediate(cfg) || cfg.service.N1?
    ensures var r := GapAfterDrain(cfg, s, now);
            SameRest(s, r) && (HasGap(s.win) ==> r.trace.Then? && r.trace.last == NackSent(s.win.next))
  {
  }

  /** With a reorder wait, the timer asks for the number waited for exactly once the deadline has passed. */
  lemma TimerAsksInTime(cfg: Config, s: Slot, number: u32, deadline: nat, now: nat)
    requires !cfg.service.Raw? && !cfg.service.N1? && cfg.reorderMs > 0 && s.waiting == Some((number, deadline))
    ensures NacksIn(Poll(cfg, s, now).trace) == NacksIn(s.trace) + (if now >= deadline then [number] else [])
    ensures Poll(cfg, s, now).waiting == if now >= deadline then None else s.waiting
  {
    assert NacksIn(s.trace) + [] == NacksIn(s.trace);
  }

  function FinsIn(t: Trace): seq<u32> {
    match t
    case Nothing => []
    case Then(b, FinFired(n)) => FinsIn(b) + [n]
    case Then(b, _) => FinsIn(b)
  }

  lemma {:induction false} DiffNoFins(t: Trace, was: Flags, next: Flags, n: nat)
    requires n <= MAX_PATH
    ensures FinsIn(Diff(t, was, next, n)) == FinsIn(t)
  {
    if n > 0 {
      DiffNoFins(t, was, next, n - 1);
    }
  }

  /** The reorder timer never gives a number up, contrary to docs/fin-ordering.md, so it never lets a pending FIN
      take effect. On a slot that is not RAW it leaves window and pending FIN alone. On a RAW slot it drops the
      pending FIN, with the connection, exactly when the wait is over. */
  lemma TimerNeverResolvesFin(cfg: Config, s: Slot, now: nat)
    ensures var r := Poll(cfg, s, now);
            && FinsIn(r.trace) == FinsIn(s.trace)
            && (!cfg.service.Raw? ==> r.win == s.win && r.pendingFin == s.pendingFin)
            && (cfg.service.Raw? && s.pendingFin.Some? ==>
                  (r.pendingFin == None <==> s.waiting.Some? && (cfg.reorderMs == 0 || now >= s.waiting.value.1)))
  {
    if s.waiting.Some? {
      var s1 := GapReady(cfg, s, s.waiting.value.0, now).1;
      assert FinsIn(s1.trace) == FinsIn(s.trace);
      DiffNoFins(s1.trace, s1.logical, DOWN, MAX_PATH);
      assert FinsIn(RawDisconnect(s1).trace) == FinsIn(s1.trace);
      assert FinsIn(Forget(RawDisconnect(s1)).trace) == FinsIn(s1.trace);
    }
  }

  /** The slot after a FIN with target 2 as first contact. */
  predicate WaitsForTwo(s: Slot, session: Session) {
    && s.active && s.followed == Some(session) && s.pendingFin == Some(2) && s.win.next == 0
    && FinsIn(s.trace) == [] && NacksIn(s.trace) == []
  }

  lemma FinArrives(cfg: Config, size: nat, fin: Packet, path: nat, now: nat)
    requires cfg.service.Bidir? && 0 < size < U16_MOD && path < MAX_PATH
    requires KindOf(fin) == Kind.Fin(true) && fin.hdr.number == 0 && fin.hdr.ack == 2
    ensures var r := Step(cfg, Opened(size), Recv(fin, path, now));
            WaitsForTwo(r, SessionOf(fin)) && r.win == Init(0, size) && r.waiting == None
  {
    var s0 := Emit(Opened(size), Got(fin));
    var s1 := Adopt(s0, fin).1;
    assert s1.win == Init(0, size) && s1.trace == Then(s0.trace, Started(0));
    assert FinsIn(Nothing) == [] && FinsIn(Opened(size).trace) == [] && FinsIn(s0.trace) == [];
    assert NacksIn(Nothing) == [] && NacksIn(Opened(size).trace) == [] && NacksIn(s0.trace) == [];
  }

  lemma DataLeavesHole(cfg: Config, s: Slot, p: Packet, path: nat, now: nat)
    requires cfg.service.Bidir? && cfg.reorderMs > 0 && path < MAX_PATH && s.win.Size() > 1
    requires WaitsForTwo(s, SessionOf(p)) && s.win == Init(0, s.win.Size()) && s.waiting == None
    requires KindOf(p).Data? && p.hdr.number == 1
    ensures var r := Step(cfg, s, Recv(p, path, now));
            WaitsForTwo(r, SessionOf(p)) && r.waiting == Some((0, now + Nanos(cfg.reorderMs)))
  {
    VerdictIsOrder(SessionOf(p), SessionOf(p));
    var s0 := Emit(s, Got(p));
    assert Adopt(s0, p) == (true, s0);
    StepRoundTrip(0, 1);
    assert Accepts(s0.win, p.hdr.number);
    var s1 := Stored(s0, p);
    assert s1.win.slots[1].Some? && HasGap(s1.win) && !CanPop(s1.win);
    var s2 := GapBeforeDrain(cfg, s1, p, now);
    assert s2.waiting == Some((0, now + Nanos(cfg.reorderMs)));
    assert Drain(cfg, s2) == s2;
    assert GapAfterDrain(cfg, s2, now) == s2;
  }

  /** An instance: number 0 is missing, DATA 1 and a FIN with target 2 are there. When the wait is over the timer
      asks for number 0 once more, and the FIN stays pending. */
  lemma FinOutlivesTimer(cfg: Config, size: nat, fin: Packet, p: Packet, path: nat, now: nat, later: nat)
    requires cfg.service.Bidir? && cfg.reorderMs > 0 && 1 < size < U16_MOD && path < MAX_PATH
    requires KindOf(fin) == Kind.Fin(true) && fin.hdr.number == 0 && fin.hdr.ack == 2
    requires KindOf(p).Data? && p.hdr.number == 1 && SessionOf(p) == SessionOf(fin)
    requires later >= now + Nanos(cfg.reorderMs)
    ensures var r := Step(cfg, Step(cfg, Step(cfg, Opened(size), Recv(fin, path, now)), Recv(p, path, now)), PollTimer(later));
            r.pendingFin == Some(2) && r.win.next == 0 && FinsIn(r.trace) == [] && NacksIn(r.trace) == [0]
  {
    FinArrives(cfg, size, fin, path, now);
    var s1 := Step(cfg, Opened(size), Recv(fin, path, now));
    DataLeavesHole(cfg, s1, p, path, now);
    StillWaitsForTwo(cfg, Step(cfg, s1, Recv(p, path, now)), SessionOf(p), now + Nanos(cfg.reorderMs), later);
  }

  lemma StillWaitsForTwo(cfg: Config, s: Slot, session: Session, deadline: nat, later: nat)
    requires cfg.service.Bidir? && cfg.reorderMs > 0 && later >= deadline
    requires WaitsForTwo(s, session) && s.waiting == Some((0, deadline))
    ensures var r := Step(cfg, s, PollTimer(later));
            r.pendingFin == Some(2) && r.win.next == 0 && FinsIn(r.trace) == [] && NacksIn(r.trace) == [0]
  {
    TimerNeverResolvesFin(cfg, s, later);
    TimerAsksInTime(cfg, s, 0, deadline, later);
  }

  /** A REJECT of the number due disconnects and gives it up for good: the window goes on behind it, over
      everything that had already arrived. Of any other number it only disconnects. A pending FIN takes effect
      exactly when its target is then reached. */
  lemma RejectGivesUp(cfg: Config, s: Slot, p: Packet)
    requires !cfg.service.Raw? && s.active && s.followed == Some(SessionOf(p))
    ensures RecvOk(Consume(s.win))
    ensures var r := OnReject(cfg, s, p);
            var w := PopWin(if s.win.next == p.hdr.ack then Consume(s.win) else s.win);
            if s.pendingFin == Some(w.next) then FinTookEffect(cfg, r)
            else !r.alive && r.win == w && r.pendingFin == s.pendingFin && r.followed == s.followed && r.active
  {
    VerdictIsOrder(s.followed.value, SessionOf(p));
    RecvOpsKeepOk(s.win, p);
    var s1 := Receiver.Skip(DropPaths(s).(waiting := None), p.hdr.ack);
    DrainOrFin(cfg, s1);
    PopAllAlive(cfg, s1);
  }

  lemma {:induction false} PopAllAlive(cfg: Config, s: Slot)
    ensures PopAll(cfg, s).alive == s.alive
    decreases Leading(s.win.slots)
  {
    if CanPop(s.win) {
      PopShortens(cfg, s);
      RecvOpsKeepOk(s.win, s.win.slots[0].value);
      var p := s.win.slots[0].value;
      var ping := Has(p.hdr.flags, PING) && !cfg.service.Tcp?;
      DeliverAllKeeps(cfg, Emit(s.(win := Consume(s.win)), Event.Popped(p.hdr.number, s.alive && !ping)), UnpackFrom(p.payload, 0));
      PopAllAlive(cfg, PopOne(cfg, s));
    }
  }

  lemma StepAbsorbs(cfg: Config, s: Slot, p: Packet, path: nat, now: nat)
    requires Immediate(cfg) && path < MAX_PATH && Awaiting(s)
    requires KindOf(p).Data? && s.followed == Some(SessionOf(p))
    ensures var r := Step(cfg, s, Recv(p, path, now));
            r.win == Absorb(s.win, p) && r.followed == s.followed && Awaiting(r)
  {
    VerdictIsOrder(SessionOf(p), SessionOf(p));
    AcceptAbsorbs(cfg, Emit(s, Got(p)), p, path, now);
  }

  // ---------- closing the gap ----------

  /** The window at index `n` of the stream holds only packets before index `top`. */
  predicate Below(w: Win, first: u32, n: nat, top: nat) {
    && RecvOk(w) && w.base == Number(first, n) && n <= top <= n + w.Size()
    && forall d :: top - n <= d < w.Size() ==> w.slots[d].None?
  }

  /** Index `k` has been received: popped already or held. */
  predicate Arrived(w: Win, n: nat, k: nat) {
    k < n || (k < n + w.Size() && w.slots[k - n].Some?)
  }

  lemma {:induction false} PopWinAdvances(w: Win, first: u32, n: nat, top: nat) returns (n': nat)
    requires Below(w, first, n, top)
    ensures Below(PopWin(w), first, n', top) && PopWin(w).Size() == w.Size() && !CanPop(PopWin(w))
    ensures forall k :: 0 <= k < top && Arrived(w, n, k) ==> Arrived(PopWin(w), n', k)
    decreases Leading(w.slots)
  {
    if CanPop(w) {
      RecvOpsKeepOk(w, w.slots[0].value);
      LeadingAppend(w.slots[1..]);
      IncWrap(first + n);
      var c := Consume(w);
      assert forall d :: 0 <= d < w.Size() - 1 ==> c.slots[d] == w.slots[d + 1];
      n' := PopWinAdvances(c, first, n + 1, top);
      forall k | 0 <= k < top && Arrived(w, n, k)
        ensures Arrived(PopWin(w), n', k)
      {
        assert Arrived(c, n + 1, k);
      }
    } else {
      n' := n;
    }
  }

  lemma AbsorbAdvances(w: Win, first: u32, n: nat, top: nat, p: Packet, k: nat) returns (n': nat)
    requires Below(w, first, n, top) && !CanPop(w)
    requires top - U16_MOD < k < top && p.hdr.number == Number(first, k)
    ensures Below(Absorb(w, p), first, n', top) && Absorb(w, p).Size() == w.Size() && !CanPop(Absorb(w, p))
    ensures Arrived(Absorb(w, p), n', k)
    ensures forall j :: 0 <= j < top && Arrived(w, n, j) ==> Arrived(Absorb(w, p), n', j)
  {
    InWindowAgrees(first + k, first + n, w.Size());
    RecvOpsKeepOk(w, p);
    if n <= k {
      var w1 := RecvPush(w, p);
      assert Arrived(w1, n, k);
      assert forall j :: 0 <= j < top && Arrived(w, n, j) ==> Arrived(w1, n, j);
      n' := PopWinAdvances(w1, first, n, top);
    } else {
      n' := n;
    }
  }

  // ---------- the round ----------

  /** Every packet ever sent on the stream, packet `k` carrying number `first + k`. */
  predicate Numbered(log: seq<Packet>, first: u32, session: Session) {
    forall k :: 0 <= k < |log| ==>
      log[k].hdr.number == Number(first, k) && KindOf(log[k]).Data? && SessionOf(log[k]) == session
  }

  /** An input that brings packet `k` of the log. */
  predicate Brings(i: Input, log: seq<Packet>, k: nat) {
    i.Recv? && i.path < MAX_PATH && k < |log| && i.p == log[k]
  }

  /** A packet of the log that a send window of any size can still hold. */
  predicate Resend(i: Input, log: seq<Packet>) {
    exists k: nat :: |log| - U16_MOD < k < |log| && Brings(i, log, k)
  }

  predicate Resends(inputs: seq<Input>, log: seq<Packet>) {
    && (forall j :: 0 <= j < |inputs| ==> ValidInput(inputs[j]))
    && (forall j :: 0 <= j < |inputs| ==> Resend(inputs[j], log))
  }

  predicate Covered(inputs: seq<Input>, log: seq<Packet>, k: nat) {
    exists j :: 0 <= j < |inputs| && Brings(inputs[j], log, k)
  }

  /** A slot on its way to the end of the log: at index `n`, nothing beyond the end, nothing left to pop. */
  predicate Catching(cfg: Config, s: Slot, log: seq<Packet>, first: u32, n: nat) {
    && Immediate(cfg) && Awaiting(s) && Numbered(log, first, s.followed.value)
    && Below(s.win, first, n, |log|) && !CanPop(s.win)
  }

  /** Of the last `size` packets of the log, everything that had arrived at `(w, n)` or is covered has arrived
      at `(w', n')`. */
  predicate Reaches(w: Win, n: nat, w': Win, n': nat, log: seq<Packet>, inputs: seq<Input>) {
    forall j :: |log| - w.Size() <= j < |log| && 0 <= j ==>
      (Arrived(w, n, j) || Covered(inputs, log, j) ==> Arrived(w', n', j))
  }

  lemma OneResend(cfg: Config, s: Slot, log: seq<Packet>, first: u32, n: nat, i: Input) returns (n': nat)
    requires Catching(cfg, s, log, first, n) && ValidInput(i) && Resend(i, log)
    ensures var r := Step(cfg, s, i);
            r.win.Size() == s.win.Size() && Catching(cfg, r, log, first, n') && Reaches(s.win, n, r.win, n', log, [i])
  {
    var k: nat :| |log| - U16_MOD < k < |log| && Brings(i, log, k);
    StepAbsorbs(cfg, s, i.p, i.path, i.now);
    n' := AbsorbAdvances(s.win, first, n, |log|, i.p, k);
    forall j | |log| - s.win.Size() <= j < |log| && 0 <= j && Covered([i], log, j)
      ensures j == k
    {
      SameIndex(log, first, s.followed.value, k, j);
    }
  }

  lemma SameIndex(log: seq<Packet>, first: u32, session: Session, k: nat, j: nat)
    requires Numbered(log, first, session)
    requires |log| - U16_MOD < k < |log| && |log| - U16_MOD < j < |log| && log[k] == log[j]
    ensures k == j
  {
    SameNumber(first, if k < j then k else j, if k < j then j else k);
  }

  lemma ReachesTrans(w0: Win, n0: nat, w1: Win, n1: nat, w2: Win, n2: nat, log: seq<Packet>, inputs: seq<Input>)
    requires inputs != [] && w0.Size() == w1.Size()
    requires Reaches(w0, n0, w1, n1, log, inputs[..|inputs| - 1]) && Reaches(w1, n1, w2, n2, log, [inputs[|inputs| - 1]])
    ensures Reaches(w0, n0, w2, n2, log, inputs)
  {
    var m := |inputs| - 1;
    forall j | 0 <= j < |log| && Covered(inputs, log, j)
      ensures Covered(inputs[..m], log, j) || Covered([inputs[m]], log, j)
    {
      var i :| 0 <= i < |inputs| && Brings(inputs[i], log, j);
      if i < m {
        assert inputs[..m][i] == inputs[i];
      } else {
        assert [inputs[m]][0] == inputs[i];
      }
    }
  }

  /** In any order and with repetitions, resent packets only add to what has arrived. */
  lemma {:induction false} ResendsArrive(cfg: Config, s: Slot, log: seq<Packet>, first: u32, n: nat, inputs: seq<Input>)
    returns (n': nat)
    requires Catching(cfg, s, log, first, n) && Resends(inputs, log)
    ensures var r := Run(cfg, s, inputs);
            && r.win.Size() == s.win.Size() && Catching(cfg, r, log, first, n')
            && Reaches(s.win, n, r.win, n', log, inputs)
  {
    if inputs == [] {
      n' := n;
    } else {
      var m := |inputs| - 1;
      assert forall j :: 0 <= j < m ==> inputs[..m][j] == inputs[j];
      var n1 := ResendsArrive(cfg, s, log, first, n, inputs[..m]);
      var r1 := Run(cfg, s, inputs[..m]);
      n' := OneResend(cfg, r1, log, first, n1, inputs[m]);
      ReachesTrans(s.win, n, r1.win, n1, Step(cfg, r1, inputs[m]).win, n', log, inputs);
    }
  }

  /** Index `k` is one of the missing ones. */
  predicate MissingAt(w: Win, n: nat, k: nat) {
    n <= k < n + w.Size() && w.slots[k - n].None?
  }

  lemma LogDistance(first: u32, n: nat, top: nat)
    requires n <= top < n + U32_MOD
    ensures Distance(Number(first, top), Number(first, n)) == top - n
  {
    DistanceOfWraps(first + top, first + n);
  }

  /** The resent packets include every missing one. */
  predicate FillsGaps(w: Win, n: nat, log: seq<Packet>, inputs: seq<Input>) {
    forall k: nat :: k < |log| && MissingAt(w, n, k) ==> Covered(inputs, log, k)
  }

  lemma PingWhileCatching(cfg: Config, s: Slot, log: seq<Packet>, first: u32, n: nat, p: Packet, path: nat, now: nat)
    requires Catching(cfg, s, log, first, n) && p.hdr.number == Number(first, |log|) && path < MAX_PATH
    ensures var r := OnPing(cfg, s, p, path, now);
            && NacksIn(r.trace) == NacksIn(s.trace) + Missing(s.win, 0, |log| - n)
            && r.win == s.win && Catching(cfg, r, log, first, n)
  {
    LogDistance(first, n, |log|);
    PingNacksMissing(cfg, s, p, path, now);
  }

  /** The sender's side: the packets as sent, the bytes first put on the wire for them, and `log`, what the receiver
      makes of these bytes. */
  predicate Delivers(cipher: Option<Cipher>, first: u32, sent: seq<Packet>, wire: seq<seq<byte>>, log: seq<Packet>) {
    && Recorded(first, sent, wire) && |log| == |sent|
    && forall k :: 0 <= k < |wire| ==> Receive(cipher, wire[k]) == Some(log[k])
  }

  /** The one answer to a NACK for index `k` is the bytes first sent for it. */
  ghost predicate OnlyAnswer(first: u32, size: nat, sent: seq<Packet>, wire: seq<seq<byte>>, k: nat)
    requires |wire| == |sent|
  {
    && Recent(size, |sent|, k)
    && forall reply :: Proper(first, size, sent, wire, Number(first, k), reply) ==> reply == Resent(wire[k])
  }

  /** Among the inputs is the sender's answer to the NACK for this number: the bytes it resends, as received. */
  ghost predicate AnswerArrives(cipher: Option<Cipher>, first: u32, size: nat, sent: seq<Packet>, wire: seq<seq<byte>>,
                                number: u32, inputs: seq<Input>)
    requires |wire| == |sent|
  {
    exists j, bytes :: && 0 <= j < |inputs| && inputs[j].Recv? && inputs[j].path < MAX_PATH
                       && Proper(first, size, sent, wire, number, Resent(bytes))
                       && Receive(cipher, bytes) == Some(inputs[j].p)
  }

  ghost predicate AnswersArrive(numbers: seq<u32>, cipher: Option<Cipher>, first: u32, size: nat, sent: seq<Packet>,
                                wire: seq<seq<byte>>, inputs: seq<Input>)
    requires |wire| == |sent|
  {
    forall number :: number in numbers ==> AnswerArrives(cipher, first, size, sent, wire, number, inputs)
  }

  /** The answer to the NACK for index `k` is packet `k` of the log. */
  lemma AnswerCovers(cipher: Option<Cipher>, first: u32, size: nat, sent: seq<Packet>, wire: seq<seq<byte>>,
                     log: seq<Packet>, k: nat, inputs: seq<Input>)
    requires Delivers(cipher, first, sent, wire, log) && Recent(size, |sent|, k)
    requires AnswerArrives(cipher, first, size, sent, wire, Number(first, k), inputs)
    ensures Covered(inputs, log, k)
  {
    var j, bytes :| && 0 <= j < |inputs| && inputs[j].Recv? && inputs[j].path < MAX_PATH
                    && Proper(first, size, sent, wire, Number(first, k), Resent(bytes))
                    && Receive(cipher, bytes) == Some(inputs[j].p);
    assert bytes == wire[k];
    assert Brings(inputs[j], log, k);
  }

  lemma {:induction false} MissingListed(w: Win, d: nat, m: nat, k: nat)
    requires d <= k < m <= w.Size() && w.slots[k].None?
    ensures Wrap(w.base + k) in Missing(w, d, m)
    decreases m - d
  {
    if d < k {
      MissingListed(w, d + 1, m, k);
    }
  }

  /** The recovery round: the PING asks for exactly the missing numbers; a sender whose window reaches back to the
      receiver's position answers each of these NACKs with the bytes first sent, encrypted or not; and when these
      answers arrive, in any order, repeated and among other resent packets, the window is at the PING's number. */
  lemma RecoveryRound(cfg: Config, s: Slot, log: seq<Packet>, first: u32, n: nat, p: Packet, path: nat, now: nat,
                      cipher: Option<Cipher>, size: nat, sent: seq<Packet>, wire: seq<seq<byte>>, inputs: seq<Input>)
    requires Catching(cfg, s, log, first, n) && p.hdr.number == Number(first, |log|) && path < MAX_PATH
    requires Delivers(cipher, first, sent, wire, log) && |log| - n <= size && Resends(inputs, log)
    ensures NacksIn(OnPing(cfg, s, p, path, now).trace) == NacksIn(s.trace) + Missing(s.win, 0, |log| - n)
    ensures forall k: nat :: k < |log| && MissingAt(s.win, n, k) ==> OnlyAnswer(first, size, sent, wire, k)
    ensures AnswersArrive(Missing(s.win, 0, |log| - n), cipher, first, size, sent, wire, inputs)
            ==> Run(cfg, OnPing(cfg, s, p, path, now), inputs).win.next == p.hdr.number
  {
    PingWhileCatching(cfg, s, log, first, n, p, path, now);
    AnswersAreResends(s.win, n, cipher, first, size, sent, wire, log);
    if AnswersArrive(Missing(s.win, 0, |log| - n), cipher, first, size, sent, wire, inputs) {
      AnswersFill(s.win, first, n, cipher, size, sent, wire, log, inputs);
      RoundCloses(cfg, OnPing(cfg, s, p, path, now), log, first, n, inputs);
    }
  }

  lemma AnswersAreResends(w: Win, n: nat, cipher: Option<Cipher>, first: u32, size: nat, sent: seq<Packet>,
                          wire: seq<seq<byte>>, log: seq<Packet>)
    requires Delivers(cipher, first, sent, wire, log) && |log| - n <= size
    ensures forall k: nat :: k < |log| && MissingAt(w, n, k) ==> OnlyAnswer(first, size, sent, wire, k)
  {
    forall k: nat | k < |log| && MissingAt(w, n, k)
      ensures OnlyAnswer(first, size, sent, wire, k)
    {
      MissingIsRecent(w, n, size, |sent|, k);
      ResendIsOnlyAnswer(cipher, first, size, sent, wire, log, k);
    }
  }

  lemma AnswersFill(w: Win, first: u32, n: nat, cipher: Option<Cipher>, size: nat, sent: seq<Packet>,
                    wire: seq<seq<byte>>, log: seq<Packet>, inputs: seq<Input>)
    requires Below(w, first, n, |log|) && Delivers(cipher, first, sent, wire, log) && |log| - n <= size
    requires AnswersArrive(Missing(w, 0, |log| - n), cipher, first, size, sent, wire, inputs)
    ensures FillsGaps(w, n, log, inputs)
  {
    forall k: nat | k < |log| && MissingAt(w, n, k)
      ensures Covered(inputs, log, k)
    {
      GapFilled(w, first, n, cipher, size, sent, wire, log, inputs, k);
    }
  }

  lemma GapFilled(w: Win, first: u32, n: nat, cipher: Option<Cipher>, size: nat, sent: seq<Packet>,
                  wire: seq<seq<byte>>, log: seq<Packet>, inputs: seq<Input>, k: nat)
    requires Below(w, first, n, |log|) && Delivers(cipher, first, sent, wire, log) && |log| - n <= size
    requires AnswersArrive(Missing(w, 0, |log| - n), cipher, first, size, sent, wire, inputs)
    requires k < |log| && MissingAt(w, n, k)
    ensures Covered(inputs, log, k)
  {
    MissingNumber(w, first, n, |log|, k);
    MissingIsRecent(w, n, size, |sent|, k);
    assert AnswerArrives(cipher, first, size, sent, wire, Number(first, k), inputs);
    AnswerCovers(cipher, first, size, sent, wire, log, k, inputs);
  }

  lemma MissingIsRecent(w: Win, n: nat, size: nat, top: nat, k: nat)
    requires MissingAt(w, n, k) && k < top && top - n <= size
    ensures Recent(size, top, k)
  {
  }

  lemma ResendIsOnlyAnswer(cipher: Option<Cipher>, first: u32, size: nat, sent: seq<Packet>, wire: seq<seq<byte>>,
                           log: seq<Packet>, k: nat)
    requires Delivers(cipher, first, sent, wire, log) && Recent(size, |sent|, k)
    ensures OnlyAnswer(first, size, sent, wire, k)
  {
  }

  lemma MissingNumber(w: Win, first: u32, n: nat, top: nat, k: nat)
    requires Below(w, first, n, top) && k < top && MissingAt(w, n, k)
    ensures Number(first, k) in Missing(w, 0, top - n)
  {
    MissingListed(w, 0, top - n, k - n);
    WrapAdd(first + n, k - n);
  }

  lemma RoundCloses(cfg: Config, s: Slot, log: seq<Packet>, first: u32, n: nat, inputs: seq<Input>)
    requires Catching(cfg, s, log, first, n) && Resends(inputs, log)
    requires FillsGaps(s.win, n, log, inputs)
    ensures Run(cfg, s, inputs).win.next == Number(first, |log|)
  {
    var n' := ResendsArrive(cfg, s, log, first, n, inputs);
    var r := Run(cfg, s, inputs);
    forall k | n' <= k < |log|
      ensures Arrived(r.win, n', k)
    {
      assert Arrived(s.win, n, k) || MissingAt(s.win, n, k);
    }
    CaughtUp(r.win, first, n', |log|);
  }

  lemma CaughtUp(w: Win, first: u32, n: nat, top: nat)
    requires Below(w, first, n, top) && !CanPop(w)
    requires forall k :: n <= k < top ==> Arrived(w, n, k)
    ensures n == top
  {
    assert n < top ==> Arrived(w, n, n);
  }
}
