/** The receiving slot as the library has it: one object whose fields, window and fragment buffer are updated
    in place (prod/libsrc/porter/thread/thread_recv_*.c). Every method does to `View()` what the function of
    module `Receiver` it names does to a slot value. */
module RecvSlots {
  import opened SeqNum
  import opened Packets
  import opened Windows
  import opened Wire
  import opened Sessions
  import opened Traces
  import opened PathEvents
  import opened Fragments
  import opened Receiver
  import ReceiverRuns

  class RecvSlot {
    const cfg: Config
    const win: Window
    const fragBuf: array<byte>
    var active: bool
    var followed: Option<Session>
    var waiting: Option<(u32, nat)>
    var pendingFin: Option<u32>
    var fragLen: nat
    var fragCompressed: bool
    var pings: Pings
    var remote: Pings
    var linked: Flags
    var logical: Flags
    var alive: bool
    var trace: Trace  // what reached the callback and the sockets

    ghost predicate Valid()
      reads this, win, win.hdrs, win.valid, win.pool
    {
      && win.Valid() && RecvOk(win.View())
      && fragBuf.Length == cfg.maxMessage && fragLen <= cfg.maxMessage
      && fragBuf != win.pool
    }

    ghost function View(): Slot
      requires Valid()
      reads this, win, win.hdrs, win.valid, win.pool, fragBuf
    {
      Slot(active, win.View(), followed, waiting, pendingFin, Frag(fragBuf[..fragLen], fragCompressed),
           pings, remote, linked, logical, alive, trace)
    }

    constructor (cfg: Config, size: nat, cap: nat)
      requires 0 < size < U16_MOD
      ensures Valid() && View() == Opened(size) && this.cfg == cfg
      ensures fresh(win) && fresh(win.hdrs) && fresh(win.valid) && fresh(win.pool) && fresh(fragBuf)
    {
      this.cfg := cfg;
      win := new Window(0, size, cap);
      fragBuf := new byte[cfg.maxMessage](_ => 0);
      active, followed, waiting, pendingFin := true, None, None, None;
      fragLen, fragCompressed := 0, false;
      pings, remote, linked, logical, alive := NO_PINGS, NO_PINGS, DOWN, DOWN, false;
      trace := Then(Nothing, Started(0));
    }

    /** The slot of an N:1 peer, made by the first PING of its session. */
    constructor ForPeer(cfg: Config, size: nat, cap: nat, p: Packet)
      requires 0 < size < U16_MOD
      ensures Valid() && View() == PeerOpened(size, p) && this.cfg == cfg
      ensures fresh(win) && fresh(win.hdrs) && fresh(win.valid) && fresh(win.pool) && fresh(fragBuf)
    {
      this.cfg := cfg;
      win := new Window(p.hdr.number, size, cap);
      fragBuf := new byte[cfg.maxMessage](_ => 0);
      active, followed, waiting, pendingFin := true, Some(SessionOf(p)), None, None;
      fragLen, fragCompressed := 0, false;
      pings, remote, linked, logical, alive := NO_PINGS, NO_PINGS, DOWN, DOWN, false;
      trace := Then(Then(Nothing, Got(p)), Started(p.hdr.number));
    }

    method Note(e: Event)
      requires Valid()
      modifies this`trace
      ensures Valid() && View() == Emit(old(View()), e)
    {
      trace := Then(trace, e);
    }

    method RestartWindow(number: u32)
      requires Valid()
      modifies this`trace, win, win.valid
      ensures Valid() && View() == Restart(old(View()), number)
    {
      win.Reset(number);
      Note(Started(number));
    }

    /** A session is new when nothing is followed or it comes after the followed one, old when it comes before. */
    method JudgeSession(session: Session) returns (v: Verdict)
      ensures v.New? <==> followed.None? || !AtMost(session, followed.value)
      ensures v.Old? <==> followed.Some? && !AtMost(followed.value, session)
      ensures v.Same? <==> followed == Some(session)
    {
      if followed.None? {
        return New;
      }
      var order := CompareStart(session, followed.value);
      if order > 0 {
        return New;
      } else if order < 0 {
        return Old;
      } else if session.id > followed.value.id {
        return New;
      } else if session.id == followed.value.id {
        return Same;
      }
      return Old;
    }

    method SwitchTo(session: Session)
      requires Valid()
      modifies this
      ensures Valid()
      ensures var s := if old(followed).Some? then Emit(old(View()), Switched) else old(View());
              View() == s.(followed := Some(session), waiting := None, pendingFin := None)
    {
      if followed.Some? {
        Note(Switched);
      }
      StartFollowing(session);
    }

    method StartFollowing(session: Session)
      requires Valid()
      modifies this`followed, this`waiting, this`pendingFin
      ensures Valid() && View() == old(View()).(followed := Some(session), waiting := None, pendingFin := None)
    {
      followed, waiting, pendingFin := Some(session), None, None;
    }

    method AdoptSession(p: Packet) returns (ok: bool)
      requires Valid()
      modifies this, win, win.valid
      ensures Valid() && (ok, View()) == Adopt(old(View()), p)
    {
      var v := JudgeSession(SessionOf(p));
      if followed.Some? {
        VerdictIsOrder(followed.value, SessionOf(p));
      }
      if !v.New? {
        return v.Same?;
      }
      SwitchTo(SessionOf(p));
      RestartWindow(p.hdr.number);
      ok := true;
    }

    /** Collect the changed paths, store the new states, then call back. */
    method SyncStates(next: Flags)
      requires Valid()
      modifies this`logical, this`alive, this`trace
      ensures Valid() && View() == SetPaths(old(View()), next)
    {
      var newAlive, calls := SyncEvents(trace, alive, logical, next);
      StorePaths(next, newAlive);
      trace := calls;
    }

    method StorePaths(next: Flags, up: bool)
      requires Valid()
      modifies this`logical, this`alive
      ensures Valid() && View() == old(View()).(logical := next, alive := up)
    {
      logical, alive := next, up;
    }

    method SyncPaths()
      requires Valid()
      modifies this`logical, this`alive, this`trace
      ensures Valid() && View() == Sync(cfg, old(View()))
    {
      var oneway := cfg.service.Raw? || cfg.service.Oneway?;
      var next: Flags := DOWN;
      for k := 0 to MAX_PATH
        invariant forall j :: 0 <= j < k ==> next[j] == PathUp(cfg, View(), j)
      {
        next := next[k := pings[k] == NORMAL && (oneway || remote[k] == NORMAL) && (cfg.service.Tcp? ==> linked[k])];
      }
      assert next == [PathUp(cfg, View(), 0), PathUp(cfg, View(), 1), PathUp(cfg, View(), 2), PathUp(cfg, View(), 3)];
      SyncStates(next);
    }

    method DropAllPaths()
      requires Valid()
      modifies this
      ensures Valid() && View() == DropPaths(old(View()))
    {
      pings, remote := NO_PINGS, NO_PINGS;
      SyncStates(DOWN);
    }

    method RawDisconnectAll()
      requires Valid()
      modifies this
      ensures Valid() && View() == RawDisconnect(old(View()))
    {
      DropAllPaths();
      pendingFin, fragLen, fragCompressed := None, 0, false;
      assert fragBuf[..0] == [];
    }

    method IsGapReady(number: u32, now: nat) returns (ready: bool)
      requires Valid()
      modifies this`waiting, this`trace
      ensures Valid() && (ready, View()) == GapReady(cfg, old(View()), number, now)
    {
      if cfg.service.N1? || cfg.reorderMs == 0 {
        Note(Ready(number, now));
        return true;
      }
      if waiting.None? || waiting.value.0 != number {
        waiting := Some((number, now + Nanos(WaitMs(cfg, now))));
        Note(Armed(number, now));
        return false;
      }
      if now >= waiting.value.1 {
        waiting := None;
        Note(Ready(number, now));
        return true;
      }
      return false;
    }

    method SendNackIfReady(number: u32, now: nat)
      requires Valid()
      modifies this`waiting, this`trace
      ensures Valid() && View() == NackIfReady(cfg, old(View()), number, now)
    {
      var ready := IsGapReady(number, now);
      if ready {
        Note(NackSent(number));
      }
    }

    // ---------- delivery ----------

    method AppendFragment(payload: seq<byte>)
      requires Valid() && fragLen + |payload| <= cfg.maxMessage
      modifies fragBuf, this`fragLen
      ensures Valid()
      ensures View() == old(View()).(frag := Frag(old(View()).frag.buf + payload, old(View()).frag.compressed))
    {
      forall k | 0 <= k < |payload| {
        fragBuf[fragLen + k] := payload[k];
      }
      fragLen := fragLen + |payload|;
      assert fragBuf[..fragLen] == old(fragBuf[..fragLen]) + payload;
    }

    method ClearFragments()
      requires Valid()
      modifies this`fragLen, this`fragCompressed
      ensures Valid() && View() == old(View()).(frag := NO_FRAG)
    {
      fragLen, fragCompressed := 0, false;
      assert fragBuf[..0] == [];
    }

    method CallBack(bytes: seq<byte>, compressed: bool)
      requires Valid()
      modifies this`trace
      ensures Valid()
      ensures var o := Expand(cfg.codec, bytes, compressed);
              View() == if o.Some? then Emit(old(View()), Message(o.value)) else old(View())
    {
      if compressed {
        var data := cfg.codec.expand(bytes);
        if data.Some? {
          Note(Message(data.value));
        }
      } else {
        Note(Message(bytes));
      }
    }

    method DeliverElem(e: Elem)
      requires Valid()
      modifies this, fragBuf
      ensures Valid() && View() == Deliver(cfg, old(View()), e)
    {
      if !alive {
        return;
      }
      var fits := fragLen + |e.payload| <= cfg.maxMessage;
      if Has(e.flags, MORE_FRAG) {
        if fits {
          if fragLen == 0 {
            fragCompressed := Has(e.flags, COMPRESSED);
          }
          AppendFragment(e.payload);
        } else {
          ClearFragments();
        }
      } else if fragLen > 0 {
        if fits {
          AppendFragment(e.payload);
          CallBack(fragBuf[..fragLen], fragCompressed);
        }
        ClearFragments();
      } else {
        CallBack(e.payload, Has(e.flags, COMPRESSED));
      }
    }

    method DeliverContainer(payload: seq<byte>)
      requires Valid()
      modifies this, fragBuf
      ensures Valid() && View() == DeliverAll(cfg, old(View()), UnpackFrom(payload, 0))
    {
      ghost var goal := DeliverAll(cfg, View(), UnpackFrom(payload, 0));
      var offset := 0;
      var next := UnpackNext(payload, 0);
      while next.Next?
        invariant Valid() && offset <= |payload| && next == UnpackNext(payload, offset)
        invariant DeliverAll(cfg, View(), UnpackFrom(payload, offset)) == goal
        decreases |payload| - offset
      {
        UnpackStep(payload, offset, next.elem, next.offset);
        DeliverElem(next.elem);
        offset := next.offset;
        next := UnpackNext(payload, offset);
      }
    }

    /** Pop the packet due next, if it is there. */
    method TakeNext() returns (r: Option<Packet>)
      requires Valid()
      modifies this`trace, win, win.valid
      ensures Valid() && r == old(View()).win.slots[0]
      ensures r.None? ==> View() == old(View())
      ensures r.Some? ==>
                var ping := Has(r.value.hdr.flags, PING) && !cfg.service.Tcp?;
                && RecvOk(Consume(old(View()).win))
                && View() == Emit(old(View()).(win := Consume(old(View()).win)),
                                  Popped(r.value.hdr.number, old(alive) && !ping))
    {
      r := win.RecvPopPacket();
      if r.Some? {
        RecvOpsKeepOk(old(win.View()), r.value);
        Note(Popped(r.value.hdr.number, alive && !(Has(r.value.hdr.flags, PING) && !cfg.service.Tcp?)));
      }
    }

    method PopAndDeliver()
      requires Valid()
      modifies this, win, win.valid, fragBuf
      ensures Valid() && View() == PopAll(cfg, old(View()))
    {
      ghost var goal := PopAll(cfg, View());
      var more := true;
      while more
        invariant Valid() && (more ==> PopAll(cfg, View()) == goal) && (!more ==> View() == goal)
        decreases more, Leading(View().win.slots)
      {
        ghost var s := View();
        var r := TakeNext();
        if r.Some? {
          PopShortens(cfg, s);
          if !Has(r.value.hdr.flags, PING) || cfg.service.Tcp? {
            DeliverContainer(r.value.payload);
          }
        } else {
          more := false;
        }
      }
    }

    // ---------- FIN ----------

    method ForgetSession()
      requires Valid()
      modifies this
      ensures Valid() && View() == Forget(old(View()).(pendingFin := None, waiting := None))
    {
      pendingFin, waiting, followed := None, None, None;
      Note(Forgot);
    }

    method FirePeerFin()
      requires Valid()
      modifies this
      ensures Valid() && View() == Disconnect(old(View())).(pendingFin := None, active := false)
    {
      SyncStates(DOWN);
      pendingFin, active := None, false;
    }

    method FireFin(target: u32)
      requires Valid()
      modifies this, win, win.valid
      ensures Valid() && View() == FinFire(cfg, old(View()), target)
    {
      Note(FinFired(target));
      if cfg.service.N1? {
        FirePeerFin();
        return;
      }
      if cfg.service.Tcp? {
        Note(FinAckSent(target));
      }
      DropAllPaths();
      ForgetSession();
      RestartWindow(0);
    }

    method ReceiveFin(p: Packet, targeted: bool)
      requires Valid()
      modifies this, win, win.valid
      ensures Valid() && View() == OnFin(cfg, old(View()), p, targeted)
    {
      if !cfg.service.N1? {
        var ok := AdoptSession(p);
        if !ok {
          return;
        }
      }
      if targeted && win.nextSeq != p.hdr.ack {
        pendingFin := Some(p.hdr.ack);
        return;
      }
      FireFin(p.hdr.ack);
    }

    method DrainWindow()
      requires Valid()
      modifies this, win, win.valid, fragBuf
      ensures Valid() && View() == Drain(cfg, old(View()))
    {
      PopAndDeliver();
      if pendingFin == Some(win.nextSeq) {
        FireFin(win.nextSeq);
      }
    }

    // ---------- DATA ----------

    predicate Fits(p: Packet)
      reads this, win
    {
      p.Sized() && |p.payload| <= win.cap
    }

    method StorePacket(p: Packet) returns (ok: bool)
      requires Valid() && Fits(p)
      modifies win.hdrs, win.valid, win.pool
      ensures Valid() && ok == Accepts(old(View()).win, p.hdr.number)
      ensures View() == if ok then Stored(old(View()), p) else old(View())
    {
      ok := win.RecvPushPacket(p);
      if ok {
        RecvOpsKeepOk(old(win.View()), p);
      }
    }

    method RestartRaw(p: Packet)
      requires Valid() && Fits(p)
      modifies this, win, win.hdrs, win.valid, win.pool
      ensures Valid() && View() == RawRestart(old(View()), p)
    {
      RawDisconnectAll();
      RestartWindow(p.hdr.number);
      var ok := StorePacket(p);
    }

    method CheckGapBeforeDrain(p: Packet, now: nat)
      requires Valid() && Fits(p)
      modifies this, win, win.hdrs, win.valid, win.pool
      ensures Valid() && View() == GapBeforeDrain(cfg, old(View()), p, now)
    {
      var gap := win.RecvNeedsNack();
      if gap.None? {
        waiting := None;
      } else if cfg.service.Raw? {
        var ready := IsGapReady(gap.value, now);
        if ready {
          RestartRaw(p);
        }
      } else {
        SendNackIfReady(gap.value, now);
      }
    }

    method CheckGapAfterDrain(now: nat)
      requires Valid()
      modifies this`waiting, this`trace
      ensures Valid() && View() == GapAfterDrain(cfg, old(View()), now)
    {
      var gap := win.RecvNeedsNack();
      if gap.None? {
        waiting := None;
      } else if !cfg.service.Raw? {
        SendNackIfReady(gap.value, now);
      }
    }

    method UpdateHealth(path: nat)
      requires Valid() && path < MAX_PATH
      modifies this`pings
      ensures Valid() && View() == Heard(old(View()), path)
    {
      pings := pings[path := NORMAL];
    }

    method HearData(path: nat)
      requires Valid() && path < MAX_PATH
      modifies this
      ensures Valid() && View() == HeardData(cfg, old(View()), path)
    {
      if !cfg.service.N1? && !cfg.service.Bidir? {
        UpdateHealth(path);
        SyncPaths();
      }
    }

    method ReceiveData(p: Packet, path: nat, now: nat)
      requires Valid() && Fits(p) && path < MAX_PATH
      modifies this, win, win.hdrs, win.valid, win.pool, fragBuf
      ensures Valid() && View() == AcceptOuter(cfg, old(View()), p, path, now)
    {
      var ok := StorePacket(p);
      if !ok {
        if !cfg.service.Raw? {
          return;
        }
        RestartRaw(p);
      }
      CheckGapBeforeDrain(p, now);
      HearData(path);
      DrainWindow();
      if active {
        CheckGapAfterDrain(now);
      }
    }

    // ---------- PING and REJECT ----------

    method MergeReports(p: Packet)
      requires Valid()
      modifies this`remote
      ensures Valid() && View() == ApplyReport(old(View()), p)
    {
      if |p.payload| < MAX_PATH {
        return;
      }
      var merged: Pings := remote;
      for k := 0 to MAX_PATH
        invariant forall j :: 0 <= j < MAX_PATH ==>
                    merged[j] == if j < k then MergeReport(remote[j], p.payload[j]) else remote[j]
      {
        if p.payload[k] != UNDEFINED {
          merged := merged[k := p.payload[k]];
        }
      }
      remote := merged;
    }

    /** One number of the gap scan; the scan goes on unless a reorder wait holds it up. */
    method ScanOne(ghost d: nat, number: u32, target: u32, now: nat) returns (go: bool)
      requires Valid() && d < win.size && number == Wrap(win.baseSeq + d) && number != target
      modifies this`waiting, this`trace
      ensures Valid()
      ensures Scan(cfg, old(View()), d, target, now) == if go then Scan(cfg, View(), d + 1, target, now) else View()
    {
      ScanUnfold(cfg, View(), d, number, target, now);
      var has := win.RecvHasPacket(number);
      if has {
        return true;
      }
      go := IsGapReady(number, now);
      if go {
        Note(NackSent(number));
      }
    }

    /** The scan ends at the target or at the end of the window. */
    method ScanStop(ghost d: nat, number: u32, target: u32, now: nat)
      requires Valid() && d <= win.size && number == Wrap(win.baseSeq + d)
      requires number == target || !InWindow(number, win.baseSeq, win.size)
      modifies this`waiting
      ensures Valid() && View() == Scan(cfg, old(View()), d, target, now)
    {
      ScanEnd(cfg, View(), d, number, target, now);
      if number == target {
        StopWaiting();
      }
    }

    /** The scan stands at offset `d`, which has this number, and is on the way to `goal`, or there if it was held up. */
    ghost predicate Scanning(d: nat, number: u32, target: u32, now: nat, goal: Slot, go: bool)
      reads this, win, win.hdrs, win.valid, win.pool, fragBuf
    {
      && Valid() && d <= win.size && number == Wrap(win.baseSeq + d)
      && if go then Scan(cfg, View(), d, target, now) == goal else View() == goal
    }

    method ScanTurn(ghost d: nat, number: u32, target: u32, now: nat, ghost goal: Slot) returns (go: bool, next: u32)
      requires Scanning(d, number, target, now, goal, true)
      requires number != target && InWindow(number, win.baseSeq, win.size)
      modifies this`waiting, this`trace
      ensures d < win.size && Scanning(d + 1, next, target, now, goal, go)
    {
      ScanNumber(win.baseSeq, d, win.size);
      go := ScanOne(d, number, target, now);
      next := Inc(number);
    }

    method ScanGaps(target: u32, now: nat)
      requires Valid()
      modifies this`waiting, this`trace
      ensures Valid() && View() == Scan(cfg, old(View()), 0, target, now)
    {
      ghost var d, goal := 0, Scan(cfg, View(), 0, target, now);
      var number, go := win.nextSeq, true;
      while go && number != target && InWindow(number, win.baseSeq, win.size)
        invariant Scanning(d, number, target, now, goal, go)
        decreases win.size - d
      {
        go, number := ScanTurn(d, number, target, now, goal);
        d := d + 1;
      }
      if go {
        ScanStop(d, number, target, now);
      }
    }

    method ScanPingGap(p: Packet, now: nat)
      requires Valid()
      modifies this, win, win.valid
      ensures Valid() && View() == ScanPing(cfg, old(View()), p, now)
    {
      var next := win.nextSeq;
      var ahead := p.hdr.number != next && InWindow(p.hdr.number, Inc(next), win.size);
      if cfg.service.N1? {
        if ahead {
          SendNackIfReady(next, now);
        }
      } else if cfg.service.Raw? {
        if !ahead {
          waiting := None;
        } else {
          var ready := IsGapReady(next, now);
          if ready {
            RawDisconnectAll();
            RestartWindow(p.hdr.number);
          }
        }
      } else {
        ScanGaps(p.hdr.number, now);
      }
    }

    method ReceivePing(p: Packet, path: nat, now: nat)
      requires Valid() && path < MAX_PATH
      modifies this, win, win.valid
      ensures Valid() && View() == OnPing(cfg, old(View()), p, path, now)
    {
      UpdateHealth(path);
      MergeReports(p);
      if cfg.service.Raw? {
        ScanPingGap(p, now);
        SyncPaths();
      } else {
        SyncPaths();
        ScanPingGap(p, now);
      }
    }

    method SkipNumber(number: u32)
      requires Valid()
      modifies this`trace, win, win.valid
      ensures Valid() && View() == Skip(old(View()), number)
    {
      ghost var s := View();
      RecvOpsKeepOk(s.win, Packet(Header(0, 0, 0, 0, 0, 0, 0, 0, 0), []));
      var due := win.nextSeq == number;
      win.RecvSkipNumber(number);
      if due {
        Note(Skipped(number));
      }
    }

    method StopWaiting()
      requires Valid()
      modifies this`waiting
      ensures Valid() && View() == old(View()).(waiting := None)
    {
      waiting := None;
    }

    method ReceiveReject(p: Packet)
      requires Valid()
      modifies this, win, win.valid, fragBuf
      ensures Valid() && View() == OnReject(cfg, old(View()), p)
    {
      if cfg.service.Raw? {
        return;
      }
      var ok := AdoptSession(p);
      if !ok {
        return;
      }
      DropAllPaths();
      StopWaiting();
      SkipNumber(p.hdr.ack);
      DrainWindow();
    }

    // ---------- entry points ----------

    method DispatchPacket(p: Packet, path: nat, now: nat)
      requires Valid() && Fits(p) && path < MAX_PATH
      modifies this, win, win.hdrs, win.valid, win.pool, fragBuf
      ensures Valid() && View() == Dispatch(cfg, old(View()), p, path, now)
    {
      match KindOf(p)
      case Fin(targeted) => ReceiveFin(p, targeted);
      case Nack =>
      case Reject => ReceiveReject(p);
      case Ping =>
        var ok := AdoptSession(p);
        if ok {
          ReceivePing(p, path, now);
        }
      case Data =>
        var ok := AdoptSession(p);
        if ok {
          ReceiveData(p, path, now);
        }
      case Other =>
    }

    method TcpPacket(p: Packet, path: nat)
      requires Valid() && Fits(p) && path < MAX_PATH
      modifies this, win, win.hdrs, win.valid, win.pool, fragBuf
      ensures Valid() && View() == TcpHandle(cfg, old(View()), p, path)
    {
      if Has(p.hdr.flags, FIN_ACK) {
        return;
      }
      if Has(p.hdr.flags, FIN) {
        ReceiveFin(p, Has(p.hdr.flags, FIN_TARGET_VALID));
      } else if Has(p.hdr.flags, PING) {
        UpdateHealth(path);
        MergeReports(p);
        SyncPaths();
      } else if Has(p.hdr.flags, DATA) {
        var ok := AdoptSession(p);
        if !ok {
          return;
        }
        ok := StorePacket(p);
        if ok {
          DrainWindow();
        }
      }
    }

    method CheckPaths(expired: Flags)
      requires Valid()
      modifies this
      ensures Valid()
      ensures var s, e := old(View()), Expire(old(pings), expired);
              View() == if e == s.pings then s else Sync(cfg, s.(pings := e))
    {
      var changed, next: Pings := false, pings;
      for k := 0 to MAX_PATH
        invariant changed == exists j :: 0 <= j < k && expired[j] && pings[j] != ABNORMAL
        invariant forall j :: 0 <= j < MAX_PATH ==> next[j] == if j < k && expired[j] then ABNORMAL else pings[j]
      {
        if expired[k] {
          changed := changed || next[k] != ABNORMAL;
          next := next[k := ABNORMAL];
        }
      }
      assert next == Expire(pings, expired);
      if changed {
        pings := next;
        SyncPaths();
      } else {
        assert next == pings;
      }
    }

    method CheckHealth(expired: Flags, silent: bool)
      requires Valid()
      modifies this, win, win.valid
      ensures Valid() && View() == Health(cfg, old(View()), expired, silent)
    {
      if cfg.service.N1? && !alive {
        return;
      }
      CheckPaths(expired);
      if cfg.service.N1? {
        if silent {
          DropPeer();
        }
      } else if alive && silent {
        DropAllPaths();
        ForgetSession();
        RestartWindow(0);
      }
    }

    method DropPeer()
      requires Valid()
      modifies this
      ensures Valid() && View() == Disconnect(old(View()).(remote := NO_PINGS)).(active := false)
    {
      remote := NO_PINGS;
      SyncStates(DOWN);
      active := false;
    }

    method CheckReorderTimeout(now: nat)
      requires Valid()
      modifies this, win, win.valid
      ensures Valid() && View() == Poll(cfg, old(View()), now)
    {
      if waiting.None? {
        return;
      }
      var number := waiting.value.0;
      if cfg.service.Raw? {
        var ready := IsGapReady(number, now);
        if ready {
          RawDisconnectAll();
          ForgetRawSession();
          RestartWindow(0);
        }
      } else {
        SendNackIfReady(number, now);
      }
    }

    method DisconnectByApp()
      requires Valid()
      modifies this
      ensures Valid() && View() == if cfg.service.N1? then Disconnect(old(View())).(active := false) else old(View())
    {
      if cfg.service.N1? {
        SyncStates(DOWN);
        active := false;
      }
    }

    /** A packet handed to the slot: only an active slot takes it, an N:1 slot only under its own session. */
    method HandlePacket(p: Packet, path: nat, now: nat)
      requires Valid() && Fits(p) && path < MAX_PATH
      modifies this, win, win.hdrs, win.valid, win.pool, fragBuf
      ensures Valid() && View() == Step(cfg, old(View()), Recv(p, path, now))
    {
      if !active || (cfg.service.N1? && followed != Some(SessionOf(p))) {
        return;
      }
      Note(Got(p));
      if cfg.service.Tcp? {
        TcpPacket(p, path);
      } else {
        DispatchPacket(p, path, now);
      }
    }

    /** Packets fit the receive buffers. */
    predicate Handles(i: Input)
      reads this, win
    {
      ValidInput(i) && (i.Recv? ==> Fits(i.p))
    }

    method Handle(i: Input)
      requires Valid() && Handles(i)
      modifies this, win, win.hdrs, win.valid, win.pool, fragBuf
      ensures Valid() && View() == Step(cfg, old(View()), i)
    {
      match i
      case Recv(p, path, now) => HandlePacket(p, path, now);
      case HealthCheck(expired, silent) => if active { CheckHealth(expired, silent); }
      case PollTimer(now) => if active { CheckReorderTimeout(now); }
      case Link(links) => if active { linked := links; }
      case AppDisconnect => if active { DisconnectByApp(); }
    }

    /** The receive thread: whatever arrives, the object goes through the run of its view; so what holds in every run
        of a slot just opened holds of the history the object leaves behind. */
    method HandleAll(inputs: seq<Input>)
      requires Valid() && ReceiverRuns.Initial(cfg, View())
      requires forall k :: 0 <= k < |inputs| ==> Handles(inputs[k])
      modifies this, win, win.hdrs, win.valid, win.pool, fragBuf
      ensures Valid() && ReceiverRuns.ValidInputs(inputs) && View() == Run(cfg, old(View()), inputs)
      ensures NoSilentGap(trace) && CallbacksOk(trace) && ReceiverRuns.FinsOk(cfg, trace) && NacksWaited(trace)
      ensures PathsOf(trace) == logical && IsConnected(trace) == alive
    {
      ghost var start := View();
      for n := 0 to |inputs|
        invariant Valid() && View() == Run(cfg, start, inputs[..n])
      {
        Handle(inputs[n]);
        assert inputs[..n + 1][..n] == inputs[..n];
      }
      assert inputs[..|inputs|] == inputs;
      ReceiverRuns.CallbacksInEveryRun(cfg, start, inputs);
      ReceiverRuns.NoSilentGapInEveryRun(cfg, start, inputs);
      ReceiverRuns.FinsInEveryRun(cfg, start, inputs);
      ReceiverRuns.WaitsInEveryRun(cfg, start, inputs);
    }

    method ForgetRawSession()
      requires Valid()
      modifies this`followed, this`trace
      ensures Valid() && View() == Forget(old(View()))
    {
      followed := None;
      Note(Forgot);
    }
  }
}
