/** What holds in every run of a receiving slot, whatever packets arrive and however time passes. */
module ReceiverRuns {
  import opened SeqNum
  import opened Packets
  import opened Windows
  import opened Wire
  import opened Sessions
  import opened Traces
  import opened PathEvents
  import opened Fragments
  import opened Receiver

  // ---------- claims about a trace that need the packets received ----------

  /** Packets whose session is judged. */
  predicate Judged(cfg: Config, p: Packet) {
    if cfg.service.Tcp? then
      !Has(p.hdr.flags, FIN_ACK) && (Has(p.hdr.flags, FIN) || (!Has(p.hdr.flags, PING) && Has(p.hdr.flags, DATA)))
    else
      var k := KindOf(p);
      k.Fin? || k.Ping? || k.Data? || (k.Reject? && !cfg.service.Raw?)
  }

  /** The greatest session judged since the last forget. */
  function Greatest(cfg: Config, t: Trace): Option<Session> {
    match t
    case Nothing => None
    case Then(b, Got(p)) => if Judged(cfg, p) then Follow(Greatest(cfg, b), SessionOf(p)) else Greatest(cfg, b)
    case Then(b, Forgot) => None
    case Then(b, _) => Greatest(cfg, b)
  }

  function LatestGot(t: Trace): Option<Packet> {
    match t
    case Nothing => None
    case Then(b, Got(p)) => Some(p)
    case Then(b, _) => LatestGot(b)
  }

  predicate IsFin(p: Packet, session: Session, target: u32, targeted: bool) {
    && Has(p.hdr.flags, FIN) && Has(p.hdr.flags, FIN_TARGET_VALID) == targeted
    && SessionOf(p) == session && p.hdr.ack == target
  }

  /** A FIN with this target arrived from this session. */
  predicate TargetSeen(t: Trace, session: Session, target: u32) {
    match t
    case Nothing => false
    case Then(b, Got(p)) => IsFin(p, session, target, true) || TargetSeen(b, session, target)
    case Then(b, _) => TargetSeen(b, session, target)
  }

  /** A FIN takes effect only in the session that sent it: one with a target when exactly the numbers before
      the target were popped or skipped, one without a target as soon as it arrives. A FIN_ACK goes out only
      for a FIN taking effect. */
  predicate FinsOk(cfg: Config, t: Trace) {
    match t
    case Nothing => true
    case Then(b, FinFired(n)) =>
      && FinsOk(cfg, b)
      && Greatest(cfg, b).Some?
      && var session := Greatest(cfg, b).value;
         || (Due(b) == Some(n) && TargetSeen(b, session, n))
         || (LatestGot(b).Some? && IsFin(LatestGot(b).value, session, n, false))
    case Then(b, FinAckSent(n)) => FinsOk(cfg, b) && b.Then? && b.last == FinFired(n)
    case Then(b, _) => FinsOk(cfg, b)
  }

  // ---------- the invariant ----------

  /** The setting plus up to a second's worth of jitter fits 32 bits. */
  predicate WaitFits(cfg: Config) {
    cfg.service.Oneway? && cfg.service.jitter ==> cfg.reorderMs <= U32_MOD - 1_000_000_000
  }

  /** Slots that delay NACKs. */
  predicate Delays(cfg: Config) {
    !cfg.service.N1? && 0 < cfg.reorderMs && WaitFits(cfg)
  }

  predicate TimerInv(cfg: Config, s: Slot) {
    Delays(cfg) ==>
      && WaitsRespected(s.trace, Nanos(cfg.reorderMs))
      && (s.waiting.Some? ==>
            && LastArmed(s.trace).Some?
            && LastArmed(s.trace).value.0 == s.waiting.value.0
            && LastArmed(s.trace).value.1 + Nanos(cfg.reorderMs) <= s.waiting.value.1)
  }

  predicate OrderInv(s: Slot) {
    && InOrder(s.trace) && Due(s.trace) == Some(s.win.next)
    && NoSilentGap(s.trace)
    && (LastLive(s.trace).Some? ==> s.followed.Some? && s.alive && s.win.next == Inc(LastLive(s.trace).value))
  }

  predicate FinInv(cfg: Config, s: Slot) {
    && FinsOk(cfg, s.trace)
    && (s.pendingFin.Some? ==> s.followed.Some? && TargetSeen(s.trace, s.followed.value, s.pendingFin.value))
  }

  predicate NoPings(cfg: Config, s: Slot) {
    !cfg.service.Tcp? ==>
      forall d :: 0 <= d < s.win.Size() && s.win.slots[d].Some? ==> !Has(s.win.slots[d].value.hdr.flags, PING)
  }

  predicate Core(cfg: Config, s: Slot) {
    && Agrees(s.trace, s.alive, s.logical)
    && OrderInv(s) && TimerInv(cfg, s) && FinInv(cfg, s) && NacksWaited(s.trace) && NoPings(cfg, s)
  }

  predicate Inv(cfg: Config, s: Slot) {
    Core(cfg, s) && Greatest(cfg, s.trace) == s.followed
  }

  // ---------- callbacks do not disturb the other claims ----------

  lemma {:induction false} DiffQuiet(cfg: Config, t: Trace, was: Flags, next: Flags, n: nat, session: Session, target: u32)
    requires n <= MAX_PATH
    ensures var d := Diff(t, was, next, n);
            && Due(d) == Due(t) && LastLive(d) == LastLive(t) && LastArmed(d) == LastArmed(t)
            && Greatest(cfg, d) == Greatest(cfg, t)
            && TargetSeen(d, session, target) == TargetSeen(t, session, target)
            && InOrder(d) == InOrder(t) && NoSilentGap(d) == NoSilentGap(t) && NacksWaited(d) == NacksWaited(t)
            && FinsOk(cfg, d) == FinsOk(cfg, t)
            && WaitsRespected(d, Nanos(cfg.reorderMs)) == WaitsRespected(t, Nanos(cfg.reorderMs))
  {
    if n > 0 {
      DiffQuiet(cfg, t, was, next, n - 1, session, target);
    }
  }

  lemma SetPathsKeeps(cfg: Config, s: Slot, next: Flags)
    requires Core(cfg, s)
    ensures Core(cfg, SetPaths(s, next)) && Greatest(cfg, SetPaths(s, next).trace) == Greatest(cfg, s.trace)
    ensures LastLive(SetPaths(s, next).trace).Some? ==> AnyUp(next)
  {
    SyncAgrees(s.trace, s.alive, s.logical, next);
    var pending := s.followed.Some? && s.pendingFin.Some?;
    DiffQuiet(cfg, s.trace, s.logical, next, MAX_PATH,
              if pending then s.followed.value else Session(0, 0, 0), if pending then s.pendingFin.value else 0);
  }

  lemma DropPathsKeeps(cfg: Config, s: Slot)
    requires Core(cfg, s)
    ensures Core(cfg, DropPaths(s)) && Greatest(cfg, DropPaths(s).trace) == Greatest(cfg, s.trace)
    ensures LastLive(DropPaths(s).trace).None?
  {
    SetPathsKeeps(cfg, s.(pings := NO_PINGS, remote := NO_PINGS), DOWN);
  }

  lemma SyncKeeps(cfg: Config, s: Slot)
    requires Core(cfg, s)
    ensures Core(cfg, Sync(cfg, s)) && Greatest(cfg, Sync(cfg, s).trace) == Greatest(cfg, s.trace)
  {
    SetPathsKeeps(cfg, s, [PathUp(cfg, s, 0), PathUp(cfg, s, 1), PathUp(cfg, s, 2), PathUp(cfg, s, 3)]);
  }

  // ---------- every function keeps the invariant ----------

  /** Restarting the window is allowed once nothing delivered could be separated silently. */
  lemma RestartKeeps(cfg: Config, s: Slot, number: u32)
    requires Core(cfg, s) && LastLive(s.trace).None?
    ensures Core(cfg, Restart(s, number)) && Greatest(cfg, Restart(s, number).trace) == Greatest(cfg, s.trace)
    ensures LastLive(Restart(s, number).trace).None?
  {
  }

  /** Whatever the verdict, after adoption the slot follows the greatest session seen. */
  lemma AdoptKeeps(cfg: Config, s: Slot, p: Packet)
    requires Core(cfg, s) && Greatest(cfg, s.trace) == Follow(s.followed, SessionOf(p))
    requires LastLive(s.trace).Some? ==> s.followed.Some?
    ensures Inv(cfg, Adopt(s, p).1)
    ensures Adopt(s, p).0 ==> Adopt(s, p).1.followed == Some(SessionOf(p))
    ensures LatestGot(Adopt(s, p).1.trace) == LatestGot(s.trace)
    ensures TargetSeen(Adopt(s, p).1.trace, SessionOf(p), p.hdr.ack) == TargetSeen(s.trace, SessionOf(p), p.hdr.ack)
  {
    if Judge(s.followed, SessionOf(p)).New? {
      var s1 := if s.followed.Some? then Emit(s, Switched) else s;
      assert LastLive(s1.trace).None?;
      var s2 := s1.(followed := Some(SessionOf(p)), waiting := None, pendingFin := None);
      assert Core(cfg, s2);
      RestartKeeps(cfg, s2, p.hdr.number);
    }
  }

  lemma ArmKeeps(cfg: Config, s: Slot, number: u32, now: nat, deadline: nat)
    requires Inv(cfg, s) && now + Nanos(cfg.reorderMs) <= deadline
    ensures Inv(cfg, Emit(s.(waiting := Some((number, deadline))), Armed(number, now)))
  {
  }

  lemma ReadyKeeps(cfg: Config, s: Slot, number: u32, now: nat, waiting: Option<(u32, nat)>)
    requires Inv(cfg, s)
    requires Delays(cfg) ==> waiting.None? && s.waiting.Some? && s.waiting.value.0 == number && s.waiting.value.1 <= now
    ensures Inv(cfg, Emit(s.(waiting := waiting), Ready(number, now)))
  {
  }

  lemma GapReadyKeeps(cfg: Config, s: Slot, number: u32, now: nat)
    requires Inv(cfg, s)
    ensures var (ready, s1) := GapReady(cfg, s, number, now);
            Inv(cfg, s1) && s1 == s.(waiting := s1.waiting, trace := s1.trace)
            && LastLive(s1.trace) == LastLive(s.trace)
            && (ready ==> s1.trace.Then? && s1.trace.last == Ready(number, now))
  {
    var (ready, s1) := GapReady(cfg, s, number, now);
    if ready {
      ReadyKeeps(cfg, s, number, now, s1.waiting);
    } else if s1 != s {
      if Delays(cfg) {
        FittingWait(cfg, now);
        ArmKeeps(cfg, s, number, now, s1.waiting.value.1);
      }
    }
  }

  lemma FittingWait(cfg: Config, now: nat)
    requires 0 < cfg.reorderMs && WaitFits(cfg)
    ensures WaitMs(cfg, now) >= cfg.reorderMs && Nanos(WaitMs(cfg, now)) >= Nanos(cfg.reorderMs)
  {
    RemainderAtMost(now % 1_000_000_000, cfg.reorderMs);
    var jitter := now % 1_000_000_000 % cfg.reorderMs;
    assert 0 <= jitter < 1_000_000_000;
    assert WaitFits(cfg) && cfg.service.Oneway? && cfg.service.jitter ==>
             Wrap(cfg.reorderMs + jitter) == cfg.reorderMs + jitter;
  }

  lemma RemainderAtMost(x: nat, m: nat)
    requires 0 < m
    ensures x % m <= x
  {
    assert x == x / m * m + x % m;
    assert x / m * m >= 0;
  }

  lemma ShortWait(cfg: Config)
    requires !WaitFits(cfg)
    ensures WaitMs(cfg, 999_999_999) < cfg.reorderMs
  {
    var nsec, ms := 999_999_999, cfg.reorderMs;
    assert nsec % 1_000_000_000 == nsec < ms;
    ModOnce(nsec, ms);
    assert nsec % 1_000_000_000 % ms == nsec;
    assert Wrap(ms + nsec) == ms + nsec - U32_MOD;
  }

  /** The jittered wait, computed in 32 bits, is at every clock reading at least the setting exactly when the
      setting leaves room for the jitter. */
  lemma WaitLongEnough(cfg: Config)
    requires 0 < cfg.reorderMs
    ensures (forall now: nat :: WaitMs(cfg, now) >= cfg.reorderMs) <==> WaitFits(cfg)
  {
    if WaitFits(cfg) {
      forall now: nat
        ensures WaitMs(cfg, now) >= cfg.reorderMs
      {
        FittingWait(cfg, now);
      }
    } else {
      ShortWait(cfg);
    }
  }

  lemma NackKeeps(cfg: Config, s: Slot, number: u32, now: nat)
    requires Inv(cfg, s)
    ensures Inv(cfg, NackIfReady(cfg, s, number, now))
  {
    GapReadyKeeps(cfg, s, number, now);
  }

  lemma {:induction false} DeliverAllInv(cfg: Config, s: Slot, es: seq<Elem>)
    requires Inv(cfg, s)
    ensures Inv(cfg, DeliverAll(cfg, s, es))
    decreases |es|
  {
    if es != [] {
      DeliverAllInv(cfg, Deliver(cfg, s, es[0]), es[1..]);
    }
  }

  lemma PopOneKeeps(cfg: Config, s: Slot)
    requires Inv(cfg, s) && CanPop(s.win) && s.followed.Some?
    ensures Inv(cfg, PopOne(cfg, s)) && PopOne(cfg, s).followed == s.followed
  {
    RecvOpsKeepOk(s.win, s.win.slots[0].value);
    var p := s.win.slots[0].value;
    assert p.hdr.number == s.win.next;
    var s1 := Emit(s.(win := Consume(s.win)), Popped(p.hdr.number, s.alive));
    assert NoPings(cfg, s1) by {
      assert forall d :: 0 <= d < s1.win.Size() - 1 ==> s1.win.slots[d] == s.win.slots[d + 1];
    }
    DeliverAllInv(cfg, s1, UnpackFrom(p.payload, 0));
    DeliverAllKeeps(cfg, s1, UnpackFrom(p.payload, 0));
  }

  lemma {:induction false} PopAllKeeps(cfg: Config, s: Slot)
    requires Inv(cfg, s) && s.followed.Some?
    ensures Inv(cfg, PopAll(cfg, s)) && PopAll(cfg, s).followed == s.followed
    decreases Leading(s.win.slots)
  {
    if CanPop(s.win) {
      PopShortens(cfg, s);
      PopOneKeeps(cfg, s);
      PopAllKeeps(cfg, PopOne(cfg, s));
    }
  }

  predicate FinDue(s: Slot, target: u32) {
    && s.followed.Some?
    && (|| (s.win.next == target && TargetSeen(s.trace, s.followed.value, target))
        || (LatestGot(s.trace).Some? && IsFin(LatestGot(s.trace).value, s.followed.value, target, false)))
  }

  lemma FinFiredKeeps(cfg: Config, s: Slot, target: u32)
    requires Inv(cfg, s) && FinDue(s, target)
    ensures Inv(cfg, Emit(s, FinFired(target)))
    ensures Inv(cfg, Emit(Emit(s, FinFired(target)), FinAckSent(target)))
  {
    assert Inv(cfg, Emit(s, FinFired(target)));
  }

  lemma FinFireKeeps(cfg: Config, s: Slot, target: u32)
    requires Inv(cfg, s) && FinDue(s, target)
    ensures Inv(cfg, FinFire(cfg, s, target))
  {
    FinFiredKeeps(cfg, s, target);
    var s1 := Emit(s, FinFired(target));
    if cfg.service.N1? {
      SetPathsKeeps(cfg, s1, DOWN);
    } else {
      var s2 := if cfg.service.Tcp? then Emit(s1, FinAckSent(target)) else s1;
      DropPathsKeeps(cfg, s2);
      ForgetKeeps(cfg, DropPaths(s2));
    }
  }

  lemma ForgetKeeps(cfg: Config, s: Slot)
    requires Core(cfg, s) && LastLive(s.trace).None?
    ensures Inv(cfg, Restart(Forget(s.(pendingFin := None, waiting := None)), 0))
  {
    RestartKeeps(cfg, Forget(s.(pendingFin := None, waiting := None)), 0);
  }

  lemma DrainKeeps(cfg: Config, s: Slot)
    requires Inv(cfg, s) && s.followed.Some?
    ensures Inv(cfg, Drain(cfg, s))
  {
    PopAllKeeps(cfg, s);
    var s1 := PopAll(cfg, s);
    if s1.pendingFin == Some(s1.win.next) {
      FinFireKeeps(cfg, s1, s1.win.next);
    }
  }

  // ---------- DATA ----------

  lemma StoredKeeps(cfg: Config, s: Slot, p: Packet)
    requires Inv(cfg, s) && Accepts(s.win, p.hdr.number)
    requires cfg.service.Tcp? || !Has(p.hdr.flags, PING)
    ensures Inv(cfg, Stored(s, p))
  {
  }

  lemma RawDisconnectKeeps(cfg: Config, s: Slot)
    requires Core(cfg, s)
    ensures Core(cfg, RawDisconnect(s)) && Greatest(cfg, RawDisconnect(s).trace) == Greatest(cfg, s.trace)
    ensures LastLive(RawDisconnect(s).trace).None?
  {
    DropPathsKeeps(cfg, s);
  }

  lemma RawRestartKeeps(cfg: Config, s: Slot, p: Packet)
    requires Inv(cfg, s) && !Has(p.hdr.flags, PING)
    ensures Inv(cfg, RawRestart(s, p))
  {
    RawDisconnectKeeps(cfg, s);
    RestartKeeps(cfg, RawDisconnect(s), p.hdr.number);
    StoredKeeps(cfg, Restart(RawDisconnect(s), p.hdr.number), p);
  }

  lemma GapBeforeDrainKeeps(cfg: Config, s: Slot, p: Packet, now: nat)
    requires Inv(cfg, s) && !Has(p.hdr.flags, PING)
    ensures Inv(cfg, GapBeforeDrain(cfg, s, p, now))
    ensures GapBeforeDrain(cfg, s, p, now).followed == s.followed
  {
    GapReadyKeeps(cfg, s, s.win.next, now);
    NackKeeps(cfg, s, s.win.next, now);
    RawRestartKeeps(cfg, GapReady(cfg, s, s.win.next, now).1, p);
  }

  lemma GapAfterDrainKeeps(cfg: Config, s: Slot, now: nat)
    requires Inv(cfg, s)
    ensures Inv(cfg, GapAfterDrain(cfg, s, now))
  {
    NackKeeps(cfg, s, s.win.next, now);
  }

  lemma HeardDataKeeps(cfg: Config, s: Slot, path: nat)
    requires Inv(cfg, s) && path < MAX_PATH
    ensures Inv(cfg, HeardData(cfg, s, path)) && HeardData(cfg, s, path).followed == s.followed
  {
    SyncKeeps(cfg, Heard(s, path));
  }

  lemma EnterKeeps(cfg: Config, s: Slot, p: Packet)
    requires Inv(cfg, s) && !Has(p.hdr.flags, PING)
    ensures Accepts(s.win, p.hdr.number) ==> Inv(cfg, Stored(s, p)) && Stored(s, p).followed == s.followed
    ensures Inv(cfg, RawRestart(s, p)) && RawRestart(s, p).followed == s.followed
  {
    RawRestartKeeps(cfg, s, p);
    if Accepts(s.win, p.hdr.number) { StoredKeeps(cfg, s, p); }
  }

  lemma AcceptOuterKeeps(cfg: Config, s: Slot, p: Packet, path: nat, now: nat)
    requires Inv(cfg, s) && s.followed.Some? && path < MAX_PATH && !Has(p.hdr.flags, PING)
    ensures Inv(cfg, AcceptOuter(cfg, s, p, path, now))
  {
    if Accepts(s.win, p.hdr.number) || cfg.service.Raw? {
      EnterKeeps(cfg, s, p);
      EnteredKeeps(cfg, if Accepts(s.win, p.hdr.number) then Stored(s, p) else RawRestart(s, p), p, path, now);
    }
  }

  lemma EnteredKeeps(cfg: Config, s: Slot, p: Packet, path: nat, now: nat)
    requires Inv(cfg, s) && s.followed.Some? && path < MAX_PATH && !Has(p.hdr.flags, PING)
    ensures var s3 := Drain(cfg, HeardData(cfg, GapBeforeDrain(cfg, s, p, now), path));
            Inv(cfg, s3) && Inv(cfg, GapAfterDrain(cfg, s3, now))
  {
    GapBeforeDrainKeeps(cfg, s, p, now);
    HeardDataKeeps(cfg, GapBeforeDrain(cfg, s, p, now), path);
    var s2 := HeardData(cfg, GapBeforeDrain(cfg, s, p, now), path);
    DrainKeeps(cfg, s2);
    GapAfterDrainKeeps(cfg, Drain(cfg, s2), now);
  }

  // ---------- PING, REJECT, FIN ----------

  lemma {:induction false} ScanKeeps(cfg: Config, s: Slot, d: nat, target: u32, now: nat)
    requires Inv(cfg, s)
    ensures Inv(cfg, Scan(cfg, s, d, target, now))
    decreases s.win.Size() - d
  {
    var number := Wrap(s.win.base + d);
    if number != target && d < s.win.Size() {
      if s.win.slots[d].Some? {
        ScanKeeps(cfg, s, d + 1, target, now);
      } else {
        NackKeeps(cfg, s, number, now);
        var (ready, s1) := GapReady(cfg, s, number, now);
        if ready {
          ScanKeeps(cfg, Emit(s1, NackSent(number)), d + 1, target, now);
        }
      }
    }
  }

  lemma ScanPingKeeps(cfg: Config, s: Slot, p: Packet, now: nat)
    requires Inv(cfg, s)
    ensures Inv(cfg, ScanPing(cfg, s, p, now))
  {
    if cfg.service.N1? {
      NackKeeps(cfg, s, s.win.next, now);
    } else if cfg.service.Raw? {
      GapReadyKeeps(cfg, s, s.win.next, now);
      var s1 := GapReady(cfg, s, s.win.next, now).1;
      RawDisconnectKeeps(cfg, s1);
      RestartKeeps(cfg, RawDisconnect(s1), p.hdr.number);
    } else {
      ScanKeeps(cfg, s, 0, p.hdr.number, now);
    }
  }

  lemma OnPingKeeps(cfg: Config, s: Slot, p: Packet, path: nat, now: nat)
    requires Inv(cfg, s) && path < MAX_PATH
    ensures Inv(cfg, OnPing(cfg, s, p, path, now))
  {
    var s1 := ApplyReport(Heard(s, path), p);
    if cfg.service.Raw? {
      ScanPingKeeps(cfg, s1, p, now);
      SyncKeeps(cfg, ScanPing(cfg, s1, p, now));
    } else {
      SyncKeeps(cfg, s1);
      ScanPingKeeps(cfg, Sync(cfg, s1), p, now);
    }
  }

  /** A number is skipped only while disconnected. */
  lemma SkipKeeps(cfg: Config, s: Slot, number: u32)
    requires Inv(cfg, s) && LastLive(s.trace).None?
    ensures Inv(cfg, Skip(s, number)) && Skip(s, number).followed == s.followed
  {
    RecvOpsKeepOk(s.win, Packet(Header(0, 0, 0, 0, 0, 0, 0, 0, 0), []));
    var c := Consume(s.win);
    assert forall d :: 0 <= d < s.win.Size() - 1 ==> c.slots[d] == s.win.slots[d + 1];
  }

  lemma OnRejectKeeps(cfg: Config, s: Slot, p: Packet)
    requires Core(cfg, s)
    requires Greatest(cfg, s.trace) == if cfg.service.Raw? then s.followed else Follow(s.followed, SessionOf(p))
    ensures Inv(cfg, OnReject(cfg, s, p))
  {
    if !cfg.service.Raw? {
      AdoptKeeps(cfg, s, p);
      var (ok, s1) := Adopt(s, p);
      if ok {
        DropPathsKeeps(cfg, s1);
        var s2 := DropPaths(s1).(waiting := None);
        SkipKeeps(cfg, s2, p.hdr.ack);
        DrainKeeps(cfg, Skip(s2, p.hdr.ack));
      }
    }
  }

  lemma OnFinKeeps(cfg: Config, s: Slot, p: Packet)
    requires Core(cfg, s) && Greatest(cfg, s.trace) == Follow(s.followed, SessionOf(p))
    requires LatestGot(s.trace) == Some(p) && Has(p.hdr.flags, FIN)
    requires Has(p.hdr.flags, FIN_TARGET_VALID) ==> TargetSeen(s.trace, SessionOf(p), p.hdr.ack)
    requires cfg.service.N1? ==> s.followed == Some(SessionOf(p))
    ensures Inv(cfg, OnFin(cfg, s, p, Has(p.hdr.flags, FIN_TARGET_VALID)))
  {
    AdoptKeeps(cfg, s, p);
    var targeted := Has(p.hdr.flags, FIN_TARGET_VALID);
    var (ok, s1) := if cfg.service.N1? then (true, s) else Adopt(s, p);
    if ok && !(targeted && s1.win.next != p.hdr.ack) {
      FinFireKeeps(cfg, s1, p.hdr.ack);
    }
  }

  // ---------- steps and runs ----------

  lemma GotKeeps(cfg: Config, s: Slot, p: Packet)
    requires Inv(cfg, s)
    ensures var s0 := Emit(s, Got(p));
            && Core(cfg, s0) && LatestGot(s0.trace) == Some(p)
            && (IsFin(p, SessionOf(p), p.hdr.ack, true) ==> TargetSeen(s0.trace, SessionOf(p), p.hdr.ack))
            && Greatest(cfg, s0.trace) == if Judged(cfg, p) then Follow(s.followed, SessionOf(p)) else s.followed
  {
  }

  lemma DispatchKeeps(cfg: Config, s: Slot, p: Packet, path: nat, now: nat)
    requires Inv(cfg, s) && path < MAX_PATH && Routed(cfg, s, p) && !cfg.service.Tcp?
    ensures Inv(cfg, Dispatch(cfg, Emit(s, Got(p)), p, path, now))
  {
    GotKeeps(cfg, s, p);
    var s0 := Emit(s, Got(p));
    match KindOf(p)
    case Fin(targeted) => OnFinKeeps(cfg, s0, p);
    case Reject => OnRejectKeeps(cfg, s0, p);
    case Ping =>
      AdoptKeeps(cfg, s0, p);
      if Adopt(s0, p).0 { OnPingKeeps(cfg, Adopt(s0, p).1, p, path, now); }
    case Data =>
      AdoptKeeps(cfg, s0, p);
      if Adopt(s0, p).0 { AcceptOuterKeeps(cfg, Adopt(s0, p).1, p, path, now); }
    case _ =>
  }

  lemma TcpHandleKeeps(cfg: Config, s: Slot, p: Packet, path: nat)
    requires Inv(cfg, s) && path < MAX_PATH && cfg.service.Tcp?
    ensures Inv(cfg, TcpHandle(cfg, Emit(s, Got(p)), p, path))
  {
    GotKeeps(cfg, s, p);
    var s0 := Emit(s, Got(p));
    if Has(p.hdr.flags, FIN_ACK) {
    } else if Has(p.hdr.flags, FIN) {
      OnFinKeeps(cfg, s0, p);
    } else if Has(p.hdr.flags, PING) {
      SyncKeeps(cfg, ApplyReport(Heard(s0, path), p));
    } else if Has(p.hdr.flags, DATA) {
      AdoptKeeps(cfg, s0, p);
      var (ok, s1) := Adopt(s0, p);
      if ok && Accepts(s1.win, p.hdr.number) {
        StoredKeeps(cfg, s1, p);
        DrainKeeps(cfg, Stored(s1, p));
      }
    }
  }

  lemma HealthKeeps(cfg: Config, s: Slot, expired: Flags, silent: bool)
    requires Inv(cfg, s)
    ensures Inv(cfg, Health(cfg, s, expired, silent))
  {
    var pings := Expire(s.pings, expired);
    var s1 := if pings == s.pings then s else Sync(cfg, s.(pings := pings));
    assert Inv(cfg, s1) by { SyncKeeps(cfg, s.(pings := pings)); }
    if cfg.service.N1? {
      SetPathsKeeps(cfg, s1.(remote := NO_PINGS), DOWN);
    } else if s1.alive && silent {
      DropPathsKeeps(cfg, s1);
      ForgetKeeps(cfg, DropPaths(s1));
    }
  }

  lemma PollKeeps(cfg: Config, s: Slot, now: nat)
    requires Inv(cfg, s)
    ensures Inv(cfg, Poll(cfg, s, now))
  {
    if s.waiting.Some? {
      var number := s.waiting.value.0;
      GapReadyKeeps(cfg, s, number, now);
      NackKeeps(cfg, s, number, now);
      var s1 := GapReady(cfg, s, number, now).1;
      RawDisconnectKeeps(cfg, s1);
      assert Core(cfg, Forget(RawDisconnect(s1)));
      RestartKeeps(cfg, Forget(RawDisconnect(s1)), 0);
    }
  }

  lemma StepKeeps(cfg: Config, s: Slot, i: Input)
    requires Inv(cfg, s) && ValidInput(i)
    ensures Inv(cfg, Step(cfg, s, i))
  {
    if s.active {
      match i
      case Recv(p, path, now) =>
        if Routed(cfg, s, p) {
          if cfg.service.Tcp? { TcpHandleKeeps(cfg, s, p, path); } else { DispatchKeeps(cfg, s, p, path, now); }
        }
      case HealthCheck(expired, silent) => HealthKeeps(cfg, s, expired, silent);
      case PollTimer(now) => PollKeeps(cfg, s, now);
      case Link(linked) =>
      case AppDisconnect => SetPathsKeeps(cfg, s, DOWN);
    }
  }

  predicate ValidInputs(inputs: seq<Input>) {
    forall i :: 0 <= i < |inputs| ==> ValidInput(inputs[i])
  }

  lemma {:induction false} RunKeeps(cfg: Config, s: Slot, inputs: seq<Input>)
    requires Inv(cfg, s) && ValidInputs(inputs)
    ensures Inv(cfg, Run(cfg, s, inputs))
  {
    if inputs != [] {
      var n := |inputs| - 1;
      RunKeeps(cfg, s, inputs[..n]);
      StepKeeps(cfg, Run(cfg, s, inputs[..n]), inputs[n]);
    }
  }

  /** The slot of a service just opened, or of a peer its first PING just created. */
  ghost predicate Initial(cfg: Config, s: Slot) {
    if cfg.service.N1? then
      exists size: nat, p: Packet :: 0 < size < U16_MOD && KindOf(p).Ping? && s == PeerOpened(size, p)
    else
      exists size: nat :: 0 < size < U16_MOD && s == Opened(size)
  }

  lemma InitialInv(cfg: Config, s: Slot)
    requires Initial(cfg, s)
    ensures Inv(cfg, s)
  {
    if cfg.service.N1? {
      var size: nat, p: Packet :| 0 < size < U16_MOD && KindOf(p).Ping? && s == PeerOpened(size, p);
      OpenedInv(cfg, Then(Nothing, Got(p)), Some(SessionOf(p)), p.hdr.number, size);
    } else {
      var size: nat :| 0 < size < U16_MOD && s == Opened(size);
      OpenedInv(cfg, Nothing, None, 0, size);
    }
  }

  lemma OpenedInv(cfg: Config, t: Trace, followed: Option<Session>, number: u32, size: nat)
    requires 0 < size < U16_MOD && Greatest(cfg, t) == followed
    requires t.Nothing? || (t.before.Nothing? && t.last.Got?)
    ensures Inv(cfg, Opened(size).(win := Init(number, size), followed := followed, trace := Then(t, Started(number))))
  {
    ShortTrace(cfg, t);
  }

  lemma ShortTrace(cfg: Config, t: Trace)
    requires t.Nothing? || (t.before.Nothing? && t.last.Got?)
    ensures CallbacksOk(t) && PathsOf(t) == DOWN && !IsConnected(t) && InOrder(t) && NoSilentGap(t)
    ensures LastLive(t) == None && NacksWaited(t) && FinsOk(cfg, t) && WaitsRespected(t, Nanos(cfg.reorderMs))
  {
    if t.Then? {
      ShortTrace(cfg, t.before);
    }
  }

  // ---------- main results ----------

  /** In every run, callbacks alternate per session and per path, the session callback follows the path
      callbacks that cause it, DATA comes only while connected, and folding the callbacks gives the slot's own
      path and session state. */
  lemma CallbacksInEveryRun(cfg: Config, s: Slot, inputs: seq<Input>)
    requires Initial(cfg, s) && ValidInputs(inputs)
    ensures var r := Run(cfg, s, inputs);
            CallbacksOk(r.trace) && PathsOf(r.trace) == r.logical && IsConnected(r.trace) == r.alive == AnyUp(r.logical)
  {
    InitialInv(cfg, s);
    RunKeeps(cfg, s, inputs);
  }

  /** In every run, numbers leave the window one after the other from every restart on, and two packets
      delivered without a DISCONNECTED or a session switch between them are neighbours. */
  lemma NoSilentGapInEveryRun(cfg: Config, s: Slot, inputs: seq<Input>)
    requires Initial(cfg, s) && ValidInputs(inputs)
    ensures var r := Run(cfg, s, inputs);
            NoSilentGap(r.trace) && InOrder(r.trace) && Due(r.trace) == Some(r.win.next) && r.win.base == r.win.next
  {
    InitialInv(cfg, s);
    RunKeeps(cfg, s, inputs);
  }

  /** In every run, FINs take effect as `FinsOk` says. */
  lemma FinsInEveryRun(cfg: Config, s: Slot, inputs: seq<Input>)
    requires Initial(cfg, s) && ValidInputs(inputs)
    ensures FinsOk(cfg, Run(cfg, s, inputs).trace)
  {
    InitialInv(cfg, s);
    RunKeeps(cfg, s, inputs);
  }

  /** In every run of a 1:1 slot with a reorder wait, a NACK for a number goes out only when that number was
      the last one armed, and at least the wait before. */
  lemma WaitsInEveryRun(cfg: Config, s: Slot, inputs: seq<Input>)
    requires Initial(cfg, s) && ValidInputs(inputs)
    ensures NacksWaited(Run(cfg, s, inputs).trace)
    ensures Delays(cfg) ==> WaitsRespected(Run(cfg, s, inputs).trace, Nanos(cfg.reorderMs))
  {
    InitialInv(cfg, s);
    RunKeeps(cfg, s, inputs);
  }

  /** The sessions judged since the last forget, in order of arrival. */
  function JudgedSince(cfg: Config, t: Trace): seq<Session> {
    match t
    case Nothing => []
    case Then(b, Got(p)) => JudgedSince(cfg, b) + if Judged(cfg, p) then [SessionOf(p)] else []
    case Then(b, Forgot) => []
    case Then(b, _) => JudgedSince(cfg, b)
  }

  lemma {:induction false} GreatestOfJudged(cfg: Config, t: Trace)
    ensures Greatest(cfg, t) == FollowAll(None, JudgedSince(cfg, t))
  {
    if t.Then? {
      GreatestOfJudged(cfg, t.before);
      if t.last.Got? && Judged(cfg, t.last.p) {
        var seen := JudgedSince(cfg, t.before);
        assert (seen + [SessionOf(t.last.p)])[..|seen|] == seen;
      } else if t.last.Got? {
        assert JudgedSince(cfg, t.before) + [] == JudgedSince(cfg, t.before);
      }
    }
  }

  /** In every run, the session followed is one of those judged since the last forget, and none of them comes after
      it; nothing is followed exactly when none was judged. */
  lemma FollowsGreatestInEveryRun(cfg: Config, s: Slot, inputs: seq<Input>)
    requires Initial(cfg, s) && ValidInputs(inputs)
    ensures var r := Run(cfg, s, inputs);
            var seen := JudgedSince(cfg, r.trace);
            && (r.followed == None <==> seen == [])
            && (r.followed.Some? ==> r.followed.value in seen && forall x :: x in seen ==> AtMost(x, r.followed.value))
  {
    InitialInv(cfg, s);
    RunKeeps(cfg, s, inputs);
    var r := Run(cfg, s, inputs);
    GreatestOfJudged(cfg, r.trace);
    if JudgedSince(cfg, r.trace) != [] {
      FollowsMaximum(JudgedSince(cfg, r.trace));
    }
  }

  /** A packet of a strictly older session changes nothing, except that TCP takes any PING for path health. */
  lemma OlderSessionIgnored(cfg: Config, s: Slot, p: Packet, path: nat, now: nat)
    requires path < MAX_PATH && s.followed.Some? && !AtMost(s.followed.value, SessionOf(p))
    requires !(cfg.service.Tcp? && Has(p.hdr.flags, PING))
    ensures var r := Step(cfg, s, Recv(p, path, now)); r == s || r == Emit(s, Got(p))
  {
    VerdictIsOrder(s.followed.value, SessionOf(p));
  }

  /** A RAW slot that sees a PING beyond its window position gives up the connection and, contrary to
      docs/sequence-data.md, is not connected again by that same PING: the reset clears the path state the PING
      had just set. It stays connected exactly when there is no gap or the reorder wait is not over. */
  lemma RawPingGap(cfg: Config, s: Slot, p: Packet, path: nat, now: nat)
    requires cfg.service.Raw? && path < MAX_PATH
    ensures var ahead := p.hdr.number != s.win.next && InWindow(p.hdr.number, Inc(s.win.next), s.win.Size());
            var s1 := ApplyReport(Heard(s, path), p);
            OnPing(cfg, s, p, path, now).alive <==> !ahead || !GapReady(cfg, s1, s1.win.next, now).0
  {
    var s1 := ApplyReport(Heard(s, path), p);
    RawScanPings(cfg, s1, p, now);
    SyncAlive(cfg, ScanPing(cfg, s1, p, now), path);
  }

  lemma RawScanPings(cfg: Config, s: Slot, p: Packet, now: nat)
    requires cfg.service.Raw?
    ensures var ahead := p.hdr.number != s.win.next && InWindow(p.hdr.number, Inc(s.win.next), s.win.Size());
            ScanPing(cfg, s, p, now).pings
            == if ahead && GapReady(cfg, s, s.win.next, now).0 then NO_PINGS else s.pings
  {
  }

  lemma SyncAlive(cfg: Config, s: Slot, path: nat)
    requires path < MAX_PATH
    ensures s.pings == NO_PINGS ==> !Sync(cfg, s).alive
    ensures PathUp(cfg, s, path) ==> Sync(cfg, s).alive
  {
    var up := [PathUp(cfg, s, 0), PathUp(cfg, s, 1), PathUp(cfg, s, 2), PathUp(cfg, s, 3)];
    assert PathUp(cfg, s, path) ==> up[path];
  }
}
