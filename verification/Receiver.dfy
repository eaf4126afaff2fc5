/** One receiving slot (prod/libsrc/porter/thread/thread_recv_*.c and the packet handlers of
    prod/libsrc/porter/thread/potr_recv_thread.c) as functions from state to state. A slot is either the whole
    service (1:1) or one peer of an N:1 service. Everything a slot does to the outside is appended to its
    trace. */
module Receiver {
  import opened SeqNum
  import opened Packets
  import opened Windows
  import opened Wire
  import opened Sessions
  import opened Traces
  import opened PathEvents
  import opened Fragments

  /** `jitter` is on for multicast and broadcast. */
  datatype Service = Raw | Oneway(jitter: bool) | Bidir | N1 | Tcp

  datatype Config = Config(service: Service, reorderMs: u32, maxMessage: nat, codec: Codec)

  const UNDEFINED: byte := 0
  const NORMAL: byte := 1
  const ABNORMAL: byte := 2

  type Pings = s: seq<byte> | |s| == 4 witness [0, 0, 0, 0]

  const NO_PINGS: Pings := [0, 0, 0, 0]

  type RecvWin = w: Win | RecvOk(w) witness Init(0, 1)

  datatype Slot = Slot(
    active: bool,                       // a freed N:1 peer is inactive
    win: RecvWin,
    followed: Option<Session>,          // peer_session_known / _id / _ts
    waiting: Option<(u32, nat)>,        // reorder_pending: number and deadline
    pendingFin: Option<u32>,
    frag: Frag,
    pings: Pings,                       // path_ping_state
    remote: Pings,                      // remote_path_ping_state
    linked: Flags,                      // TCP paths with a connection
    logical: Flags,                     // path_logical_alive
    alive: bool,                        // health_alive
    trace: Trace)

  function Emit(s: Slot, e: Event): Slot {
    s.(trace := Then(s.trace, e))
  }

  /** `potr_internal_window_init` and `_recv_reset`: the window is emptied and restarts at a number. */
  function Restart(s: Slot, number: u32): Slot {
    Emit(s.(win := Init(number, s.win.Size())), Started(number))
  }

  // ---------- sessions ----------

  function Adopt(s: Slot, p: Packet): (bool, Slot) {
    match Judge(s.followed, SessionOf(p))
    case Old => (false, s)
    case Same => (true, s)
    case New =>
      var s1 := if s.followed.Some? then Emit(s, Switched) else s;
      (true, Restart(s1.(followed := Some(SessionOf(p)), waiting := None, pendingFin := None), p.hdr.number))
  }

  function Forget(s: Slot): Slot {
    Emit(s.(followed := None), Forgot)
  }

  // ---------- paths ----------

  function SetPaths(s: Slot, next: Flags): Slot {
    s.(logical := next, alive := AnyUp(next), trace := SyncTrace(s.trace, s.alive, s.logical, next))
  }

  predicate PathUp(cfg: Config, s: Slot, k: nat)
    requires k < MAX_PATH
  {
    && s.pings[k] == NORMAL
    && (cfg.service.Raw? || cfg.service.Oneway? || s.remote[k] == NORMAL)
    && (cfg.service.Tcp? ==> s.linked[k])
  }

  function Sync(cfg: Config, s: Slot): Slot {
    SetPaths(s, [PathUp(cfg, s, 0), PathUp(cfg, s, 1), PathUp(cfg, s, 2), PathUp(cfg, s, 3)])
  }

  function Heard(s: Slot, path: nat): Slot
    requires path < MAX_PATH
  {
    s.(pings := s.pings[path := NORMAL])
  }

  function Disconnect(s: Slot): Slot {
    SetPaths(s, DOWN)
  }

  /** The reset shared by REJECT, RAW resets, FIN and the health timeout. */
  function DropPaths(s: Slot): Slot {
    Disconnect(s.(pings := NO_PINGS, remote := NO_PINGS))
  }

  function RawDisconnect(s: Slot): Slot {
    DropPaths(s).(pendingFin := None, frag := NO_FRAG)
  }

  function MergeReport(mine: byte, report: byte): byte {
    if report != UNDEFINED then report else mine
  }

  /** `thread_recv_apply_remote_path_ping_state`, when the PING carries a report. */
  function ApplyReport(s: Slot, p: Packet): Slot {
    if |p.payload| < MAX_PATH then s
    else
      var r, b := s.remote, p.payload;
      s.(remote := [MergeReport(r[0], b[0]), MergeReport(r[1], b[1]), MergeReport(r[2], b[2]), MergeReport(r[3], b[3])])
  }

  // ---------- reorder wait ----------

  function Nanos(ms: nat): nat {
    ms * 1_000_000
  }

  /** How long to wait, in ms: with jitter, 100% to 200% of the setting, computed in 32 bits. */
  function WaitMs(cfg: Config, now: nat): u32
    requires cfg.reorderMs > 0
  {
    if cfg.service.Oneway? && cfg.service.jitter then Wrap(cfg.reorderMs + now % 1_000_000_000 % cfg.reorderMs)
    else cfg.reorderMs
  }

  /** `slot_gap_ready`; times are nanoseconds. */
  function GapReady(cfg: Config, s: Slot, number: u32, now: nat): (bool, Slot) {
    if cfg.service.N1? || cfg.reorderMs == 0 then
      (true, Emit(s, Ready(number, now)))
    else if s.waiting.None? || s.waiting.value.0 != number then
      (false, Emit(s.(waiting := Some((number, now + Nanos(WaitMs(cfg, now))))), Armed(number, now)))
    else if now >= s.waiting.value.1 then
      (true, Emit(s.(waiting := None), Ready(number, now)))
    else
      (false, s)
  }

  function NackIfReady(cfg: Config, s: Slot, number: u32, now: nat): Slot {
    var (ready, s1) := GapReady(cfg, s, number, now);
    if ready then Emit(s1, NackSent(number)) else s1
  }

  // ---------- delivery ----------

  function Deliver(cfg: Config, s: Slot, e: Elem): Slot {
    if !s.alive then s
    else
      var (f, o) := Feed(cfg.codec, cfg.maxMessage, s.frag, e);
      var s1 := s.(frag := f);
      if o.Some? then Emit(s1, Message(o.value)) else s1
  }

  function DeliverAll(cfg: Config, s: Slot, es: seq<Elem>): Slot
    decreases |es|
  {
    if es == [] then s else DeliverAll(cfg, Deliver(cfg, s, es[0]), es[1..])
  }

  /** Pop the packet at the base and deliver its elements; a PING would only be removed. */
  function PopOne(cfg: Config, s: Slot): Slot
    requires CanPop(s.win)
  {
    RecvOpsKeepOk(s.win, s.win.slots[0].value);
    var p := s.win.slots[0].value;
    var ping := Has(p.hdr.flags, PING) && !cfg.service.Tcp?;
    var s1 := Emit(s.(win := Consume(s.win)), Popped(p.hdr.number, s.alive && !ping));
    if ping then s1 else DeliverAll(cfg, s1, UnpackFrom(p.payload, 0))
  }

  /** How many packets can be popped in a row. */
  function Leading(slots: seq<Option<Packet>>): nat {
    if slots == [] || slots[0].None? then 0 else 1 + Leading(slots[1..])
  }

  lemma {:induction false} LeadingAppend(slots: seq<Option<Packet>>)
    ensures Leading(slots + [None]) == Leading(slots)
  {
    if slots != [] && slots[0].Some? {
      assert (slots + [None])[1..] == slots[1..] + [None];
      LeadingAppend(slots[1..]);
    }
  }

  lemma {:induction false} DeliverAllKeeps(cfg: Config, s: Slot, es: seq<Elem>)
    ensures DeliverAll(cfg, s, es) == s.(frag := DeliverAll(cfg, s, es).frag, trace := DeliverAll(cfg, s, es).trace)
    decreases |es|
  {
    if es != [] {
      DeliverAllKeeps(cfg, Deliver(cfg, s, es[0]), es[1..]);
    }
  }

  lemma PopShortens(cfg: Config, s: Slot)
    requires CanPop(s.win)
    ensures PopOne(cfg, s).win == Consume(s.win)
    ensures Leading(Consume(s.win).slots) == Leading(s.win.slots) - 1
  {
    RecvOpsKeepOk(s.win, s.win.slots[0].value);
    LeadingAppend(s.win.slots[1..]);
    var p := s.win.slots[0].value;
    var ping := Has(p.hdr.flags, PING) && !cfg.service.Tcp?;
    DeliverAllKeeps(cfg, Emit(s.(win := Consume(s.win)), Popped(p.hdr.number, s.alive && !ping)), UnpackFrom(p.payload, 0));
  }

  function PopAll(cfg: Config, s: Slot): Slot
    decreases Leading(s.win.slots)
  {
    if CanPop(s.win) then PopShortens(cfg, s); PopAll(cfg, PopOne(cfg, s)) else s
  }

  // ---------- FIN ----------

  function FinFire(cfg: Config, s: Slot, target: u32): Slot {
    var s1 := Emit(s, FinFired(target));
    if cfg.service.N1? then
      Disconnect(s1).(pendingFin := None, active := false)
    else
      var s2 := if cfg.service.Tcp? then Emit(s1, FinAckSent(target)) else s1;
      Restart(Forget(DropPaths(s2).(pendingFin := None, waiting := None)), 0)
  }

  function OnFin(cfg: Config, s: Slot, p: Packet, targeted: bool): Slot {
    var (ok, s1) := if cfg.service.N1? then (true, s) else Adopt(s, p);
    if !ok then s
    else if targeted && s1.win.next != p.hdr.ack then s1.(pendingFin := Some(p.hdr.ack))
    else FinFire(cfg, s1, p.hdr.ack)
  }

  /** `slot_drain_recv_window`. */
  function Drain(cfg: Config, s: Slot): Slot {
    var s1 := PopAll(cfg, s);
    if s1.pendingFin == Some(s1.win.next) then FinFire(cfg, s1, s1.win.next) else s1
  }

  // ---------- DATA ----------

  function Stored(s: Slot, p: Packet): Slot
    requires Accepts(s.win, p.hdr.number)
  {
    RecvOpsKeepOk(s.win, p);
    s.(win := RecvPush(s.win, p))
  }

  /** RAW gives up the connection and restarts with this very packet. */
  function RawRestart(s: Slot, p: Packet): Slot {
    Stored(Restart(RawDisconnect(s), p.hdr.number), p)
  }

  function GapBeforeDrain(cfg: Config, s: Slot, p: Packet, now: nat): Slot {
    if !HasGap(s.win) then s.(waiting := None)
    else if cfg.service.Raw? then
      var (ready, s1) := GapReady(cfg, s, s.win.next, now);
      if ready then RawRestart(s1, p) else s1
    else NackIfReady(cfg, s, s.win.next, now)
  }

  function GapAfterDrain(cfg: Config, s: Slot, now: nat): Slot {
    if !HasGap(s.win) then s.(waiting := None)
    else if cfg.service.Raw? then s
    else NackIfReady(cfg, s, s.win.next, now)
  }

  function HeardData(cfg: Config, s: Slot, path: nat): Slot
    requires path < MAX_PATH
  {
    if cfg.service.N1? || cfg.service.Bidir? then s else Sync(cfg, Heard(s, path))
  }

  function AcceptOuter(cfg: Config, s: Slot, p: Packet, path: nat, now: nat): Slot
    requires path < MAX_PATH
  {
    if !Accepts(s.win, p.hdr.number) && !cfg.service.Raw? then s
    else
      var s1 := if Accepts(s.win, p.hdr.number) then Stored(s, p) else RawRestart(s, p);
      var s2 := HeardData(cfg, GapBeforeDrain(cfg, s1, p, now), path);
      var s3 := Drain(cfg, s2);
      if !s3.active then s3 else GapAfterDrain(cfg, s3, now)
  }

  // ---------- PING ----------

  /** The gap scan of a 1:1 slot from offset `d` on. */
  function Scan(cfg: Config, s: Slot, d: nat, target: u32, now: nat): Slot
    decreases s.win.Size() - d
  {
    var number := Wrap(s.win.base + d);
    if number == target then s.(waiting := None)
    else if d >= s.win.Size() then s
    else if s.win.slots[d].Some? then Scan(cfg, s, d + 1, target, now)
    else
      var (ready, s1) := GapReady(cfg, s, number, now);
      if ready then Scan(cfg, Emit(s1, NackSent(number)), d + 1, target, now) else s1
  }

  /** The number at offset `d`, where the scan loop keeps its counter. */
  lemma ScanNumber(base: u32, d: nat, size: nat)
    requires d <= size < U16_MOD
    ensures Distance(Wrap(base + d), base) == d && Inc(Wrap(base + d)) == Wrap(base + (d + 1))
    ensures InWindow(Wrap(base + d), base, size) <==> d < size
  {
    StepRoundTrip(base, d);
    WrapAdd(base + d, 1);
  }

  lemma ScanUnfold(cfg: Config, s: Slot, d: nat, number: u32, target: u32, now: nat)
    requires number == Wrap(s.win.base + d) && number != target && d < s.win.Size()
    ensures HasPacket(s.win, number) == s.win.slots[d].Some?
    ensures HasPacket(s.win, number) ==> Scan(cfg, s, d, target, now) == Scan(cfg, s, d + 1, target, now)
    ensures !HasPacket(s.win, number) ==>
              var (ready, s1) := GapReady(cfg, s, number, now);
              Scan(cfg, s, d, target, now)
              == if ready then Scan(cfg, Emit(s1, NackSent(number)), d + 1, target, now) else s1
  {
    ScanNumber(s.win.base, d, s.win.Size());
  }

  lemma ScanEnd(cfg: Config, s: Slot, d: nat, number: u32, target: u32, now: nat)
    requires number == Wrap(s.win.base + d) && d <= s.win.Size()
    requires number == target || !InWindow(number, s.win.base, s.win.Size())
    ensures Scan(cfg, s, d, target, now) == if number == target then s.(waiting := None) else s
  {
    ScanNumber(s.win.base, d, s.win.Size());
  }

  function ScanPing(cfg: Config, s: Slot, p: Packet, now: nat): Slot {
    var ahead := p.hdr.number != s.win.next && InWindow(p.hdr.number, Inc(s.win.next), s.win.Size());
    if cfg.service.N1? then
      if ahead then NackIfReady(cfg, s, s.win.next, now) else s
    else if cfg.service.Raw? then
      if !ahead then s.(waiting := None)
      else
        var (ready, s1) := GapReady(cfg, s, s.win.next, now);
        if ready then Restart(RawDisconnect(s1), p.hdr.number) else s1
    else Scan(cfg, s, 0, p.hdr.number, now)
  }

  function OnPing(cfg: Config, s: Slot, p: Packet, path: nat, now: nat): Slot
    requires path < MAX_PATH
  {
    var s1 := ApplyReport(Heard(s, path), p);
    if cfg.service.Raw? then Sync(cfg, ScanPing(cfg, s1, p, now))
    else ScanPing(cfg, Sync(cfg, s1), p, now)
  }

  // ---------- REJECT ----------

  function Skip(s: Slot, number: u32): Slot {
    RecvOpsKeepOk(s.win, Packet(Header(0, 0, 0, 0, 0, 0, 0, 0, 0), []));
    if s.win.next == number then Emit(s.(win := Consume(s.win)), Skipped(number)) else s
  }

  function OnReject(cfg: Config, s: Slot, p: Packet): Slot {
    if cfg.service.Raw? then s
    else
      var (ok, s1) := Adopt(s, p);
      if !ok then s1
      else Drain(cfg, Skip(DropPaths(s1).(waiting := None), p.hdr.ack))
  }

  // ---------- steps ----------

  /** `thread_recv_dispatch_packet`; a NACK concerns the sending side only. */
  function Dispatch(cfg: Config, s: Slot, p: Packet, path: nat, now: nat): Slot
    requires path < MAX_PATH
  {
    match KindOf(p)
    case Fin(targeted) => OnFin(cfg, s, p, targeted)
    case Reject => OnReject(cfg, s, p)
    case Ping => var (ok, s1) := Adopt(s, p); if ok then OnPing(cfg, s1, p, path, now) else s1
    case Data => var (ok, s1) := Adopt(s, p); if ok then AcceptOuter(cfg, s1, p, path, now) else s1
    case Nack => s
    case Other => s
  }

  /** `tcp_handle_packet`: no REJECT, no NACK, no gap scan, and a PING does not adopt a session. */
  function TcpHandle(cfg: Config, s: Slot, p: Packet, path: nat): Slot
    requires path < MAX_PATH
  {
    if Has(p.hdr.flags, FIN_ACK) then s
    else if Has(p.hdr.flags, FIN) then OnFin(cfg, s, p, Has(p.hdr.flags, FIN_TARGET_VALID))
    else if Has(p.hdr.flags, PING) then Sync(cfg, ApplyReport(Heard(s, path), p))
    else if Has(p.hdr.flags, DATA) then
      var (ok, s1) := Adopt(s, p);
      if !ok || !Accepts(s1.win, p.hdr.number) then s1 else Drain(cfg, Stored(s1, p))
    else s
  }

  function Expire(pings: Pings, expired: Flags): Pings {
    [if expired[0] then ABNORMAL else pings[0], if expired[1] then ABNORMAL else pings[1],
     if expired[2] then ABNORMAL else pings[2], if expired[3] then ABNORMAL else pings[3]]
  }

  /** `thread_recv_health_check_service` / `_peers`: which paths expired and whether the whole slot was silent
      too long is decided by the clock. */
  function Health(cfg: Config, s: Slot, expired: Flags, silent: bool): Slot {
    if cfg.service.N1? && !s.alive then s
    else
      var pings := Expire(s.pings, expired);
      var s1 := if pings == s.pings then s else Sync(cfg, s.(pings := pings));
      if cfg.service.N1? then
        if silent then Disconnect(s1.(remote := NO_PINGS)).(active := false) else s1
      else if s1.alive && silent then
        Restart(Forget(DropPaths(s1).(pendingFin := None, waiting := None)), 0)
      else s1
  }

  /** `thread_recv_window_check_reorder_timeout`. */
  function Poll(cfg: Config, s: Slot, now: nat): Slot {
    if s.waiting.None? then s
    else
      var number := s.waiting.value.0;
      if cfg.service.Raw? then
        var (ready, s1) := GapReady(cfg, s, number, now);
        if ready then Restart(Forget(RawDisconnect(s1)), 0) else s1
      else NackIfReady(cfg, s, number, now)
  }

  datatype Input =
    | Recv(p: Packet, path: nat, now: nat)
    | HealthCheck(expired: Flags, silent: bool)
    | PollTimer(now: nat)
    | Link(linked: Flags)            // TCP paths come and go
    | AppDisconnect                  // potr_peer_disconnect

  predicate ValidInput(i: Input) {
    i.Recv? ==> i.path < MAX_PATH
  }

  /** An N:1 packet reaches the slot of the peer whose session it carries. */
  predicate Routed(cfg: Config, s: Slot, p: Packet) {
    cfg.service.N1? ==> s.followed == Some(SessionOf(p))
  }

  function Step(cfg: Config, s: Slot, i: Input): Slot
    requires ValidInput(i)
  {
    if !s.active then s
    else
      match i
      case Recv(p, path, now) =>
        if !Routed(cfg, s, p) then s
        else if cfg.service.Tcp? then TcpHandle(cfg, Emit(s, Got(p)), p, path)
        else Dispatch(cfg, Emit(s, Got(p)), p, path, now)
      case HealthCheck(expired, silent) => Health(cfg, s, expired, silent)
      case PollTimer(now) => Poll(cfg, s, now)
      case Link(linked) => s.(linked := linked)
      case AppDisconnect => if cfg.service.N1? then Disconnect(s).(active := false) else s
  }

  /** A slot as `potr_service_open` leaves it. */
  function Opened(size: nat): Slot
    requires 0 < size < U16_MOD
  {
    Slot(true, Init(0, size), None, None, None, NO_FRAG, NO_PINGS, NO_PINGS, DOWN, DOWN, false, Then(Nothing, Started(0)))
  }

  /** The slot of a peer created by the first PING of its session, before that PING is dispatched. */
  function PeerOpened(size: nat, p: Packet): Slot
    requires 0 < size < U16_MOD
  {
    Opened(size).(win := Init(p.hdr.number, size), followed := Some(SessionOf(p)), trace := Then(Then(Nothing, Got(p)), Started(p.hdr.number)))
  }

  function Run(cfg: Config, s: Slot, inputs: seq<Input>): Slot
    requires forall i :: 0 <= i < |inputs| ==> ValidInput(inputs[i])
  {
    if inputs == [] then s
    else
      var n := |inputs| - 1;
      Step(cfg, Run(cfg, s, inputs[..n]), inputs[n])
  }
}
