/** Two `unicast_bidir` endpoints exchanging PINGs over a network that may lose, repeat and delay them
    (prod/libsrc/porter/thread/thread_recv_dispatch.c, potr_health_thread.c). Each endpoint is a full receiving
    slot; PINGs report the path states of their sender. */
module Handshake {
  import opened SeqNum
  import opened Packets
  import opened Windows
  import opened Wire
  import opened Sessions
  import opened Traces
  import opened Fragments
  import opened Receiver

  datatype Side = A | B {
    function Other(): Side {
      if this == A then B else A
    }
  }

  /** A PING put on the wire by action number `at` of the run. */
  datatype Msg = Msg(from: Side, path: nat, at: nat, p: Packet)

  datatype Act =
    | Send(from: Side, path: nat, p: Packet)
    | Deliver(to: Side, m: Msg, now: nat)
    | Local(side: Side, i: Input)          // anything but a PING: DATA, FIN, REJECT, timeouts

  datatype World = World(a: Slot, b: Slot) {
    function At(side: Side): Slot {
      if side == A then a else b
    }

    function Put(side: Side, s: Slot): World {
      if side == A then this.(a := s) else this.(b := s)
    }
  }

  predicate IsBidir(cfg: Config) {
    cfg.service.Bidir?
  }

  /** What may happen as action number `|past|`. A PING reports the sender's path states; only PINGs sent
      before are delivered, on their own path; they may be delivered again or never. */
  predicate Legal(past: seq<Act>, w: World, act: Act) {
    match act
    case Send(side, path, p) => path < MAX_PATH && KindOf(p).Ping? && p.payload == w.At(side).pings
    case Deliver(to, m, now) => m.from == to.Other() && m.at < |past| && past[m.at] == Send(m.from, m.path, m.p)
    case Local(side, i) => ValidInput(i) && (i.Recv? ==> !KindOf(i.p).Ping?)
  }

  function Next(cfg: Config, w: World, act: Act): World {
    match act
    case Send(_, _, _) => w
    case Deliver(to, m, now) =>
      if m.path < MAX_PATH then w.Put(to, Step(cfg, w.At(to), Recv(m.p, m.path, now))) else w
    case Local(side, i) => if ValidInput(i) then w.Put(side, Step(cfg, w.At(side), i)) else w
  }

  function After(cfg: Config, w: World, acts: seq<Act>): World {
    if acts == [] then w else Next(cfg, After(cfg, w, acts[..|acts| - 1]), acts[|acts| - 1])
  }

  predicate LegalRun(cfg: Config, w: World, acts: seq<Act>) {
    forall i :: 0 <= i < |acts| ==> Legal(acts[..i], After(cfg, w, acts[..i]), acts[i])
  }

  // ---------- where a NORMAL comes from ----------

  /** `r` has no path state NORMAL that `s` did not have, and logical paths only where both states are NORMAL. */
  predicate Fades(s: Slot, r: Slot) {
    forall k :: 0 <= k < MAX_PATH ==>
      && (r.pings[k] == NORMAL ==> s.pings[k] == NORMAL)
      && (r.remote[k] == NORMAL ==> s.remote[k] == NORMAL)
  }

  predicate Backed(s: Slot) {
    forall k :: 0 <= k < MAX_PATH && s.logical[k] ==> s.pings[k] == NORMAL && s.remote[k] == NORMAL
  }

  predicate SamePaths(s: Slot, r: Slot) {
    r.pings == s.pings && r.remote == s.remote && r.logical == s.logical
  }

  lemma DropPathsFades(s: Slot)
    ensures Fades(s, DropPaths(s)) && Backed(DropPaths(s))
  {
  }

  lemma SyncBacked(cfg: Config, s: Slot)
    requires IsBidir(cfg)
    ensures Backed(Sync(cfg, s)) && Sync(cfg, s).pings == s.pings && Sync(cfg, s).remote == s.remote
  {
  }

  lemma {:induction false} PopAllSamePaths(cfg: Config, s: Slot)
    ensures SamePaths(s, PopAll(cfg, s))
    decreases Leading(s.win.slots)
  {
    if CanPop(s.win) {
      PopShortens(cfg, s);
      RecvOpsKeepOk(s.win, s.win.slots[0].value);
      var p := s.win.slots[0].value;
      var ping := Has(p.hdr.flags, PING) && !cfg.service.Tcp?;
      DeliverAllKeeps(cfg, Emit(s.(win := Consume(s.win)), Popped(p.hdr.number, s.alive && !ping)), UnpackFrom(p.payload, 0));
      PopAllSamePaths(cfg, PopOne(cfg, s));
    }
  }

  lemma FinFireFades(cfg: Config, s: Slot, target: u32)
    requires IsBidir(cfg)
    ensures Fades(s, FinFire(cfg, s, target)) && Backed(FinFire(cfg, s, target))
  {
  }

  lemma DrainFades(cfg: Config, s: Slot)
    requires IsBidir(cfg) && Backed(s)
    ensures Fades(s, Drain(cfg, s)) && Backed(Drain(cfg, s))
  {
    PopAllSamePaths(cfg, s);
    FinFireFades(cfg, PopAll(cfg, s), PopAll(cfg, s).win.next);
  }

  lemma GapsSamePaths(cfg: Config, s: Slot, p: Packet, now: nat)
    requires IsBidir(cfg)
    ensures SamePaths(s, GapBeforeDrain(cfg, s, p, now)) && SamePaths(s, GapAfterDrain(cfg, s, now))
  {
  }

  lemma AcceptOuterFades(cfg: Config, s: Slot, p: Packet, path: nat, now: nat)
    requires IsBidir(cfg) && Backed(s) && path < MAX_PATH
    ensures Fades(s, AcceptOuter(cfg, s, p, path, now)) && Backed(AcceptOuter(cfg, s, p, path, now))
  {
    if Accepts(s.win, p.hdr.number) {
      GapsSamePaths(cfg, Stored(s, p), p, now);
      var s1 := GapBeforeDrain(cfg, Stored(s, p), p, now);
      DrainFades(cfg, s1);
      GapsSamePaths(cfg, Drain(cfg, s1), p, now);
    }
  }

  lemma AdoptSamePaths(s: Slot, p: Packet)
    ensures SamePaths(s, Adopt(s, p).1)
  {
  }

  lemma OnRejectFades(cfg: Config, s: Slot, p: Packet)
    requires IsBidir(cfg) && Backed(s)
    ensures Fades(s, OnReject(cfg, s, p)) && Backed(OnReject(cfg, s, p))
  {
    AdoptSamePaths(s, p);
    var (ok, s1) := Adopt(s, p);
    if ok {
      DropPathsFades(s1);
      var s2 := Skip(DropPaths(s1).(waiting := None), p.hdr.ack);
      assert SamePaths(DropPaths(s1), s2);
      DrainFades(cfg, s2);
    }
  }

  lemma HealthFades(cfg: Config, s: Slot, expired: Flags, silent: bool)
    requires IsBidir(cfg) && Backed(s)
    ensures Fades(s, Health(cfg, s, expired, silent)) && Backed(Health(cfg, s, expired, silent))
  {
    var s0 := s.(pings := Expire(s.pings, expired));
    assert Fades(s, s0);
    SyncBacked(cfg, s0);
    var s1 := if s0.pings == s.pings then s else Sync(cfg, s0);
    DropPathsFades(s1);
  }

  lemma DispatchFades(cfg: Config, s: Slot, p: Packet, path: nat, now: nat)
    requires IsBidir(cfg) && Backed(s) && path < MAX_PATH && !KindOf(p).Ping?
    ensures Fades(s, Dispatch(cfg, s, p, path, now)) && Backed(Dispatch(cfg, s, p, path, now))
  {
    AdoptSamePaths(s, p);
    var s1 := Adopt(s, p).1;
    match KindOf(p)
    case Fin(targeted) => FinFireFades(cfg, s1, p.hdr.ack);
    case Reject => OnRejectFades(cfg, s, p);
    case Data => AcceptOuterFades(cfg, s1, p, path, now);
    case _ =>
  }

  /** Only a PING makes a path state NORMAL. */
  lemma LocalFades(cfg: Config, s: Slot, i: Input)
    requires IsBidir(cfg) && Backed(s) && ValidInput(i) && (i.Recv? ==> !KindOf(i.p).Ping?)
    ensures Fades(s, Step(cfg, s, i)) && Backed(Step(cfg, s, i))
  {
    match i
    case Recv(p, path, now) => DispatchFades(cfg, Emit(s, Got(p)), p, path, now);
    case HealthCheck(expired, silent) => HealthFades(cfg, s, expired, silent);
    case PollTimer(now) =>
    case Link(linked) =>
    case AppDisconnect =>
  }

  /** A PING makes its own path NORMAL, and takes over the NORMALs it reports. */
  predicate PingEffect(s: Slot, r: Slot, p: Packet, path: nat) {
    forall k :: 0 <= k < MAX_PATH ==>
      && (r.pings[k] == NORMAL ==> s.pings[k] == NORMAL || k == path)
      && (r.remote[k] == NORMAL ==> s.remote[k] == NORMAL || (k < |p.payload| && p.payload[k] == NORMAL))
  }

  lemma {:induction false} ScanSamePaths(cfg: Config, s: Slot, d: nat, target: u32, now: nat)
    ensures SamePaths(s, Scan(cfg, s, d, target, now))
    decreases s.win.Size() - d
  {
    var number := Wrap(s.win.base + d);
    if number != target && d < s.win.Size() {
      var (ready, s1) := GapReady(cfg, s, number, now);
      if s.win.slots[d].Some? {
        ScanSamePaths(cfg, s, d + 1, target, now);
      } else if ready {
        ScanSamePaths(cfg, Emit(s1, NackSent(number)), d + 1, target, now);
      }
    }
  }

  lemma PingStep(cfg: Config, s: Slot, p: Packet, path: nat, now: nat)
    requires IsBidir(cfg) && Backed(s) && path < MAX_PATH && KindOf(p).Ping?
    ensures PingEffect(s, Step(cfg, s, Recv(p, path, now)), p, path) && Backed(Step(cfg, s, Recv(p, path, now)))
  {
    var s0 := Emit(s, Got(p));
    AdoptSamePaths(s0, p);
    var (ok, s1) := Adopt(s0, p);
    if ok {
      var s2 := ApplyReport(Heard(s1, path), p);
      SyncBacked(cfg, s2);
      ScanSamePaths(cfg, Sync(cfg, s2), 0, p.hdr.number, now);
    }
  }

  // ---------- causality ----------

  /** Action `t` delivered a PING on path `k` to this side. */
  predicate HeardAt(acts: seq<Act>, t: nat, side: Side, k: nat) {
    t < |acts| && acts[t].Deliver? && acts[t].to == side && acts[t].m.path == k
  }

  ghost predicate HasHeard(acts: seq<Act>, side: Side, k: nat) {
    exists t: nat :: HeardAt(acts, t, side, k)
  }

  /** Action `t` delivered a PING reporting path `k` NORMAL. */
  predicate ToldAt(acts: seq<Act>, t: nat, side: Side, k: nat) {
    && t < |acts| && acts[t].Deliver? && acts[t].to == side
    && k < |acts[t].m.p.payload| && acts[t].m.p.payload[k] == NORMAL
  }

  ghost predicate HasBeenTold(acts: seq<Act>, side: Side, k: nat) {
    exists t: nat :: ToldAt(acts, t, side, k)
  }

  ghost predicate Explained(w: World, acts: seq<Act>, side: Side) {
    && Backed(w.At(side))
    && forall k :: 0 <= k < MAX_PATH ==>
         && (w.At(side).pings[k] == NORMAL ==> HasHeard(acts, side, k))
         && (w.At(side).remote[k] == NORMAL ==> HasBeenTold(acts, side, k))
  }

  /** Both endpoints just opened. */
  predicate Fresh(w: World) {
    && w.a.pings == NO_PINGS && w.a.remote == NO_PINGS && w.a.logical == DOWN
    && w.b.pings == NO_PINGS && w.b.remote == NO_PINGS && w.b.logical == DOWN
  }

  lemma StillExplained(w: World, acts: seq<Act>, act: Act, side: Side)
    requires Explained(w, acts, side)
    ensures Explained(w, acts + [act], side)
  {
    forall k | 0 <= k < MAX_PATH
      ensures HasHeard(acts, side, k) ==> HasHeard(acts + [act], side, k)
      ensures HasBeenTold(acts, side, k) ==> HasBeenTold(acts + [act], side, k)
    {
      if HasHeard(acts, side, k) {
        var t: nat :| HeardAt(acts, t, side, k);
        assert HeardAt(acts + [act], t, side, k);
      }
      if HasBeenTold(acts, side, k) {
        var t: nat :| ToldAt(acts, t, side, k);
        assert ToldAt(acts + [act], t, side, k);
      }
    }
  }

  lemma NextExplained(cfg: Config, w: World, acts: seq<Act>, act: Act, side: Side)
    requires IsBidir(cfg) && Explained(w, acts, side) && Legal(acts, w, act)
    requires act.Deliver? ==> KindOf(act.m.p).Ping?
    ensures Explained(Next(cfg, w, act), acts + [act], side)
  {
    StillExplained(w, acts, act, side);
    match act
    case Send(_, _, _) =>
    case Deliver(to, m, now) =>
      if to == side && m.path < MAX_PATH {
        PingStep(cfg, w.At(side), m.p, m.path, now);
        var t := |acts|;
        assert HeardAt(acts + [act], t, side, m.path);
        assert forall k :: 0 <= k < |m.p.payload| && m.p.payload[k] == NORMAL ==> ToldAt(acts + [act], t, side, k);
      }
    case Local(at, i) =>
      if at == side {
        LocalFades(cfg, w.At(side), i);
      }
  }

  lemma DeliversPings(cfg: Config, w: World, acts: seq<Act>, n: nat)
    requires LegalRun(cfg, w, acts) && n < |acts|
    ensures Legal(acts[..n], After(cfg, w, acts[..n]), acts[n])
    ensures acts[n].Deliver? ==> KindOf(acts[n].m.p).Ping?
  {
    if acts[n].Deliver? {
      var at := acts[n].m.at;
      assert Legal(acts[..n], After(cfg, w, acts[..n]), acts[n]);
      assert Legal(acts[..at], After(cfg, w, acts[..at]), acts[at]);
    }
  }

  lemma {:induction false} RunExplained(cfg: Config, w: World, acts: seq<Act>, side: Side)
    requires IsBidir(cfg) && Fresh(w) && LegalRun(cfg, w, acts)
    ensures Explained(After(cfg, w, acts), acts, side)
  {
    if acts != [] {
      var n := |acts| - 1;
      var past, act := acts[..n], acts[n];
      TakeLegal(cfg, w, acts, n);
      RunExplained(cfg, w, past, side);
      DeliversPings(cfg, w, acts, n);
      NextExplained(cfg, After(cfg, w, past), past, act, side);
      assert past + [act] == acts;
    }
  }

  /** The states of the paths a side hears on, or those the other side reports. */
  function States(s: Slot, own: bool): Pings {
    if own then s.pings else s.remote
  }

  /** Action `t` delivered the PING, or the report, that makes path `k` NORMAL. */
  predicate CausedAt(acts: seq<Act>, t: nat, side: Side, k: nat, own: bool) {
    if own then HeardAt(acts, t, side, k) else ToldAt(acts, t, side, k)
  }

  /** Since action `t` the state of path `k` has been NORMAL all the time. */
  predicate NormalSince(cfg: Config, w: World, acts: seq<Act>, t: nat, side: Side, k: nat, own: bool)
    requires k < MAX_PATH
  {
    forall i :: t < i <= |acts| ==> States(After(cfg, w, acts[..i]).At(side), own)[k] == NORMAL
  }

  lemma OneAct(cfg: Config, w: World, acts: seq<Act>, act: Act, side: Side, k: nat, own: bool)
    requires IsBidir(cfg) && Backed(w.At(side)) && Legal(acts, w, act) && k < MAX_PATH
    requires act.Deliver? ==> KindOf(act.m.p).Ping?
    requires States(Next(cfg, w, act).At(side), own)[k] == NORMAL
    ensures States(w.At(side), own)[k] == NORMAL || CausedAt(acts + [act], |acts|, side, k, own)
  {
    match act
    case Send(_, _, _) =>
    case Deliver(to, m, now) =>
      if to == side && m.path < MAX_PATH {
        PingStep(cfg, w.At(side), m.p, m.path, now);
      }
    case Local(at, i) =>
      if at == side {
        LocalFades(cfg, w.At(side), i);
      }
  }

  lemma LastAct(cfg: Config, w: World, acts: seq<Act>, side: Side, k: nat, own: bool)
    requires IsBidir(cfg) && Fresh(w) && LegalRun(cfg, w, acts) && k < MAX_PATH && acts != []
    requires States(After(cfg, w, acts).At(side), own)[k] == NORMAL
    ensures var past := acts[..|acts| - 1];
            LegalRun(cfg, w, past)
            && (States(After(cfg, w, past).At(side), own)[k] == NORMAL || CausedAt(acts, |acts| - 1, side, k, own))
  {
    var n := |acts| - 1;
    PastFacts(cfg, w, acts, n, side);
    ActFollows(cfg, w, acts[..n], acts[n], After(cfg, w, acts[..n]), side, k, own);
    assert acts[..n] + [acts[n]] == acts;
  }

  lemma PastFacts(cfg: Config, w: World, acts: seq<Act>, n: nat, side: Side)
    requires IsBidir(cfg) && Fresh(w) && LegalRun(cfg, w, acts) && n < |acts|
    ensures LegalRun(cfg, w, acts[..n]) && Backed(After(cfg, w, acts[..n]).At(side))
    ensures Legal(acts[..n], After(cfg, w, acts[..n]), acts[n]) && (acts[n].Deliver? ==> KindOf(acts[n].m.p).Ping?)
  {
    TakeLegal(cfg, w, acts, n);
    DeliversPings(cfg, w, acts, n);
    RunExplained(cfg, w, acts[..n], side);
  }

  lemma ActFollows(cfg: Config, w0: World, past: seq<Act>, act: Act, w: World, side: Side, k: nat, own: bool)
    requires IsBidir(cfg) && Backed(w.At(side)) && Legal(past, w, act) && k < MAX_PATH
    requires (act.Deliver? ==> KindOf(act.m.p).Ping?) && w == After(cfg, w0, past)
    requires States(After(cfg, w0, past + [act]).At(side), own)[k] == NORMAL
    ensures States(w.At(side), own)[k] == NORMAL || CausedAt(past + [act], |past|, side, k, own)
  {
    assert (past + [act])[..|past|] == past;
    OneAct(cfg, w, past, act, side, k, own);
  }

  lemma ExtendSince(cfg: Config, w: World, acts: seq<Act>, t: nat, side: Side, k: nat, own: bool)
    requires k < MAX_PATH && acts != [] && NormalSince(cfg, w, acts[..|acts| - 1], t, side, k, own)
    requires CausedAt(acts[..|acts| - 1], t, side, k, own) && States(After(cfg, w, acts).At(side), own)[k] == NORMAL
    ensures CausedAt(acts, t, side, k, own) && NormalSince(cfg, w, acts, t, side, k, own)
  {
    var n := |acts| - 1;
    forall i | t < i <= |acts|
      ensures States(After(cfg, w, acts[..i]).At(side), own)[k] == NORMAL
    {
      if i <= n {
        assert acts[..n][..i] == acts[..i];
      } else {
        assert acts[..i] == acts;
      }
    }
  }

  /** The PING, or the report, that made a state NORMAL which has been NORMAL ever since. */
  lemma {:induction false} Cause(cfg: Config, w: World, acts: seq<Act>, side: Side, k: nat, own: bool) returns (t: nat)
    requires IsBidir(cfg) && Fresh(w) && LegalRun(cfg, w, acts) && k < MAX_PATH
    requires States(After(cfg, w, acts).At(side), own)[k] == NORMAL
    ensures CausedAt(acts, t, side, k, own) && NormalSince(cfg, w, acts, t, side, k, own)
    decreases |acts|
  {
    var n := |acts| - 1;
    LastAct(cfg, w, acts, side, k, own);
    if States(After(cfg, w, acts[..n]).At(side), own)[k] == NORMAL {
      t := Cause(cfg, w, acts[..n], side, k, own);
      ExtendSince(cfg, w, acts, t, side, k, own);
    } else {
      t := n;
      assert acts[..|acts|] == acts;
    }
  }

  /** Handshake causality: whenever path `k` counts as connected on one side, there was a full round trip on it, and it
      is the one in force: this side sent a PING on `k` (action `sent`), the other side heard it (`heard`) and has had
      `k` NORMAL from then until it sent a PING reporting so (`report`), and this side received that one (`told`) and
      has had the reported state NORMAL ever since. It has also itself heard a PING on `k` (`own`) and had `k` NORMAL
      ever since. */
  lemma RoundTrip(cfg: Config, w: World, acts: seq<Act>, side: Side, k: nat)
    returns (own: nat, sent: nat, heard: nat, report: nat, told: nat)
    requires IsBidir(cfg) && Fresh(w) && LegalRun(cfg, w, acts)
    requires k < MAX_PATH && After(cfg, w, acts).At(side).logical[k]
    ensures HeardAt(acts, own, side, k) && NormalSince(cfg, w, acts, own, side, k, true)
    ensures sent < heard < report < told < |acts|
    ensures acts[sent].Send? && acts[sent].from == side && acts[sent].path == k
    ensures HeardAt(acts, heard, side.Other(), k) && acts[heard].m.at == sent
    ensures NormalSince(cfg, w, acts[..report], heard, side.Other(), k, true)
    ensures acts[report].Send? && acts[report].from == side.Other() && acts[report].p.payload[k] == NORMAL
    ensures ToldAt(acts, told, side, k) && acts[told].m.at == report && NormalSince(cfg, w, acts, told, side, k, false)
  {
    RunExplained(cfg, w, acts, side);
    own := Cause(cfg, w, acts, side, k, true);
    told := Cause(cfg, w, acts, side, k, false);
    assert Legal(acts[..told], After(cfg, w, acts[..told]), acts[told]);
    report := acts[told].m.at;
    assert Legal(acts[..report], After(cfg, w, acts[..report]), acts[report]);
    heard := ReporterHeard(cfg, w, acts, report, side.Other(), k);
    assert Legal(acts[..heard], After(cfg, w, acts[..heard]), acts[heard]);
    sent := acts[heard].m.at;
  }

  /** A side that reports a path NORMAL has heard a PING on it before, and had it NORMAL since. */
  lemma ReporterHeard(cfg: Config, w: World, acts: seq<Act>, report: nat, side: Side, k: nat) returns (heard: nat)
    requires IsBidir(cfg) && Fresh(w) && LegalRun(cfg, w, acts) && report < |acts| && k < MAX_PATH
    requires acts[report].Send? && acts[report].from == side && acts[report].p.payload == After(cfg, w, acts[..report]).At(side).pings
    requires acts[report].p.payload[k] == NORMAL
    ensures heard < report && HeardAt(acts, heard, side, k)
    ensures NormalSince(cfg, w, acts[..report], heard, side, k, true)
  {
    TakeLegal(cfg, w, acts, report);
    heard := Cause(cfg, w, acts[..report], side, k, true);
  }

  lemma {:induction false} TakeLegal(cfg: Config, w: World, acts: seq<Act>, n: nat)
    requires LegalRun(cfg, w, acts) && n <= |acts|
    ensures LegalRun(cfg, w, acts[..n])
  {
    forall i | 0 <= i < n
      ensures Legal(acts[..n][..i], After(cfg, w, acts[..n][..i]), acts[..n][i])
    {
      assert acts[..n][..i] == acts[..i];
    }
  }
}
