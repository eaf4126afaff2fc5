/** Closing a TCP service: the FIN exchange and the wait for its acknowledgement
    (prod/libsrc/porter/api/potr_service_close.c, thread_recv_fin.c). */
module TcpClose {
  import opened SeqNum
  import opened Packets
  import opened Wire
  import opened Sessions
  import opened Traces
  import PathEvents
  import opened SendQueues
  import opened Outgoing
  import opened Receiver
  import opened ReceiverRuns

  datatype CloseResult = Closed | TimedOut | Disconnected | Failed

  /** How a wait on the condition variable ends, and the FIN_ACKs the receive thread handled meanwhile. */
  datatype Wakeup = Wakeup(acks: seq<u32>, error: Option<CloseResult>)

  /** Every wait is bounded: the last wakeup, at the latest, reports a timeout or a failure. */
  predicate Ends(wakeups: seq<Wakeup>) {
    && wakeups != [] && wakeups[|wakeups| - 1].error.Some?
    && forall i :: 0 <= i < |wakeups| ==> wakeups[i].error in {None, Some(TimedOut), Some(Failed)}
  }

  /** Whether the wait ends well: the expected FIN_ACK is there before any wait fails. */
  predicate AckInTime(target: u32, received: bool, wakeups: seq<Wakeup>)
    decreases |wakeups|
  {
    received
    || (wakeups != [] && wakeups[0].error.None? && AckInTime(target, target in wakeups[0].acks, wakeups[1..]))
  }

  class CloseWait {
    var waiting: bool
    var received: bool
    var target: u32
    var ackSeq: u32
    ghost var acks: seq<u32>  // every FIN_ACK handled since the wait began

    ghost predicate Valid()
      reads this
    {
      && (received ==> waiting && ackSeq == target)
      && (waiting ==> (received <==> target in acks))
    }

    constructor ()
      ensures Valid() && !waiting
    {
      waiting, received, target, ackSeq, acks := false, false, 0, 0, [];
    }

    method Reset()
      modifies this
      ensures Valid() && !waiting && acks == old(acks)
    {
      waiting, received, target, ackSeq := false, false, 0, 0;
    }

    method Begin(target: u32)
      modifies this
      ensures Valid() && waiting && !received && this.target == target && acks == []
    {
      waiting, received, this.target, ackSeq, acks := true, false, target, 0, [];
    }

    /** `thread_recv_fin_on_ack`: only the acknowledgement of the awaited target counts. */
    method OnAck(number: u32)
      requires Valid()
      modifies this
      ensures Valid() && waiting == old(waiting) && target == old(target) && acks == old(acks) + [number]
      ensures received == (old(received) || (waiting && number == target))
    {
      if waiting && target == number && !received {
        received := true;
        ackSeq := number;
      }
      acks := acks + [number];
    }

    method OnAcks(numbers: seq<u32>)
      requires Valid()
      modifies this
      ensures Valid() && waiting == old(waiting) && target == old(target) && acks == old(acks) + numbers
      ensures received == (old(received) || (waiting && target in numbers))
    {
      for i := 0 to |numbers|
        invariant Valid() && waiting == old(waiting) && target == old(target) && acks == old(acks) + numbers[..i]
        invariant received == (old(received) || (waiting && target in numbers[..i]))
      {
        OnAck(numbers[i]);
      }
      assert numbers[..|numbers|] == numbers;
    }

    /** `wait_for_tcp_close_ack`: OK exactly when there is nothing to wait for or the FIN_ACK of the target is
        there before a wait fails. An acknowledgement that arrives together with the timeout comes too late. */
    method Wait(timeoutMs: nat, wakeups: seq<Wakeup>) returns (r: CloseResult)
      requires Valid() && waiting && Ends(wakeups)
      modifies this
      ensures Valid() && !waiting
      ensures r.Closed? <==> timeoutMs == 0 || AckInTime(old(target), old(received), wakeups)
      ensures r.Closed? && timeoutMs != 0 ==> old(target) in acks
      ensures old(acks) <= acks
    {
      if timeoutMs == 0 {
        Reset();
        return Closed;
      }
      var error: Option<CloseResult> := None;
      var i := 0;
      assert wakeups[0..] == wakeups;
      while !received && error.None?
        invariant Valid() && waiting && target == old(target) && old(acks) <= acks
        invariant 0 <= i <= |wakeups| && (error.None? && !received ==> i < |wakeups|)
        invariant error.Some? ==> !error.value.Closed? && !AckInTime(target, old(received), wakeups)
        invariant error.None? ==>
                    AckInTime(target, received, wakeups[i..]) == AckInTime(target, old(received), wakeups)
        decreases |wakeups| - i
      {
        assert wakeups[i..][1..] == wakeups[i + 1..];
        OnAcks(wakeups[i].acks);
        error := wakeups[i].error;
        i := i + 1;
      }
      r := if !received then TimedOut else if error.Some? then error.value else Closed;
      Reset();
    }
  }

  /** The sending side of a TCP service: containers are numbered but not kept. */
  class TcpSender {
    const origin: Origin
    const cipher: Option<Cipher>
    var nextSeq: u32
    var hasData: bool
    ghost const first: u32
    ghost var sent: seq<Packet>

    ghost predicate Valid()
      reads this
    {
      && nextSeq == Number(first, |sent|) && hasData == (sent != [])
      && forall k :: 0 <= k < |sent| ==> sent[k].hdr.number == Number(first, k)
    }

    constructor (origin: Origin, cipher: Option<Cipher>, first: u32)
      ensures Valid() && sent == [] && this.first == first
    {
      this.origin, this.cipher, this.first := origin, cipher, first;
      nextSeq, hasData, sent := first, false, [];
    }

    /** The TCP branch of `flush_packed`. */
    method Flush(packed: seq<byte>) returns (r: Option<seq<byte>>)
      requires Valid() && |packed| + Overhead(cipher) <= MAX_PAYLOAD
      modifies this
      ensures Valid() && (r.None? <==> packed == [])
      ensures r.None? ==> sent == old(sent)
      ensures r.Some? ==> sent == old(sent) + [Outer(origin, cipher, Number(first, |old(sent)|), packed)]
                          && r.value == WireBytes(sent[|old(sent)|])
    {
      if packed == [] {
        return None;
      }
      var p := Outer(origin, cipher, nextSeq, packed);
      IncWrap(first + |sent|);
      nextSeq, hasData, sent := Inc(nextSeq), true, sent + [p];
      r := Some(WireBytes(p));
    }
  }

  /** The TCP part of `potr_service_close` once the send queue is drained: the FIN carries the number after the
      last one assigned, and with active paths and a timeout the call succeeds exactly when a FIN_ACK of that very
      number comes in time. Without active paths it fails exactly when DATA was sent. */
  method CloseTcp(q: SendQueue, sender: TcpSender, w: CloseWait, activePaths: nat, sendError: Option<CloseResult>,
                  timeoutMs: nat, wakeups: seq<Wakeup>) returns (r: CloseResult)
    requires q.Valid() && q.View().done == |q.log| && sender.Valid() && w.Valid() && Ends(wakeups)
    requires sendError.Some? ==> !sendError.value.Closed?
    modifies w
    ensures w.Valid()
    ensures activePaths > 0 && timeoutMs != 0 && r.Closed? ==> Number(sender.first, |sender.sent|) in w.acks
    ensures activePaths > 0 ==>
              (r.Closed? <==> sendError.None?
                              && (timeoutMs == 0 || AckInTime(Number(sender.first, |sender.sent|), false, wakeups)))
    ensures activePaths == 0 ==> r == if sender.sent != [] then CloseResult.Disconnected else Closed
  {
    var target := sender.nextSeq;
    if activePaths > 0 {
      w.Begin(target);
      if sendError.Some? {
        w.Reset();
        return sendError.value;
      }
      r := w.Wait(timeoutMs, wakeups);
    } else if sender.hasData {
      r := CloseResult.Disconnected;
    } else {
      w.Reset();
      r := Closed;
    }
  }

  // ---------- what the acknowledgement means on the other side ----------

  /** Every FIN that arrived carried a target, as a closing sender always sends it. */
  predicate OnlyTargetedFins(t: Trace) {
    match t
    case Nothing => true
    case Then(b, Got(p)) => OnlyTargetedFins(b) && (Has(p.hdr.flags, FIN) ==> Has(p.hdr.flags, FIN_TARGET_VALID))
    case Then(b, _) => OnlyTargetedFins(b)
  }

  predicate AckSent(t: Trace, n: u32) {
    match t
    case Nothing => false
    case Then(b, FinAckSent(m)) => m == n || AckSent(b, n)
    case Then(b, _) => AckSent(b, n)
  }

  /** Only packets of one session arrive, as after the filter on the accepted session. */
  predicate FromSession(t: Trace, session: Session) {
    match t
    case Nothing => true
    case Then(b, Got(p)) => FromSession(b, session) && SessionOf(p) == session
    case Then(b, _) => FromSession(b, session)
  }

  /** At some moment every number before `n` had left the window, one after the other, this session was followed,
      and its FIN with target `n` had arrived. */
  predicate WasComplete(cfg: Config, t: Trace, session: Session, n: u32) {
    match t
    case Nothing => false
    case Then(b, e) =>
      || WasComplete(cfg, b, session, n)
      || (e == FinFired(n) && Due(b) == Some(n) && Greatest(cfg, b) == Some(session) && TargetSeen(b, session, n))
  }

  lemma {:induction false} FollowsTheSession(cfg: Config, t: Trace, session: Session)
    requires FromSession(t, session)
    ensures Greatest(cfg, t) == None || Greatest(cfg, t) == Some(session)
  {
    if t.Then? {
      FollowsTheSession(cfg, t.before, session);
    }
  }

  lemma {:induction false} LatestIsTargeted(t: Trace)
    requires OnlyTargetedFins(t) && LatestGot(t).Some? && Has(LatestGot(t).value.hdr.flags, FIN)
    ensures Has(LatestGot(t).value.hdr.flags, FIN_TARGET_VALID)
  {
    if !t.last.Got? {
      LatestIsTargeted(t.before);
    }
  }

  lemma {:induction false} AckMeansComplete(cfg: Config, t: Trace, session: Session, n: u32)
    requires FinsOk(cfg, t) && OnlyTargetedFins(t) && FromSession(t, session) && AckSent(t, n)
    ensures WasComplete(cfg, t, session, n)
  {
    if t.last == FinAckSent(n) {
      var b := t.before.before;
      FollowsTheSession(cfg, b, session);
      if LatestGot(b).Some? && Has(LatestGot(b).value.hdr.flags, FIN) {
        LatestIsTargeted(b);
      }
    } else {
      AckMeansComplete(cfg, t.before, session, n);
    }
  }

  /** Close agreement: a FIN_ACK for the closer's next number, which is what a close that succeeds has received, was
      sent only after the closer's own FIN with that target had arrived and everything of its session before that
      number had left the window. */
  lemma CloseAgreement(cfg: Config, s: Slot, inputs: seq<Input>, session: Session, target: u32)
    requires cfg.service.Tcp? && Initial(cfg, s) && ValidInputs(inputs)
    requires OnlyTargetedFins(Run(cfg, s, inputs).trace) && FromSession(Run(cfg, s, inputs).trace, session)
    requires AckSent(Run(cfg, s, inputs).trace, target)
    ensures WasComplete(cfg, Run(cfg, s, inputs).trace, session, target)
  {
    FinsInEveryRun(cfg, s, inputs);
    AckMeansComplete(cfg, Run(cfg, s, inputs).trace, session, target);
  }

  /** A FIN of the followed session is acknowledged at once exactly when it has no target or its target is the
      number due; without a target the acknowledged number says nothing about the window. */
  lemma AckedAtOnce(cfg: Config, s: Slot, p: Packet, targeted: bool)
    requires cfg.service.Tcp? && s.followed == Some(SessionOf(p))
    ensures AckSent(OnFin(cfg, s, p, targeted).trace, p.hdr.ack)
            <==> AckSent(s.trace, p.hdr.ack) || !targeted || s.win.next == p.hdr.ack
  {
    VerdictIsOrder(SessionOf(p), SessionOf(p));
    if !targeted || s.win.next == p.hdr.ack {
      var s2 := Emit(Emit(s, FinFired(p.hdr.ack)), FinAckSent(p.hdr.ack));
      DiffKeepsAck(s2.trace, s2.logical, DOWN, MAX_PATH, p.hdr.ack);
      var s3 := Forget(DropPaths(s2).(pendingFin := None, waiting := None));
      assert AckSent(DropPaths(s2).trace, p.hdr.ack);
      assert AckSent(s3.trace, p.hdr.ack);
    }
  }

  lemma {:induction false} DiffKeepsAck(t: Trace, was: Flags, next: Flags, k: nat, n: u32)
    requires k <= MAX_PATH
    ensures AckSent(PathEvents.Diff(t, was, next, k), n) == AckSent(t, n)
  {
    if k > 0 {
      DiffKeepsAck(t, was, next, k - 1, n);
    }
  }
}
