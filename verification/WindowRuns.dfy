/** What the windows mean over whole runs, stated with unbounded indices (prod/libsrc/porter/protocol/window.c).

    A send window is a view of the log of everything ever sent; a receive window is a view of an append-only map
    from stream index to the first copy that was accepted. */
module WindowRuns {
  import opened SeqNum
  import opened Packets
  import opened Windows

  // ---------- send window against the log of all packets sent ----------

  function Min(a: nat, b: nat): nat {
    if a < b then a else b
  }

  /** The send window after pushing `log` into a fresh one. */
  function Sent(first: u32, size: nat, log: seq<Packet>): (w: Win)
    requires 0 < size < U16_MOD
    ensures SendOk(w) && SendView(w, first, size, log)
  {
    if log == [] then
      Init(first, size)
    else
      var n := |log| - 1;
      var w := Sent(first, size, log[..n]);
      PushExtendsView(w, first, size, log[..n], log[n]);
      assert log[..n] + [log[n]] == log;
      SendPush(w, log[n])
  }

  /** The window holds the last `min(n, size)` packets of the log, the oldest at offset 0. */
  predicate SendView(w: Win, first: u32, size: nat, log: seq<Packet>) {
    var n := |log|;
    var live := Min(n, size);
    && 0 < size == w.Size() < U16_MOD
    && w.base == Wrap(first + n - live)
    && w.next == Wrap(first + n)
    && (forall d :: 0 <= d < live ==> w.slots[d] == Some(log[n - live + d]))
    && (forall d :: live <= d < size ==> w.slots[d] == None)
  }

  lemma ViewDistance(w: Win, first: u32, size: nat, log: seq<Packet>)
    requires SendView(w, first, size, log)
    ensures Distance(w.next, w.base) == Min(|log|, size) && SendOk(w)
  {
    DistanceOfWraps(first + |log|, first + |log| - Min(|log|, size));
  }

  lemma PushExtendsView(w: Win, first: u32, size: nat, log: seq<Packet>, p: Packet)
    requires SendView(w, first, size, log)
    ensures SendOk(w) && SendView(SendPush(w, p), first, size, log + [p]) && SendOk(SendPush(w, p))
  {
    ViewDistance(w, first, size, log);
    IncWrap(first + |log|);
    if SendFull(w) {
      PushWhenFull(w, first, size, log, p);
    }
    ViewDistance(SendPush(w, p), first, size, log + [p]);
  }

  lemma PushWhenFull(w: Win, first: u32, size: nat, log: seq<Packet>, p: Packet)
    requires SendOk(w) && SendView(w, first, size, log) && Distance(w.next, w.base) == size <= |log|
    ensures SendView(SendPush(w, p), first, size, log + [p])
  {
    IncWrap(first + |log|);
    IncWrap(first + |log| - size);
    StepOff(w.next, w.base);
  }

  /** Packet `k` is one of the last `min(n, size)` of `n` packets. */
  predicate Recent(size: nat, n: nat, k: int) {
    n - Min(n, size) <= k < n
  }

  /** Send-window refinement: after any number of pushes from any first number, also across 2^32, a number is
      found exactly when it is one of the last `min(n, size)` assigned, and then it is that very packet. */
  lemma SendGetExact(first: u32, size: nat, log: seq<Packet>, q: u32)
    requires 0 < size < U16_MOD
    ensures forall k :: Recent(size, |log|, k) && Number(first, k) == q ==>
                          SendGet(Sent(first, size, log), q) == Some(log[k])
    ensures (forall k :: Recent(size, |log|, k) ==> Number(first, k) != q) ==>
              SendGet(Sent(first, size, log), q) == None
  {
    forall k | Recent(size, |log|, k) && Number(first, k) == q
      ensures SendGet(Sent(first, size, log), q) == Some(log[k])
    {
      SendGetRecent(first, size, log, k);
    }
    if SendGet(Sent(first, size, log), q).Some? {
      var k := SendGetOnlyRecent(first, size, log, q);
    }
  }

  lemma SendGetRecent(first: u32, size: nat, log: seq<Packet>, k: nat)
    requires 0 < size < U16_MOD && Recent(size, |log|, k)
    ensures SendGet(Sent(first, size, log), Number(first, k)) == Some(log[k])
  {
    RecentIsHeld(Sent(first, size, log), first, size, log, k);
  }

  lemma SmallWrap(d: nat)
    requires d < U16_MOD
    ensures Wrap(d) == d
  {
  }

  lemma RecentIsHeld(w: Win, first: u32, size: nat, log: seq<Packet>, k: nat)
    requires SendOk(w) && SendView(w, first, size, log) && Recent(size, |log|, k)
    ensures SendGet(w, Number(first, k)) == Some(log[k])
  {
    ViewDistance(w, first, size, log);
    var oldest := |log| - Min(|log|, size);
    DistanceOfWraps(first + k, first + oldest);
    SmallWrap(k - oldest);
    assert Distance(Number(first, k), w.base) == k - oldest;
    assert w.slots[k - oldest] == Some(log[k]);
  }

  lemma SendGetOnlyRecent(first: u32, size: nat, log: seq<Packet>, q: u32) returns (k: nat)
    requires 0 < size < U16_MOD && SendGet(Sent(first, size, log), q).Some?
    ensures Recent(size, |log|, k) && Number(first, k) == q
  {
    k := HeldIsRecent(Sent(first, size, log), first, size, log, q);
  }

  lemma HeldIsRecent(w: Win, first: u32, size: nat, log: seq<Packet>, q: u32) returns (k: nat)
    requires SendOk(w) && SendView(w, first, size, log) && SendGet(w, q).Some?
    ensures Recent(size, |log|, k) && Number(first, k) == q
  {
    ViewDistance(w, first, size, log);
    var oldest := |log| - Min(|log|, size);
    k := oldest + Distance(q, w.base);
    DistanceRoundTrip(q, w.base);
    WrapAdd(first + oldest, k - oldest);
  }

  // ---------- receive window against a map over unbounded indices ----------

  datatype WinOp = Push(p: Packet) | Pop | Skip(number: u32) | Reset(first: u32)

  datatype WinOut = Accepted(ok: bool) | Popped(p: Option<Packet>) | Quiet

  /** `kept` records the first copy accepted for every index since the last reset and never forgets or
      replaces an entry; `next` is the index to hand out next. */
  datatype Stream = Stream(next: nat, kept: map<nat, Packet>)

  function Lookup(m: map<nat, Packet>, k: nat): Option<Packet> {
    if k in m then Some(m[k]) else None
  }

  function WinStep(w: Win, op: WinOp): (r: (Win, WinOut))
    requires RecvOk(w)
    ensures RecvOk(r.0) && r.0.Size() == w.Size()
  {
    match op
    case Push(p) =>
      RecvOpsKeepOk(w, p);
      if Accepts(w, p.hdr.number) then (RecvPush(w, p), Accepted(true)) else (w, Accepted(false))
    case Pop =>
      RecvOpsKeepOk(w, AnyPacket());
      (if CanPop(w) then Consume(w) else w, Popped(w.slots[0]))
    case Skip(number) =>
      RecvOpsKeepOk(w, AnyPacket());
      (RecvSkip(w, number), Quiet)
    case Reset(first) =>
      (RecvReset(w, first), Quiet)
  }

  function AnyPacket(): Packet {
    Packet(Header(0, 0, 0, 0, 0, 0, 0, 0, 0), [])
  }

  /** The simple form: no ring, no wrapping, no slot reuse. */
  function StreamStep(s: Stream, size: nat, op: WinOp): (Stream, WinOut) {
    match op
    case Push(p) =>
      var k := s.next + Distance(p.hdr.number, Wrap(s.next));
      if k >= s.next + size then (s, Accepted(false))
      else (if k in s.kept then s else s.(kept := s.kept[k := p]), Accepted(true))
    case Pop =>
      (if s.next in s.kept then s.(next := s.next + 1) else s, Popped(Lookup(s.kept, s.next)))
    case Skip(number) =>
      (if Wrap(s.next) == number then s.(next := s.next + 1) else s, Quiet)
    case Reset(first) =>
      (Stream(first, map[]), Quiet)
  }

  function WinRun(w: Win, ops: seq<WinOp>): (seq<WinOut>, Win)
    requires RecvOk(w)
    decreases |ops|
  {
    if ops == [] then ([], w)
    else
      var (w1, out) := WinStep(w, ops[0]);
      var (outs, w2) := WinRun(w1, ops[1..]);
      ([out] + outs, w2)
  }

  function StreamRun(s: Stream, size: nat, ops: seq<WinOp>): (seq<WinOut>, Stream)
    decreases |ops|
  {
    if ops == [] then ([], s)
    else
      var (s1, out) := StreamStep(s, size, ops[0]);
      var (outs, s2) := StreamRun(s1, size, ops[1..]);
      ([out] + outs, s2)
  }

  predicate Refines(w: Win, s: Stream) {
    && RecvOk(w)
    && w.base == Wrap(s.next)
    && (forall d :: 0 <= d < w.Size() ==> w.slots[d] == Lookup(s.kept, s.next + d))
    && (forall k :: k in s.kept ==> k < s.next + w.Size())
  }

  lemma PushRefines(w: Win, s: Stream, p: Packet)
    requires Refines(w, s)
    ensures Refines(WinStep(w, Push(p)).0, StreamStep(s, w.Size(), Push(p)).0)
    ensures WinStep(w, Push(p)).1 == StreamStep(s, w.Size(), Push(p)).1
  {
  }

  lemma ConsumeRefines(w: Win, s: Stream)
    requires Refines(w, s)
    ensures Refines(Consume(w), s.(next := s.next + 1))
  {
    RecvOpsKeepOk(w, AnyPacket());
    IncWrap(s.next);
    var w1 := Consume(w);
    assert forall d :: 0 <= d < w.Size() - 1 ==> w1.slots[d] == w.slots[d + 1];
    assert s.next + w.Size() !in s.kept;
  }

  lemma StepRefines(w: Win, s: Stream, op: WinOp)
    requires Refines(w, s)
    ensures Refines(WinStep(w, op).0, StreamStep(s, w.Size(), op).0)
    ensures WinStep(w, op).1 == StreamStep(s, w.Size(), op).1
  {
    match op
    case Push(p) => PushRefines(w, s, p);
    case Pop => ConsumeRefines(w, s); assert w.slots[0] == Lookup(s.kept, s.next);
    case Skip(number) => ConsumeRefines(w, s);
    case Reset(first) =>
  }

  /** Receive-window refinement: whatever is pushed, popped, skipped and reset, in any order and across 2^32,
      the circular window answers exactly as the map over unbounded indices. */
  lemma {:induction false} RunRefines(w: Win, s: Stream, ops: seq<WinOp>)
    requires Refines(w, s)
    ensures WinRun(w, ops).0 == StreamRun(s, w.Size(), ops).0
    ensures Refines(WinRun(w, ops).1, StreamRun(s, w.Size(), ops).1)
    decreases |ops|
  {
    if ops != [] {
      StepRefines(w, s, ops[0]);
      RunRefines(WinStep(w, ops[0]).0, StreamStep(s, w.Size(), ops[0]).0, ops[1..]);
    }
  }

  predicate NoReset(ops: seq<WinOp>) {
    forall i :: 0 <= i < |ops| ==> !ops[i].Reset?
  }

  /** The packets handed out by a run, in order. */
  function Handed(outs: seq<WinOut>): seq<Packet> {
    if outs == [] then []
    else (if outs[0].Popped? && outs[0].p.Some? then [outs[0].p.value] else []) + Handed(outs[1..])
  }

  predicate Skips(ops: seq<WinOp>) {
    exists i :: 0 <= i < |ops| && ops[i].Skip?
  }

  predicate Extends(later: map<nat, Packet>, kept: map<nat, Packet>) {
    forall k :: k in kept ==> k in later && later[k] == kept[k]
  }

  /** The index each packet handed out had. */
  function HandedAt(s: Stream, size: nat, ops: seq<WinOp>): seq<nat>
    decreases |ops|
  {
    if ops == [] then []
    else
      (if ops[0].Pop? && s.next in s.kept then [s.next] else []) + HandedAt(StreamStep(s, size, ops[0]).0, size, ops[1..])
  }

  /** `packets` are the kept copies at these indices, which rise from `next` on and stay below `top`. */
  predicate Copies(packets: seq<Packet>, at: seq<nat>, next: nat, top: nat, kept: map<nat, Packet>) {
    && |at| == |packets|
    && (forall i :: 0 <= i < |at| ==> next <= at[i] < top && at[i] in kept && packets[i] == kept[at[i]])
    && (forall i, j :: 0 <= i < j < |at| ==> at[i] < at[j])
  }

  lemma CopiesCons(p: Packet, packets: seq<Packet>, at: seq<nat>, next: nat, top: nat, kept: map<nat, Packet>)
    requires next in kept && kept[next] == p && next < top && Copies(packets, at, next + 1, top, kept)
    ensures Copies([p] + packets, [next] + at, next, top, kept)
  {
    var ps := [p] + packets;
    var ks: seq<nat> := [next] + at;
    forall i | 0 <= i < |ks|
      ensures next <= ks[i] < top && ks[i] in kept && ps[i] == kept[ks[i]]
    {
      if i > 0 {
        assert ks[i] == at[i - 1] && ps[i] == packets[i - 1];
      }
    }
    forall i, j | 0 <= i < j < |ks|
      ensures ks[i] < ks[j]
    {
      assert ks[j] == at[j - 1];
      if i > 0 {
        assert ks[i] == at[i - 1];
      }
    }
  }

  /** One operation hands out at most the packet at `next`, and moves `next` up by at most one. */
  lemma StepHands(s: Stream, size: nat, op: WinOp, out: WinOut, s1: Stream, rest: seq<WinOut>)
    requires !op.Reset? && (s1, out) == StreamStep(s, size, op)
    ensures Extends(s1.kept, s.kept)
    ensures if op.Pop? && s.next in s.kept
            then s1.next == s.next + 1 && Handed([out] + rest) == [s.kept[s.next]] + Handed(rest)
            else s.next <= s1.next && (!op.Skip? ==> s1.next == s.next) && Handed([out] + rest) == Handed(rest)
  {
    assert ([out] + rest)[1..] == rest;
    assert [] + Handed(rest) == Handed(rest);
  }

  /** Between resets, whatever is pushed, popped and skipped: the packets handed out are the first accepted copies of
      strictly increasing indices, so in order, none twice, none replaced by a later copy; and without skips the
      indices have no holes. */
  lemma {:induction false} HandedInOrder(s: Stream, size: nat, ops: seq<WinOp>, outs: seq<WinOut>, s': Stream)
    requires NoReset(ops)
    requires (outs, s') == StreamRun(s, size, ops)
    ensures s.next <= s'.next && Extends(s'.kept, s.kept)
    ensures Copies(Handed(outs), HandedAt(s, size, ops), s.next, s'.next, s'.kept)
    ensures !Skips(ops) ==> s'.next == s.next + |Handed(outs)|
    decreases |ops|
  {
    if ops != [] {
      var (s1, out) := StreamStep(s, size, ops[0]);
      var rest := outs[1..];
      assert outs == [out] + rest;
      assert NoReset(ops[1..]) && (!Skips(ops) ==> !Skips(ops[1..]) && !ops[0].Skip?) by {
        assert forall i :: 0 <= i < |ops[1..]| ==> ops[1..][i] == ops[i + 1];
      }
      HandedInOrder(s1, size, ops[1..], rest, s');
      StepHands(s, size, ops[0], out, s1, rest);
      HandedAtUnfold(s, size, ops, s1);
      var first := ops[0].Pop? && s.next in s.kept;
      GrowCopies(first, if first then s.kept[s.next] else AnyPacket(), Handed(rest), HandedAt(s1, size, ops[1..]),
                 s.next, s1.next, s'.next, s'.kept);
    }
  }

  /** The packet at `next`, if one is handed out, comes before those handed out later. */
  lemma GrowCopies(first: bool, p: Packet, packets: seq<Packet>, at: seq<nat>, next: nat, next1: nat, top: nat,
                   kept: map<nat, Packet>)
    requires next <= next1 <= top && Copies(packets, at, next1, top, kept)
    requires first ==> next1 == next + 1 && next in kept && kept[next] == p
    ensures Copies(if first then [p] + packets else packets, if first then [next] + at else at, next, top, kept)
  {
    if first {
      CopiesCons(p, packets, at, next, top, kept);
    } else {
      CopiesFrom(packets, at, next, next1, top, kept);
    }
  }

  lemma HandedAtUnfold(s: Stream, size: nat, ops: seq<WinOp>, s1: Stream)
    requires ops != [] && s1 == StreamStep(s, size, ops[0]).0
    ensures HandedAt(s, size, ops)
         == if ops[0].Pop? && s.next in s.kept then [s.next] + HandedAt(s1, size, ops[1..]) else HandedAt(s1, size, ops[1..])
  {
    assert [] + HandedAt(s1, size, ops[1..]) == HandedAt(s1, size, ops[1..]);
  }

  lemma CopiesFrom(packets: seq<Packet>, at: seq<nat>, lower: nat, next: nat, top: nat, kept: map<nat, Packet>)
    requires lower <= next && Copies(packets, at, next, top, kept)
    ensures Copies(packets, at, lower, top, kept)
  {
  }
}
