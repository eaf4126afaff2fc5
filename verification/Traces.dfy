/** The observable history of one receiver: every packet handed to it, every callback it makes, every packet
    it sends, and what it does to its window. The folds below say what a well-behaved history looks like without
    mentioning the receiver. */
module Traces {
  import opened SeqNum
  import opened Packets
  import opened Sessions

  const MAX_PATH := 4

  type Flags = f: seq<bool> | |f| == 4 witness [false, false, false, false]

  const DOWN: Flags := [false, false, false, false]

  datatype Event =
    | Got(p: Packet)                                   // a packet reaches the receiver
    | Started(number: u32)                             // the receive window restarts at a number
    | Switched                                         // a newer session replaces the followed one
    | Forgot                                           // the followed session is forgotten
    | Popped(number: u32, live: bool)                  // leaves the window; delivered when live, else dropped
    | Skipped(number: u32)                             // given up after a REJECT
    | PathChanged(path: nat, up: bool, states: Flags)  // PATH_CONNECTED / PATH_DISCONNECTED
    | Connected
    | Disconnected
    | Message(data: seq<byte>)                         // POTR_EVENT_DATA
    | Armed(number: u32, at: nat)                      // reorder wait begins for a number
    | Ready(number: u32, at: nat)                      // reorder wait is over
    | NackSent(number: u32)
    | FinFired(target: u32)                            // a FIN takes effect
    | FinAckSent(target: u32)

  datatype Trace = Nothing | Then(before: Trace, last: Event)

  predicate AnyUp(f: Flags) {
    exists k :: 0 <= k < MAX_PATH && f[k]
  }

  // ---------- session and path callbacks ----------

  /** Whether the last session callback was CONNECTED. */
  function IsConnected(t: Trace): bool {
    match t
    case Nothing => false
    case Then(b, Connected) => true
    case Then(b, Disconnected) => false
    case Then(b, _) => IsConnected(b)
  }

  /** The path states a caller computes by applying the path callbacks to "all down". */
  function PathsOf(t: Trace): Flags {
    match t
    case Nothing => DOWN
    case Then(b, PathChanged(k, up, _)) => if k < MAX_PATH then PathsOf(b)[k := up] else PathsOf(b)
    case Then(b, _) => PathsOf(b)
  }

  /** Callbacks alternate per path and per session; the session callback comes after the path callbacks that
      cause it; the snapshot passed along shows the changed path in its new state; DATA callbacks and live
      packets come only while connected. */
  predicate CallbacksOk(t: Trace) {
    match t
    case Nothing => true
    case Then(b, e) =>
      && CallbacksOk(b)
      && match e
         case PathChanged(k, up, states) => k < MAX_PATH && PathsOf(b)[k] != up && states[k] == up
         case Connected => !IsConnected(b) && AnyUp(PathsOf(b))
         case Disconnected => IsConnected(b) && !AnyUp(PathsOf(b))
         case Message(_) => IsConnected(b)
         case Popped(_, live) => live == IsConnected(b)
         case _ => true
  }

  // ---------- order of packets ----------

  /** The next number due: one past the last number popped or skipped since the last start. */
  function Due(t: Trace): Option<u32> {
    match t
    case Nothing => None
    case Then(b, Started(n)) => Some(n)
    case Then(b, Popped(n, _)) => Some(Inc(n))
    case Then(b, Skipped(n)) => Some(Inc(n))
    case Then(b, _) => Due(b)
  }

  /** From every start on, numbers are popped or skipped one after the other. */
  predicate InOrder(t: Trace) {
    match t
    case Nothing => true
    case Then(b, Popped(n, _)) => InOrder(b) && Due(b) == Some(n)
    case Then(b, Skipped(n)) => InOrder(b) && Due(b) == Some(n)
    case Then(b, _) => InOrder(b)
  }

  /** The last number delivered in this session since the last DISCONNECTED. */
  function LastLive(t: Trace): Option<u32> {
    match t
    case Nothing => None
    case Then(b, Popped(n, live)) => if live then Some(n) else LastLive(b)
    case Then(b, Disconnected) => None
    case Then(b, Switched) => None
    case Then(b, _) => LastLive(b)
  }

  /** Two packets delivered with no DISCONNECTED and no session switch between them are neighbours. */
  predicate NoSilentGap(t: Trace) {
    match t
    case Nothing => true
    case Then(b, Popped(n, live)) =>
      NoSilentGap(b) && (live ==> LastLive(b).None? || n == Inc(LastLive(b).value))
    case Then(b, _) => NoSilentGap(b)
  }

  // ---------- reorder wait ----------

  function LastArmed(t: Trace): Option<(u32, nat)> {
    match t
    case Nothing => None
    case Then(b, Armed(n, at)) => Some((n, at))
    case Then(b, _) => LastArmed(b)
  }

  /** A wait for a number ends only when that number was the last one armed, at least `wait` before. */
  predicate WaitsRespected(t: Trace, wait: nat) {
    match t
    case Nothing => true
    case Then(b, Ready(n, at)) =>
      && WaitsRespected(b, wait)
      && LastArmed(b).Some? && LastArmed(b).value.0 == n && LastArmed(b).value.1 + wait <= at
    case Then(b, _) => WaitsRespected(b, wait)
  }

  /** A NACK goes out only right after the wait for its number ended. */
  predicate NacksWaited(t: Trace) {
    match t
    case Nothing => true
    case Then(b, NackSent(n)) => NacksWaited(b) && b.Then? && b.last.Ready? && b.last.number == n
    case Then(b, _) => NacksWaited(b)
  }

  // ---------- contents ----------

  function Messages(t: Trace): seq<seq<byte>> {
    match t
    case Nothing => []
    case Then(b, Message(m)) => Messages(b) + [m]
    case Then(b, _) => Messages(b)
  }

  /** DISCONNECTED callbacks and session switches: what ends an uninterrupted connection. */
  function Losses(t: Trace): nat {
    match t
    case Nothing => 0
    case Then(b, Disconnected) => Losses(b) + 1
    case Then(b, Switched) => Losses(b) + 1
    case Then(b, _) => Losses(b)
  }

  function Length(t: Trace): nat {
    match t
    case Nothing => 0
    case Then(b, _) => Length(b) + 1
  }

  function PopCount(t: Trace): nat {
    match t
    case Nothing => 0
    case Then(b, Popped(_, _)) => PopCount(b) + 1
    case Then(b, _) => PopCount(b)
  }
}

/** Turning path states into callbacks (prod/libsrc/porter/potr_path_event.c). */
module PathEvents {
  import opened SeqNum
  import opened Packets
  import opened Traces

  /** The path callbacks for the first `n` paths, in ascending order. */
  function Diff(t: Trace, was: Flags, next: Flags, n: nat): Trace
    requires n <= MAX_PATH
  {
    if n == 0 then t
    else
      var b := Diff(t, was, next, n - 1);
      if was[n - 1] == next[n - 1] then b else Then(b, PathChanged(n - 1, next[n - 1], next))
  }

  /** The callbacks of one synchronisation: changed paths, then the session if its state changed. */
  function SyncTrace(t: Trace, alive: bool, was: Flags, next: Flags): Trace {
    var b := Diff(t, was, next, MAX_PATH);
    if alive == AnyUp(next) then b else Then(b, if AnyUp(next) then Connected else Disconnected)
  }

  /** `health_alive` and `path_logical_alive` are what a caller computes from the callbacks. */
  predicate Agrees(t: Trace, alive: bool, logical: Flags) {
    CallbacksOk(t) && PathsOf(t) == logical && IsConnected(t) == alive == AnyUp(logical)
  }

  lemma {:induction false} DiffApplies(t: Trace, was: Flags, next: Flags, n: nat)
    requires n <= MAX_PATH && CallbacksOk(t) && PathsOf(t) == was
    ensures CallbacksOk(Diff(t, was, next, n)) && IsConnected(Diff(t, was, next, n)) == IsConnected(t)
    ensures PathsOf(Diff(t, was, next, n)) == next[..n] + was[n..]
  {
    if n > 0 {
      DiffApplies(t, was, next, n - 1);
      assert next[..n] + was[n..] == (next[..n - 1] + was[n - 1..])[n - 1 := next[n - 1]];
    }
  }

  /** One synchronisation keeps the callbacks well-formed and brings a caller's view to the new states. */
  lemma SyncAgrees(t: Trace, alive: bool, was: Flags, next: Flags)
    requires Agrees(t, alive, was)
    ensures Agrees(SyncTrace(t, alive, was, next), AnyUp(next), next)
  {
    DiffApplies(t, was, next, MAX_PATH);
    assert next[..MAX_PATH] + was[MAX_PATH..] == next;
  }

  function SyncAll(t: Trace, alive: bool, was: Flags, vectors: seq<Flags>): Trace
    decreases |vectors|
  {
    if vectors == [] then t
    else SyncAll(SyncTrace(t, alive, was, vectors[0]), AnyUp(vectors[0]), vectors[0], vectors[1..])
  }

  /** Event stream: for every sequence of path-state vectors the callbacks alternate, starting with CONNECTED,
      and folding them gives the last vector. */
  lemma {:induction false} StreamAgrees(t: Trace, alive: bool, was: Flags, vectors: seq<Flags>)
    requires Agrees(t, alive, was)
    ensures var last := if vectors == [] then was else vectors[|vectors| - 1];
            Agrees(SyncAll(t, alive, was, vectors), AnyUp(last), last)
    decreases |vectors|
  {
    if vectors != [] {
      SyncAgrees(t, alive, was, vectors[0]);
      StreamAgrees(SyncTrace(t, alive, was, vectors[0]), AnyUp(vectors[0]), vectors[0], vectors[1..]);
    }
  }

  // ---------- the two loops ----------

  /** Calling back for the changed paths collected in `changed`. */
  ghost function Prepared(t: Trace, next: Flags, changed: seq<nat>): Trace
    requires forall i :: 0 <= i < |changed| ==> changed[i] < MAX_PATH
  {
    if changed == [] then t
    else
      var n := |changed| - 1;
      Then(Prepared(t, next, changed[..n]), PathChanged(changed[n], next[changed[n]], next))
  }

  /** Collecting which paths changed and whether any is up. */
  method PrepareEvents(ghost t: Trace, was: Flags, next: Flags) returns (changed: seq<nat>, newAlive: bool)
    ensures newAlive == AnyUp(next)
    ensures forall i :: 0 <= i < |changed| ==> changed[i] < MAX_PATH
    ensures Prepared(t, next, changed) == Diff(t, was, next, MAX_PATH)
  {
    changed, newAlive := [], false;
    for k := 0 to MAX_PATH
      invariant newAlive == exists j :: 0 <= j < k && next[j]
      invariant forall i :: 0 <= i < |changed| ==> changed[i] < MAX_PATH
      invariant Prepared(t, next, changed) == Diff(t, was, next, k)
    {
      if next[k] {
        newAlive := true;
      }
      if was[k] != next[k] {
        assert (changed + [k])[..|changed|] == changed;
        changed := changed + [k];
      }
    }
  }

  method EmitEvents(t: Trace, next: Flags, changed: seq<nat>) returns (r: Trace)
    requires forall i :: 0 <= i < |changed| ==> changed[i] < MAX_PATH
    ensures r == Prepared(t, next, changed)
  {
    r := t;
    for i := 0 to |changed|
      invariant r == Prepared(t, next, changed[..i])
    {
      assert changed[..i + 1][..i] == changed[..i];
      r := Then(r, PathChanged(changed[i], next[changed[i]], next));
    }
    assert changed[..|changed|] == changed;
  }

  /** Preparing and emitting together. */
  method SyncEvents(t: Trace, alive: bool, was: Flags, next: Flags) returns (newAlive: bool, r: Trace)
    ensures newAlive == AnyUp(next) && r == SyncTrace(t, alive, was, next)
  {
    var changed;
    changed, newAlive := PrepareEvents(t, was, next);
    r := EmitEvents(t, next, changed);
    if alive != newAlive {
      r := Then(r, if newAlive then Connected else Disconnected);
    }
  }
}
