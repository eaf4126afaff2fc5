/** The bounded queue between callers of send and the send thread
    (prod/libsrc/porter/infra/potr_send_queue.c). Each method is one critical section of the queue's mutex, so
    any interleaving of threads is a sequence of method calls. */
module SendQueues {
  import opened SeqNum
  import opened Wire
  import opened Windows

  datatype Entry = Entry(peer: u32, elem: Elem)

  // ---------- the queue as a log ----------

  /** Everything ever pushed; how much of it was popped; how much of that was completed. */
  datatype Queue = Queue(depth: nat, log: seq<Entry>, popped: nat, done: nat)

  predicate QueueOk(q: Queue) {
    q.done <= q.popped <= |q.log| <= q.done + q.depth
  }

  datatype Op = Push(e: Entry) | Pop | Complete

  datatype Answer = Accepted | Full | Taken(e: Entry) | Empty | Completed

  function QueueStep(q: Queue, op: Op): (r: (Queue, Answer))
    requires QueueOk(q)
    ensures QueueOk(r.0)
  {
    match op
    case Push(e) =>
      if |q.log| >= q.done + q.depth then (q, Full) else (q.(log := q.log + [e]), Accepted)
    case Pop =>
      if q.popped == |q.log| then (q, Empty) else (q.(popped := q.popped + 1), Taken(q.log[q.popped]))
    case Complete =>
      (if q.done < q.popped then q.(done := q.done + 1) else q, Completed)
  }

  function QueueRun(q: Queue, ops: seq<Op>): (Queue, seq<Answer>)
    requires QueueOk(q)
    decreases |ops|
  {
    if ops == [] then (q, [])
    else
      var (q1, a) := QueueStep(q, ops[0]);
      var (q2, rest) := QueueRun(q1, ops[1..]);
      (q2, [a] + rest)
  }

  function TakenOf(answers: seq<Answer>): seq<Entry> {
    if answers == [] then []
    else (if answers[0].Taken? then [answers[0].e] else []) + TakenOf(answers[1..])
  }

  function AcceptedOf(ops: seq<Op>, answers: seq<Answer>): seq<Entry>
    requires |ops| == |answers|
  {
    if ops == [] then []
    else (if ops[0].Push? && answers[0].Accepted? then [ops[0].e] else []) + AcceptedOf(ops[1..], answers[1..])
  }

  lemma {:induction false} LogRun(q: Queue, ops: seq<Op>, q': Queue, answers: seq<Answer>)
    requires QueueOk(q) && (q', answers) == QueueRun(q, ops)
    ensures QueueOk(q') && q'.depth == q.depth && |answers| == |ops| && q.popped <= q'.popped
    ensures q'.log == q.log + AcceptedOf(ops, answers)
    decreases |ops|
  {
    if ops != [] {
      var (q1, a) := QueueStep(q, ops[0]);
      var rest := answers[1..];
      assert answers == [a] + rest;
      LogRun(q1, ops[1..], q', rest);
      var first := if ops[0].Push? && a.Accepted? then [ops[0].e] else [];
      assert q.log + first + AcceptedOf(ops[1..], rest) == q.log + (first + AcceptedOf(ops[1..], rest));
    }
  }

  /** Under every interleaving of push, pop and complete: the log holds exactly the accepted pushes in order,
      the entries taken are the next ones of the log in order, and never more than `depth` entries are queued
      or in flight. */
  lemma {:induction false} FifoRun(q: Queue, ops: seq<Op>, q': Queue, answers: seq<Answer>)
    requires QueueOk(q) && (q', answers) == QueueRun(q, ops)
    ensures QueueOk(q') && q'.depth == q.depth && |answers| == |ops|
    ensures q'.log == q.log + AcceptedOf(ops, answers)
    ensures q.popped <= q'.popped && TakenOf(answers) == q'.log[q.popped..q'.popped]
    decreases |ops|
  {
    LogRun(q, ops, q', answers);
    if ops != [] {
      var (q1, a) := QueueStep(q, ops[0]);
      FifoRun(q1, ops[1..], q', answers[1..]);
      if a.Taken? {
        assert q'.log[q.popped..q'.popped] == [a.e] + q'.log[q1.popped..q'.popped];
      }
    }
  }

  // ---------- the ring ----------

  /** `Ring` for an offset that may be the whole size. */
  function RingEnd(start: nat, d: nat, size: nat): (i: nat)
    requires start < size && d <= size
    ensures i < size
  {
    if d == size then start else Ring(start, d, size)
  }

  class SendQueue {
    const depth: nat
    const entries: array<Entry>
    var head: nat
    var tail: nat
    var count: nat
    var inflight: nat
    ghost var log: seq<Entry>
    ghost var done: nat
    ghost var oldest: nat  // the slot of the oldest entry not completed

    ghost predicate Valid()
      reads this, entries
    {
      && 0 < depth == entries.Length
      && oldest < depth && count + inflight <= depth
      && |log| == done + inflight + count
      && head == RingEnd(oldest, inflight, depth)
      && tail == RingEnd(oldest, inflight + count, depth)
      && forall d :: 0 <= d < inflight + count ==> entries[Ring(oldest, d, depth)] == log[done + d]
    }

    ghost function View(): (q: Queue)
      requires Valid()
      reads this, entries
      ensures QueueOk(q)
    {
      Queue(depth, log, done + inflight, done)
    }

    /** The slots whose entries were handed out and are still being read. */
    ghost function HandedOut(): set<nat>
      requires Valid()
      reads this, entries
    {
      set d | 0 <= d < inflight :: Ring(oldest, d, depth)
    }

    constructor (depth: nat)
      requires 0 < depth
      ensures Valid() && View() == Queue(depth, [], 0, 0) && fresh(entries)
    {
      this.depth := depth;
      entries := new Entry[depth](_ => Entry(0, Elem(0, [])));
      head, tail, count, inflight := 0, 0, 0, 0;
      log, done, oldest := [], 0, 0;
    }

    /** Also `push_wait` once its wait is over; no slot that was handed out is touched. */
    method PushEntry(e: Entry) returns (ok: bool)
      requires Valid()
      modifies this, entries
      ensures Valid() && (View(), if ok then Accepted else Full) == QueueStep(old(View()), Push(e))
      ensures HandedOut() == old(HandedOut())
      ensures forall i :: i in HandedOut() ==> entries[i] == old(entries[i])
    {
      if count + inflight >= depth {
        return false;
      }
      ghost var n := inflight + count;
      assert forall d :: 0 <= d < n ==> Ring(oldest, d, depth) != tail;
      entries[tail] := e;
      tail := NextIndex(tail, depth);
      count := count + 1;
      log := log + [e];
      ok := true;
    }

    /** `pop` once its wait is over, and `try_pop`. The entry stays in its slot until completed. */
    method PopEntry() returns (r: Option<Entry>)
      requires Valid()
      modifies this
      ensures Valid()
      ensures (View(), if r.Some? then Taken(r.value) else Empty) == QueueStep(old(View()), Pop)
      ensures r.Some? ==> HandedOut() == old(HandedOut()) + {old(head)} && entries[old(head)] == r.value
    {
      if count == 0 {
        return None;
      }
      r := Some(entries[head]);
      assert entries[Ring(oldest, inflight, depth)] == log[done + inflight];
      head := NextIndex(head, depth);
      count, inflight := count - 1, inflight + 1;
    }

    method Peek() returns (r: Option<Entry>)
      requires Valid()
      ensures r == if View().popped < |View().log| then Some(View().log[View().popped]) else None
    {
      if count == 0 {
        return None;
      }
      assert entries[Ring(oldest, inflight, depth)] == log[done + inflight];
      r := Some(entries[head]);
    }

    method CompleteOne()
      requires Valid()
      modifies this
      ensures Valid() && View() == QueueStep(old(View()), Complete).0
      ensures HandedOut() <= old(HandedOut())
    {
      if inflight > 0 {
        ghost var was := oldest;
        inflight := inflight - 1;
        done := done + 1;
        oldest := NextIndex(oldest, depth);
        forall d | 0 <= d < inflight + count
          ensures Ring(oldest, d, depth) == Ring(was, d + 1, depth)
        {
        }
      }
    }

    /** `wait_drained` returns in a state where nothing is queued or in flight, and that means every entry
        pushed has been completed. */
    method IsDrained() returns (drained: bool)
      requires Valid()
      ensures drained <==> View().done == |View().log|
    {
      drained := count == 0 && inflight == 0;
    }
  }
}
