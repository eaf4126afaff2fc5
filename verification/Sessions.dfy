/** Which session a receiver follows (prod/libsrc/porter/thread/thread_recv_session.c, and the TCP accept
    comparison of prod/libsrc/porter/thread/thread_connect_prepare.c). */
module Sessions {
  import opened SeqNum
  import opened Packets

  /** Start time and random id, compared in that order. */
  datatype Session = Session(sec: int, nsec: int, id: u32)

  function SessionOf(p: Packet): Session {
    Session(p.hdr.sec, p.hdr.nsec, p.hdr.sessionId)
  }

  /** `cplat_timespec_cmp` on the start times. */
  function CompareStart(a: Session, b: Session): int {
    if a.sec != b.sec then a.sec - b.sec else a.nsec - b.nsec
  }

  datatype Verdict = New | Same | Old

  /** The decision of `thread_recv_session_adopt`. */
  function Judge(tracked: Option<Session>, s: Session): Verdict {
    if tracked.None? then New
    else if CompareStart(s, tracked.value) > 0 then New
    else if CompareStart(s, tracked.value) < 0 then Old
    else if s.id > tracked.value.id then New
    else if s.id == tracked.value.id then Same
    else Old
  }

  /** The session followed after a packet of session `s` was judged. */
  function Follow(tracked: Option<Session>, s: Session): Option<Session> {
    if Judge(tracked, s).New? then Some(s) else tracked
  }

  function FollowAll(tracked: Option<Session>, seen: seq<Session>): Option<Session> {
    if seen == [] then tracked else Follow(FollowAll(tracked, seen[..|seen| - 1]), seen[|seen| - 1])
  }

  /** Lexicographic order on (start seconds, start nanoseconds, id). */
  predicate AtMost(a: Session, b: Session) {
    a.sec < b.sec || (a.sec == b.sec && (a.nsec < b.nsec || (a.nsec == b.nsec && a.id <= b.id)))
  }

  /** The session followed is the lexicographic maximum of all sessions seen since the last forget: it is one
      of them and none is greater. */
  lemma {:induction false} FollowsMaximum(seen: seq<Session>)
    requires seen != []
    ensures var m := FollowAll(None, seen);
            m.Some? && m.value in seen && forall s :: s in seen ==> AtMost(s, m.value)
  {
    var n := |seen| - 1;
    if n > 0 {
      FollowsMaximum(seen[..n]);
    }
    assert seen == seen[..n] + [seen[n]];
  }

  /** Arrival order and repetition do not matter. */
  lemma OrderIrrelevant(a: seq<Session>, b: seq<Session>)
    requires a != [] && b != []
    requires forall s :: s in a <==> s in b
    ensures FollowAll(None, a) == FollowAll(None, b)
  {
    FollowsMaximum(a);
    FollowsMaximum(b);
  }

  /** `thread_connect_session_compare`, written as the accept thread has it. */
  function AcceptCompare(accepted: Option<Session>, s: Session): Verdict {
    if accepted.None? then New
    else
      var c := CompareStart(s, accepted.value);
      if c > 0 then New
      else if c < 0 then Old
      else if s.id > accepted.value.id then New
      else if s.id < accepted.value.id then Old
      else Same
  }

  /** Adoption and the accept comparison agree, and both are the lexicographic order. */
  lemma VerdictIsOrder(tracked: Session, s: Session)
    ensures Judge(Some(tracked), s) == AcceptCompare(Some(tracked), s)
    ensures Judge(Some(tracked), s).Same? <==> s == tracked
    ensures Judge(Some(tracked), s).New? <==> !AtMost(s, tracked)
    ensures Judge(Some(tracked), s).Old? <==> !AtMost(tracked, s)
  {
  }
}
