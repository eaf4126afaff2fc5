/** Slots and ids of the peers of an N:1 service (prod/libsrc/porter/potr_peer_table.c, with the lookup and
    creation of prod/libsrc/porter/thread/potr_recv_thread.c and the path learning of thread_recv_session.c). */
module PeerTables {
  import opened SeqNum
  import opened Sessions

  const PEER_NA: u32 := 0
  const PEER_ALL: u32 := 0xFFFF_FFFF
  const MAX_PATH := 4

  datatype Endpoint = Endpoint(address: u32, port: u16)

  predicate Unset(e: Endpoint) {
    e.address == 0 && e.port == 0
  }

  const NOWHERE := Endpoint(0, 0)

  type Dests = d: seq<Endpoint> | |d| == 4 witness [Endpoint(0, 0), Endpoint(0, 0), Endpoint(0, 0), Endpoint(0, 0)]

  datatype Peer = Peer(active: bool, id: u32, session: Session, dests: Dests, nPaths: int)

  const NO_DESTS: Dests := [NOWHERE, NOWHERE, NOWHERE, NOWHERE]

  function One(e: Endpoint): nat {
    if Unset(e) then 0 else 1
  }

  /** How many destinations are set. */
  function SetCount(d: Dests): nat {
    One(d[0]) + One(d[1]) + One(d[2]) + One(d[3])
  }

  // ---------- paths of one peer ----------

  /** `thread_recv_learn_sender_path`: a known path only follows the sender's port. */
  function Learn(p: Peer, path: nat, sender: Endpoint): Peer
    requires path < MAX_PATH
  {
    if !Unset(p.dests[path]) then p.(dests := p.dests[path := p.dests[path].(port := sender.port)])
    else p.(dests := p.dests[path := sender], nPaths := p.nPaths + 1)
  }

  /** `potr_internal_peer_path_clear`. */
  function ClearPath(p: Peer, path: nat): Peer
    requires path < MAX_PATH
  {
    if Unset(p.dests[path]) then p else p.(dests := p.dests[path := NOWHERE], nPaths := p.nPaths - 1)
  }

  /** Learning keeps `n_paths` equal to the number of set destinations exactly when what it stores is not the
      "unset" pattern 0.0.0.0:0 itself; clearing always keeps it. */
  lemma PathsCounted(p: Peer, path: nat, sender: Endpoint)
    requires path < MAX_PATH && p.nPaths == SetCount(p.dests)
    ensures var q := Learn(p, path, sender);
            q.nPaths == SetCount(q.dests)
            <==> if Unset(p.dests[path]) then !Unset(sender) else p.dests[path].address != 0 || sender.port != 0
    ensures ClearPath(p, path).nPaths == SetCount(ClearPath(p, path).dests)
    ensures Unset(ClearPath(p, path).dests[path])
  {
    assert path == 0 || path == 1 || path == 2 || path == 3;
  }

  // ---------- counting ----------

  function ActiveCount(s: seq<Peer>): nat {
    if s == [] then 0 else ActiveCount(s[..|s| - 1]) + if s[|s| - 1].active then 1 else 0
  }

  lemma {:induction false} CountUpdate(s: seq<Peer>, i: nat, p: Peer)
    requires i < |s|
    ensures ActiveCount(s[i := p]) == ActiveCount(s) - (if s[i].active then 1 else 0) + (if p.active then 1 else 0)
    decreases |s|
  {
    var n := |s| - 1;
    if i == n {
      assert s[i := p][..n] == s[..n];
    } else {
      assert s[i := p][..n] == s[..n][i := p];
      CountUpdate(s[..n], i, p);
    }
  }

  lemma {:induction false} SomeInactive(s: seq<Peer>) returns (i: nat)
    requires ActiveCount(s) < |s|
    ensures i < |s| && !s[i].active
  {
    i := |s| - 1;
    if s[i].active {
      i := SomeInactive(s[..i]);
    }
  }

  /** Ids a new peer must not get. */
  function Blocked(s: seq<Peer>): set<u32> {
    if s == [] then {PEER_NA, PEER_ALL}
    else Blocked(s[..|s| - 1]) + if s[|s| - 1].active then {s[|s| - 1].id} else {}
  }

  lemma {:induction false} BlockedSpec(s: seq<Peer>, id: u32)
    ensures |Blocked(s)| <= |s| + 2
    ensures id in Blocked(s) <==> id == PEER_NA || id == PEER_ALL || exists i :: 0 <= i < |s| && s[i].active && s[i].id == id
  {
    if s != [] {
      var n := |s| - 1;
      BlockedSpec(s[..n], id);
      if i :| 0 <= i < n && s[i].active && s[i].id == id {
        assert s[..n][i] == s[i];
      }
    }
  }

  // ---------- the table ----------

  predicate DistinctIds(s: seq<Peer>) {
    forall i, j :: 0 <= i < j < |s| && s[i].active && s[j].active ==> s[i].id != s[j].id
  }

  predicate DistinctSessions(s: seq<Peer>) {
    forall i, j :: 0 <= i < j < |s| && s[i].active && s[j].active ==> s[i].session != s[j].session
  }

  predicate PeerOk(p: Peer) {
    p.id != PEER_NA && p.id != PEER_ALL
  }

  /** `n_paths` is the number of destinations, each of which has an address. */
  predicate Counted(p: Peer) {
    && p.nPaths == SetCount(p.dests)
    && forall k :: 0 <= k < MAX_PATH ==> Unset(p.dests[k]) || p.dests[k].address != 0
  }

  predicate AllCounted(s: seq<Peer>) {
    forall i :: 0 <= i < |s| && s[i].active ==> Counted(s[i])
  }

  /** One path to the sender is counted right exactly when the sender is not 0.0.0.0:0. */
  lemma OnePathCounted(p: Peer, path: nat, sender: Endpoint)
    requires path < MAX_PATH && p.dests == NO_DESTS[path := sender] && p.nPaths == 1
    ensures p.nPaths == SetCount(p.dests) <==> !Unset(sender)
    ensures sender.address != 0 ==> Counted(p)
  {
    assert path == 0 || path == 1 || path == 2 || path == 3;
  }

  lemma LearnCounted(p: Peer, path: nat, sender: Endpoint)
    requires path < MAX_PATH && Counted(p)
    ensures sender.address != 0 ==> Counted(Learn(p, path, sender))
    ensures Counted(ClearPath(p, path))
  {
    PathsCounted(p, path, sender);
  }

  predicate PeersOk(s: seq<Peer>) {
    forall i :: 0 <= i < |s| && s[i].active ==> PeerOk(s[i])
  }

  class PeerTable {
    const peers: array<Peer>
    var nPeers: int
    var nextId: u32

    ghost predicate Valid()
      reads this, peers
    {
      && peers.Length < U32_MOD - 2
      && nPeers == ActiveCount(peers[..])
      && DistinctIds(peers[..]) && DistinctSessions(peers[..]) && PeersOk(peers[..])
    }

    constructor (maxPeers: nat)
      requires maxPeers < U32_MOD - 2
      ensures Valid() && AllCounted(peers[..]) && nPeers == 0 && peers.Length == maxPeers && fresh(peers)
    {
      peers := new Peer[maxPeers](_ => Peer(false, 0, Session(0, 0, 0), NO_DESTS, 0));
      nPeers, nextId := 0, 1;
      new;
      NoneActive(peers[..]);
    }

    method InUse(id: u32) returns (used: bool)
      ensures used <==> exists i :: 0 <= i < peers.Length && peers[i].active && peers[i].id == id
    {
      for i := 0 to peers.Length
        invariant forall j :: 0 <= j < i ==> !(peers[j].active && peers[j].id == id)
      {
        if peers[i].active && peers[i].id == id {
          return true;
        }
      }
      used := false;
    }

    /** The first id at or after `start`, cyclically, that is neither reserved nor in use; the search always ends
        because fewer than 2^32 ids are blocked. */
    method SearchId(start: u32) returns (id: u32)
      requires Valid()
      ensures id !in Blocked(peers[..]) && RunOf(start, Distance(id, start), Blocked(peers[..]))
    {
      id := start;
      ghost var blocked := Blocked(peers[..]);
      ghost var n := 0;
      BlockedSpec(peers[..], 0);
      while true
        invariant id == Number(start, n) && 0 <= n <= |blocked| && RunOf(start, n, blocked)
        decreases |blocked| - n
      {
        BlockedSpec(peers[..], id);
        var used := InUse(id);
        if id != PEER_NA && id != PEER_ALL && !used {
          break;
        }
        Pigeonhole(start, n + 1, blocked);
        IncWrap(start + n);
        id := Inc(id);
        n := n + 1;
      }
      StepRoundTrip(start, n);
    }

    method AllocateId() returns (id: u32)
      requires Valid()
      modifies this`nextId
      ensures Valid() && id !in Blocked(peers[..]) && nextId == Inc(id)
      ensures RunOf(old(nextId), Distance(id, old(nextId)), Blocked(peers[..]))
    {
      id := SearchId(nextId);
      nextId := Inc(id);
    }

    method FindBySession(session: Session) returns (r: Option<nat>)
      ensures r.Some? ==> r.value < peers.Length && peers[r.value].active && peers[r.value].session == session
      ensures r.None? ==> forall i :: 0 <= i < peers.Length && peers[i].active ==> peers[i].session != session
    {
      for i := 0 to peers.Length
        invariant forall j :: 0 <= j < i && peers[j].active ==> peers[j].session != session
      {
        if peers[i].active && peers[i].session == session {
          return Some(i);
        }
      }
      r := None;
    }

    method FindById(id: u32) returns (r: Option<nat>)
      ensures r.Some? ==> r.value < peers.Length && peers[r.value].active && peers[r.value].id == id
      ensures r.None? ==> forall i :: 0 <= i < peers.Length && peers[i].active ==> peers[i].id != id
    {
      for i := 0 to peers.Length
        invariant forall j :: 0 <= j < i && peers[j].active ==> peers[j].id != id
      {
        if peers[i].active && peers[i].id == id {
          return Some(i);
        }
      }
      r := None;
    }

    /** With fewer peers than slots there is a free slot, so the abort behind this search is unreachable. */
    method FreeSlot() returns (i: nat)
      requires Valid() && nPeers < peers.Length
      ensures i < peers.Length && !peers[i].active
    {
      i := 0;
      ghost var free := SomeInactive(peers[..]);
      while peers[i].active
        invariant i <= free
        decreases free - i
      {
        i := i + 1;
      }
    }

    /** Overwrite one slot and adjust the count. */
    method Replace(i: nat, p: Peer)
      requires Valid() && i < peers.Length && Admissible(peers[..], i, p)
      modifies this`nPeers, peers
      ensures Valid() && peers[..] == old(peers[..])[i := p]
    {
      CountUpdate(peers[..], i, p);
      nPeers := nPeers - (if peers[i].active then 1 else 0) + (if p.active then 1 else 0);
      peers[i] := p;
      assert peers[..] == old(peers[..])[i := p];
    }

    /** The part of `n1_handle_packet` that finds or creates the peer of a packet: an unknown session gets a slot
        only through a PING, while there is room, and if the random source works. */
    method PeerFor(session: Session, isPing: bool, sender: Endpoint, path: nat, randomOk: bool) returns (r: Option<nat>)
      requires Valid() && path < MAX_PATH
      modifies this, peers
      ensures Valid() && (old(AllCounted(peers[..])) && sender.address != 0 ==> AllCounted(peers[..]))
      ensures r.Some? ==> r.value < peers.Length && peers[r.value].active && peers[r.value].session == session
      ensures var known := exists i :: 0 <= i < |old(peers[..])| && old(peers[..])[i].active && old(peers[..])[i].session == session;
              && (r.Some? <==> known || (isPing && old(nPeers) < peers.Length && randomOk))
              && (known || !isPing || old(nPeers) >= peers.Length ==> peers[..] == old(peers[..]) && nextId == old(nextId))
              && (r.Some? && !known ==>
                    && !old(peers[..])[r.value].active
                    && peers[r.value].id !in Blocked(old(peers[..]))
                    && peers[r.value].dests == NO_DESTS[path := sender]
                    && (peers[r.value].nPaths == SetCount(peers[r.value].dests) <==> !Unset(sender))
                    && peers[..] == old(peers[..])[r.value := peers[r.value]])
    {
      r := FindBySession(session);
      if r.Some? || !isPing || nPeers >= peers.Length {
        return;
      }
      var i := FreeSlot();
      var id := AllocateId();
      BlockedSpec(peers[..], id);
      var p := Peer(randomOk, id, session, NO_DESTS[path := sender], 1);
      IdFree(peers[..], id);
      OnePathCounted(p, path, sender);
      Replace(i, p);
      r := if randomOk then Some(i) else None;
    }

    /** `potr_internal_peer_free`. */
    method Free(i: nat)
      requires Valid() && i < peers.Length
      modifies this, peers
      ensures Valid() && peers[..] == old(peers[..])[i := old(peers[i]).(active := false)] && nextId == old(nextId)
      ensures nPeers == old(nPeers) - if old(peers[i]).active then 1 else 0
      ensures old(AllCounted(peers[..])) ==> AllCounted(peers[..])
    {
      CountUpdate(peers[..], i, peers[i].(active := false));
      Replace(i, peers[i].(active := false));
    }

    method LearnPath(i: nat, path: nat, sender: Endpoint)
      requires Valid() && i < peers.Length && path < MAX_PATH && peers[i].active
      modifies this, peers
      ensures Valid() && peers[..] == old(peers[..])[i := Learn(old(peers[i]), path, sender)]
      ensures old(AllCounted(peers[..])) && sender.address != 0 ==> AllCounted(peers[..])
    {
      if Counted(peers[i]) {
        LearnCounted(peers[i], path, sender);
      }
      Replace(i, Learn(peers[i], path, sender));
    }

    method DropPath(i: nat, path: nat)
      requires Valid() && i < peers.Length && path < MAX_PATH && peers[i].active
      modifies this, peers
      ensures Valid() && peers[..] == old(peers[..])[i := ClearPath(old(peers[i]), path)]
      ensures old(AllCounted(peers[..])) ==> AllCounted(peers[..])
    {
      if Counted(peers[i]) {
        LearnCounted(peers[i], path, NOWHERE);
      }
      Replace(i, ClearPath(peers[i], path));
    }
  }

  /** `p` may stand in slot `i`: inactive, or with an id and a session no other active peer has. */
  predicate Admissible(s: seq<Peer>, i: nat, p: Peer)
    requires i < |s|
  {
    p.active ==>
      && PeerOk(p)
      && forall j :: 0 <= j < |s| && j != i && s[j].active ==> s[j].id != p.id && s[j].session != p.session
  }

  lemma IdFree(s: seq<Peer>, id: u32)
    requires id !in Blocked(s)
    ensures id != PEER_NA && id != PEER_ALL && forall j :: 0 <= j < |s| && s[j].active ==> s[j].id != id
  {
    BlockedSpec(s, id);
  }

  /** The `n` ids from `start` on are all in the set. */
  predicate RunOf(start: u32, n: nat, ids: set<u32>) {
    forall d :: 0 <= d < n ==> Number(start, d) in ids
  }

  lemma {:induction false} NoneActive(s: seq<Peer>)
    requires forall i :: 0 <= i < |s| ==> !s[i].active
    ensures ActiveCount(s) == 0
  {
    if s != [] {
      NoneActive(s[..|s| - 1]);
    }
  }

  /** Consecutive ids are different until the counter comes round, so `n` blocked ones in a row need a set of
      at least `n`. */
  lemma {:induction false} Pigeonhole(start: u32, n: nat, blocked: set<u32>)
    requires n <= U32_MOD && RunOf(start, n, blocked)
    ensures n <= |blocked|
  {
    if n > 0 {
      var x := Number(start, n - 1);
      NotTried(start, n - 1, x);
      Pigeonhole(start, n - 1, blocked - {x});
    }
  }

  lemma NotTried(start: u32, n: nat, candidate: u32)
    requires n < U32_MOD && candidate == Number(start, n)
    ensures forall d :: 0 <= d < n ==> Number(start, d) != candidate
  {
    forall d | 0 <= d < n
      ensures Number(start, d) != candidate
    {
      StepRoundTrip(start, d);
      StepRoundTrip(start, n);
    }
  }
}
