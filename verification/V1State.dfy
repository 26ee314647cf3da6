/** A V1 room as a value, and what each operation makes of it: at most two clients, each with the messages it
    has sent, those already handed on, and those still queued for its peer. */
module V1State {
  import opened Wrappers

  type Instant = nat
  type ClientId = string
  type RoomId = string

  const MAX_QUEUED_MSG_COUNT := 1024
  const MAX_ROOM_CAPACITY := 2
  const LOOPBACK_CLIENT_ID := "LOOPBACK_CLIENT_ID"

  datatype Message = Message(room: RoomId, client: ClientId, msg: string)

  /** A client: `msgs` is its queue, `writes` all that was ever written to its socket, `sent` all it sent since it
      came, and `handed` what of that was handed on. */
  datatype Peer = Peer(registered: bool, timeout: Option<Instant>, isInitiator: bool,
                       msgs: seq<string>, writes: seq<Message>, sent: seq<string>, handed: seq<string>)

  type Peers = map<ClientId, Peer>

  /** The messages, addressed to one client. */
  ghost function Addressed(room: RoomId, client: ClientId, msgs: seq<string>): seq<Message> {
    seq(|msgs|, i requires 0 <= i < |msgs| => Message(room, client, msgs[i]))
  }

  ghost function New(deadline: Instant): Peer {
    Peer(false, Some(deadline), false, [], [], [], [])
  }

  ghost predicate Due(peer: Peer, now: Instant) {
    !peer.registered && peer.timeout.Some? && peer.timeout.value <= now
  }

  // ---- the invariant ----

  /** Not both are initiators, and nothing waits for a peer that is there. */
  ghost predicate Agree(one: Peer, other: Peer) {
    && !(one.isInitiator && other.isInitiator)
    && (one.registered ==> other.msgs == [])
  }

  ghost predicate Agreeing(p: Peers) {
    forall j, k :: j in p && k in p && j != k ==> Agree(p[j], p[k])
  }

  /** Registered exactly when not on a deadline, and first in, first out. */
  ghost predicate SoundPeer(peer: Peer) {
    && (peer.registered <==> peer.timeout.None?)
    && peer.sent == peer.handed + peer.msgs
  }

  ghost predicate Sound(p: Peers) {
    && |p| <= MAX_ROOM_CAPACITY
    && Agreeing(p)
    && forall k :: k in p ==> SoundPeer(p[k])
  }

  /** Whoever stays has only added to what it sent and to what was handed on. */
  ghost predicate Extends(p: Peers, q: Peers) {
    forall k :: k in p && k in q ==> Grows(p[k], q[k])
  }

  ghost predicate Grows(before: Peer, after: Peer) {
    before.sent <= after.sent && before.handed <= after.handed
  }

  // ---- the operations ----

  /** All that the clients other than `k` have queued; in a room of two, that is its peer's queue. */
  ghost function Waiting(p: Peers, k: ClientId): seq<string> {
    if j :| j in p && j != k then p[j].msgs else []
  }

  /** Some other client is there, and registered. */
  ghost predicate Reachable(p: Peers, k: ClientId) {
    exists j :: j in p && j != k && p[j].registered
  }

  ghost predicate Fits(p: Peers, k: ClientId) {
    k in p || |p| < MAX_ROOM_CAPACITY
  }

  ghost function Ensured(p: Peers, k: ClientId, deadline: Instant): Peers {
    if k !in p && Fits(p, k) then p[k := New(deadline)] else p
  }

  /** A client whose queue has been handed on. */
  ghost function Flushed(peer: Peer): Peer {
    peer.(msgs := [], handed := peer.handed + peer.msgs)
  }

  ghost predicate Registers(p: Peers, k: ClientId) {
    Fits(p, k) && (k in p ==> !p[k].registered)
  }

  /** The socket of `k` receives whatever its peer has queued. */
  ghost function Handed(p: Peers, room: RoomId, k: ClientId): Peers
    requires k in p
  {
    map j | j in p ::
      if j != k then Flushed(p[j]) else p[k].(writes := p[k].writes + Addressed(room, k, Waiting(p, k)))
  }

  ghost function Registered(p: Peers, room: RoomId, k: ClientId, deadline: Instant): Peers {
    if !Registers(p, k) then p else
      var q := Ensured(p, k, deadline);
      Handed(q[k := q[k].(registered := true, timeout := None)], room, k)
  }

  /** A client that has sent a message, directly or into its queue. */
  ghost function Spoke(peer: Peer, directly: bool, msg: string): Peer {
    if directly then peer.(sent := peer.sent + [msg], handed := peer.handed + [msg])
    else peer.(sent := peer.sent + [msg], msgs := peer.msgs + [msg])
  }

  ghost predicate Sends(p: Peers, k: ClientId) {
    Fits(p, k) && (k !in p || Reachable(p, k) || |p[k].msgs| < MAX_QUEUED_MSG_COUNT)
  }

  /** The message of a client that is there, handed to its peer or queued for it. */
  ghost function Relayed(p: Peers, room: RoomId, k: ClientId, msg: string): Peers
    requires k in p
  {
    map j | j in p ::
      if j == k then Spoke(p[k], Reachable(p, k), msg)
      else if p[j].registered then p[j].(writes := p[j].writes + [Message(room, j, msg)])
      else p[j]
  }

  ghost function Sent(p: Peers, room: RoomId, k: ClientId, deadline: Instant, msg: string): Peers {
    var q := Ensured(p, k, deadline);
    if Sends(p, k) then Relayed(q, room, k, msg) else q
  }

  /** Without the clients in `gone`; if one of them was there, whoever stays becomes the initiator. */
  ghost function Without(p: Peers, gone: set<ClientId>): Peers {
    map j | j in p && j !in gone :: p[j].(isInitiator := p[j].isInitiator || p.Keys * gone != {})
  }

  ghost predicate Leaves(p: Peers, k: ClientId) {
    k in p && p[k].registered
  }

  ghost function Deregistered(p: Peers, k: ClientId, deadline: Instant): Peers {
    if Leaves(p, k) then p[k := p[k].(registered := false, timeout := Some(deadline))] else p
  }

  /** There, but with no socket. */
  ghost predicate Absent(p: Peers, k: ClientId) {
    k in p && !p[k].registered
  }

  ghost predicate Admits(p: Peers, k: ClientId) {
    k !in p && |p| < MAX_ROOM_CAPACITY
  }

  ghost function Drained(p: Peers): Peers {
    map j | j in p :: Flushed(p[j])
  }

  /** The loopback peer, added if there is room for it, and never the initiator. */
  ghost function LoopedBack(p: Peers, deadline: Instant): Peers {
    if Fits(p, LOOPBACK_CLIENT_ID) then
      var q := Ensured(p, LOOPBACK_CLIENT_ID, deadline);
      q[LOOPBACK_CLIENT_ID := q[LOOPBACK_CLIENT_ID].(isInitiator := false)]
    else p
  }

  ghost function Added(p: Peers, k: ClientId, deadline: Instant, isLoopback: bool): Peers {
    if !Admits(p, k) then p else
      var q := Drained(p)[k := New(deadline).(isInitiator := p == map[])];
      if isLoopback then LoopedBack(q, deadline) else q
  }

  ghost function DueClients(p: Peers, now: Instant): set<ClientId> {
    set k | k in p && Due(p[k], now)
  }

  ghost function Swept(p: Peers, now: Instant): Peers {
    Without(p, DueClients(p, now))
  }

  // ---- rooms of two ----

  lemma Sizes(p: Peers, k: ClientId, peer: Peer)
    ensures |p[k := peer]| == if k in p then |p| else |p| + 1
  {
    assert |p| == |p.Keys| && |p[k := peer]| == |p[k := peer].Keys|;
    assert p[k := peer].Keys == p.Keys + {k};
  }

  lemma SameKeys(p: Peers, q: Peers)
    ensures p.Keys == q.Keys ==> |p| == |q|
    ensures p.Keys <= q.Keys ==> |p| <= |q|
  {
    assert |p| == |p.Keys| && |q| == |q.Keys|;
    if p.Keys <= q.Keys { assert |q.Keys - p.Keys| == |q.Keys| - |p.Keys|; }
  }

  /** Two clients are all there is in a room. */
  lemma OnlyTwo(p: Peers, a: ClientId, b: ClientId)
    requires |p| <= MAX_ROOM_CAPACITY && a in p && b in p && a != b
    ensures p.Keys == {a, b}
  {
    assert |p| == |p.Keys|;
    assert |p.Keys - {a, b}| == |p.Keys| - 2;
    assert p.Keys - {a, b} == {};
  }

  lemma OnlyOne(p: Peers, a: ClientId)
    requires |p| < MAX_ROOM_CAPACITY && a in p
    ensures p.Keys == {a}
  {
    assert |p| == |p.Keys|;
    assert |p.Keys - {a}| == |p.Keys| - 1;
    assert p.Keys - {a} == {};
  }

  /** In a room of two, what waits for a client is what its one peer has queued. */
  lemma WaitingIs(p: Peers, k: ClientId, j: ClientId)
    requires |p| <= MAX_ROOM_CAPACITY && k in p && j in p && j != k
    ensures Waiting(p, k) == p[j].msgs
    ensures Reachable(p, k) == p[j].registered
  {
    OnlyTwo(p, k, j);
    var o :| o in p && o != k && Waiting(p, k) == p[o].msgs;
    assert o in {k, j};
    if Reachable(p, k) {
      var o :| o in p && o != k && p[o].registered;
      assert o in {k, j};
    }
  }

  /** Nobody else, nothing to hand on. */
  lemma HandedAlone(p: Peers, room: RoomId, k: ClientId)
    requires k in p && (|p| < MAX_ROOM_CAPACITY || forall j :: j in p ==> j == k)
    ensures Handed(p, room, k) == p
  {
    if |p| < MAX_ROOM_CAPACITY { OnlyOne(p, k); }
    assert Waiting(p, k) == [];
    assert p[k].writes + Addressed(room, k, []) == p[k].writes;
  }

  lemma HandedTwo(p: Peers, room: RoomId, k: ClientId, j: ClientId)
    requires |p| <= MAX_ROOM_CAPACITY && k in p && j in p && j != k
    ensures Handed(p, room, k) == p[j := Flushed(p[j])][k := p[k].(writes := p[k].writes + Addressed(room, k, p[j].msgs))]
  {
    WaitingIs(p, k, j);
    OnlyTwo(p, k, j);
  }

  /** Registering, one step after another. */
  lemma RegisteredIs(p: Peers, room: RoomId, k: ClientId, deadline: Instant)
    ensures Fits(p, k) == (k in Ensured(p, k, deadline))
    ensures Registers(p, k) == (Fits(p, k) && !Ensured(p, k, deadline)[k].registered)
    ensures var q := Ensured(p, k, deadline);
            Registered(p, room, k, deadline) ==
              if Registers(p, k) then Handed(q[k := q[k].(registered := true, timeout := None)], room, k) else q
    ensures |Ensured(p, k, deadline)| <= if |p| <= MAX_ROOM_CAPACITY then MAX_ROOM_CAPACITY else |p|
  {
    Sizes(p, k, New(deadline));
  }

  /** A client has sent its peer a message, or queued it for that. */
  ghost function Exchanged(p: Peers, room: RoomId, k: ClientId, j: ClientId, msg: string): Peers
    requires k in p && j in p
  {
    if p[j].registered then
      p[k := Spoke(p[k], true, msg)][j := p[j].(writes := p[j].writes + [Message(room, j, msg)])]
    else if |p[k].msgs| < MAX_QUEUED_MSG_COUNT then p[k := Spoke(p[k], false, msg)]
    else p
  }

  ghost predicate Speaks(p: Peers, k: ClientId)
    requires k in p
  {
    Reachable(p, k) || |p[k].msgs| < MAX_QUEUED_MSG_COUNT
  }

  /** Sending, one step after another. */
  lemma SentIs(p: Peers, room: RoomId, k: ClientId, deadline: Instant, msg: string)
    ensures var q := Ensured(p, k, deadline);
            && Fits(p, k) == (k in q) && Sends(p, k) == (k in q && Speaks(q, k))
            && Sent(p, room, k, deadline, msg) == (if Sends(p, k) then Relayed(q, room, k, msg) else q)
            && (|p| <= MAX_ROOM_CAPACITY ==> |q| <= MAX_ROOM_CAPACITY)
  {
    Sizes(p, k, New(deadline));
    if k in p {
      assert Ensured(p, k, deadline) == p;
    }
  }

  lemma RelayedAlone(p: Peers, room: RoomId, k: ClientId, msg: string)
    requires k in p && forall j :: j in p ==> j == k
    ensures Speaks(p, k) == (|p[k].msgs| < MAX_QUEUED_MSG_COUNT)
    ensures Relayed(p, room, k, msg) == p[k := Spoke(p[k], false, msg)]
  {
  }

  lemma RelayedPair(p: Peers, room: RoomId, k: ClientId, msg: string, j: ClientId)
    requires |p| <= MAX_ROOM_CAPACITY && k in p && j in p && j != k
    ensures Speaks(p, k) == (p[j].registered || |p[k].msgs| < MAX_QUEUED_MSG_COUNT)
    ensures Exchanged(p, room, k, j, msg) == if Speaks(p, k) then Relayed(p, room, k, msg) else p
  {
    WaitingIs(p, k, j);
    OnlyTwo(p, k, j);
  }

  ghost function Promoted(p: Peers): Peers {
    map j | j in p :: p[j].(isInitiator := true)
  }

  ghost function PartPromoted(p: Peers, todo: set<ClientId>): Peers {
    map j | j in p :: if j in todo then p[j] else p[j].(isInitiator := true)
  }

  lemma PartPromotedNext(p: Peers, todo: set<ClientId>, j: ClientId)
    requires j in todo && j in p
    ensures var q := PartPromoted(p, todo);
            j in q && q[j := q[j].(isInitiator := true)] == PartPromoted(p, todo - {j})
  {
  }

  lemma WithoutIs(p: Peers, k: ClientId)
    ensures Without(p, {k}) == if k in p then Promoted(p - {k}) else p
  {
    if k in p {
      assert k in p.Keys * {k};
    } else {
      assert p.Keys * {k} == {};
    }
  }

  /** A sweep, halfway: the deadlines that passed have been taken. */
  ghost function Ticked(p: Peers, now: Instant): Peers {
    map k | k in p :: TickedPeer(p[k], now)
  }

  ghost function TickedPeer(peer: Peer, now: Instant): Peer {
    if Due(peer, now) then peer.(timeout := None) else peer
  }

  ghost function PartTicked(p: Peers, todo: set<ClientId>, now: Instant): Peers {
    map k | k in p :: if k in todo then p[k] else TickedPeer(p[k], now)
  }

  lemma PartTickedNext(p: Peers, todo: set<ClientId>, j: ClientId, now: Instant)
    requires j in todo && j in p
    ensures PartTicked(p, todo, now)[j] == p[j]
    ensures PartTicked(p, todo, now)[j := TickedPeer(p[j], now)] == PartTicked(p, todo - {j}, now)
    ensures DueClients(p, now) - (todo - {j}) == DueClients(p, now) - todo + if Due(p[j], now) then {j} else {}
  {
  }

  lemma TickedSwept(p: Peers, now: Instant)
    ensures Without(Ticked(p, now), DueClients(p, now)) == Swept(p, now)
  {
    assert Ticked(p, now).Keys == p.Keys;
  }

  lemma WithoutNone(p: Peers)
    ensures Without(p, {}) == p
  {
    assert p.Keys * {} == {};
  }

  lemma EnsuredNew(p: Peers, k: ClientId, deadline: Instant)
    ensures Admits(p, k) ==> Ensured(p, k, deadline) == p[k := New(deadline)] && Fits(p, k)
  {
  }

  /** Joining, one step after another. */
  lemma AddedIs(p: Peers, k: ClientId, deadline: Instant, isLoopback: bool)
    ensures Admits(p, k) == (k !in p && |p| < MAX_ROOM_CAPACITY) && Admits(Drained(p), k) == Admits(p, k)
    ensures (p == map[]) == (|p| == 0)
    ensures !Admits(p, k) ==> Added(p, k, deadline, isLoopback) == p
    ensures var q := Drained(p)[k := New(deadline).(isInitiator := p == map[])];
            Admits(p, k) ==>
              && Added(p, k, deadline, isLoopback) == (if isLoopback then LoopedBack(q, deadline) else q)
              && |q| <= MAX_ROOM_CAPACITY
  {
    SameKeys(Drained(p), p);
    Sizes(Drained(p), k, New(deadline).(isInitiator := p == map[]));
  }

  // ---- every operation keeps the invariant ----

  /** A step that changes each client soundly, and leaves each pair agreeing, keeps the invariant. */
  lemma Keeps(p: Peers, q: Peers)
    requires |q| <= MAX_ROOM_CAPACITY
    requires forall k :: k in q ==> SoundPeer(q[k])
    requires forall j, k :: j in q && k in q && j != k ==> Agree(q[j], q[k])
    requires forall k :: k in p && k in q ==> Grows(p[k], q[k])
    ensures Sound(q) && Extends(p, q)
  {
  }

  lemma EnsuredKeeps(p: Peers, k: ClientId, deadline: Instant)
    requires Sound(p)
    ensures Sound(Ensured(p, k, deadline)) && Extends(p, Ensured(p, k, deadline))
  {
    Sizes(p, k, New(deadline));
  }

  /** What registering does to the two clients of a room. */
  lemma RegisteredAt(p: Peers, room: RoomId, k: ClientId, deadline: Instant)
    requires Registers(p, k)
    ensures var q, r := Ensured(p, k, deadline), Registered(p, room, k, deadline);
            && k in q && r.Keys == q.Keys && (forall j :: j in q && j != k ==> r[j] == Flushed(q[j]))
            && r[k] == q[k].(registered := true, timeout := None, writes := r[k].writes)
  {
    hide Addressed, Waiting;
  }

  lemma RegisteredKeeps(p: Peers, room: RoomId, k: ClientId, deadline: Instant)
    requires Sound(p)
    ensures Sound(Registered(p, room, k, deadline)) && Extends(p, Registered(p, room, k, deadline))
  {
    if Registers(p, k) {
      EnsuredKeeps(p, k, deadline);
      RegisteredAt(p, room, k, deadline);
      var q, r := Ensured(p, k, deadline), Registered(p, room, k, deadline);
      RegisteredPairs(p, q, r, k);
      SameKeys(r, q);
    }
  }

  lemma RegisteredPairs(p: Peers, q: Peers, r: Peers, k: ClientId)
    requires Sound(q) && Extends(p, q) && k in q && r.Keys == q.Keys && p.Keys <= q.Keys && |r| <= MAX_ROOM_CAPACITY
    requires forall j :: j in q && j != k ==> r[j] == Flushed(q[j])
    requires r[k] == q[k].(registered := true, timeout := None, writes := r[k].writes)
    ensures Sound(r) && Extends(p, r)
  {
    Keeps(p, r);
  }

  ghost predicate OnlyWritten(before: Peer, after: Peer) {
    after == before.(writes := after.writes)
  }

  /** What sending does to the sender and its peer. */
  lemma SentAt(p: Peers, room: RoomId, k: ClientId, deadline: Instant, msg: string)
    requires Sends(p, k)
    ensures var q, r := Ensured(p, k, deadline), Sent(p, room, k, deadline, msg);
            && k in q && r.Keys == q.Keys && (forall j :: j in q && j != k ==> OnlyWritten(q[j], r[j]))
            && r[k] == Spoke(q[k], Reachable(q, k), msg)
  {
    hide Reachable;
  }

  lemma SentKeeps(p: Peers, room: RoomId, k: ClientId, deadline: Instant, msg: string)
    requires Sound(p)
    ensures Sound(Sent(p, room, k, deadline, msg)) && Extends(p, Sent(p, room, k, deadline, msg))
  {
    EnsuredKeeps(p, k, deadline);
    if Sends(p, k) {
      var q, r := Ensured(p, k, deadline), Sent(p, room, k, deadline, msg);
      SentAt(p, room, k, deadline, msg);
      SameKeys(r, q);
      SentPairs(p, q, r, k, msg);
    }
  }

  lemma SentPairs(p: Peers, q: Peers, r: Peers, k: ClientId, msg: string)
    requires Sound(q) && Extends(p, q) && k in q && r.Keys == q.Keys && p.Keys <= q.Keys && |r| <= MAX_ROOM_CAPACITY
    requires forall j :: j in q && j != k ==> OnlyWritten(q[j], r[j])
    requires r[k] == Spoke(q[k], Reachable(q, k), msg)
    ensures Sound(r) && Extends(p, r)
  {
    SpokeKeeps(q[k], Reachable(q, k), msg);
    if k in p { assert Grows(p[k], r[k]); }
    forall j | j in q && j != k ensures SoundPeer(r[j]) && (j in p ==> Grows(p[j], r[j])) {
      assert SoundPeer(q[j]) && OnlyWritten(q[j], r[j]);
    }
    forall a, b | a in r && b in r && a != b ensures Agree(r[a], r[b]) {
      assert Agree(q[a], q[b]) && (a != k ==> OnlyWritten(q[a], r[a])) && (b != k ==> OnlyWritten(q[b], r[b]));
    }
    hide Spoke, OnlyWritten, Reachable, SoundPeer, Agree, Grows;
    Keeps(p, r);
  }

  lemma SpokeKeeps(peer: Peer, directly: bool, msg: string)
    requires SoundPeer(peer) && (directly ==> peer.msgs == [])
    ensures SoundPeer(Spoke(peer, directly, msg)) && Grows(peer, Spoke(peer, directly, msg))
  {
    if directly {
      assert peer.handed + [msg] + [] == peer.handed + [] + [msg];
    } else {
      assert peer.handed + peer.msgs + [msg] == peer.handed + (peer.msgs + [msg]);
    }
  }

  lemma WithoutKeeps(p: Peers, gone: set<ClientId>)
    requires Sound(p)
    ensures Sound(Without(p, gone)) && Extends(p, Without(p, gone))
  {
    var q := Without(p, gone);
    SameKeys(q, p);
    forall a, b | a in q && b in q && a != b ensures Agree(q[a], q[b]) {
      assert Agree(p[a], p[b]);
      SurvivorLeads(p, gone, a);
    }
    Keeps(p, q);
  }

  lemma DeregisteredKeeps(p: Peers, k: ClientId, deadline: Instant)
    requires Sound(p)
    ensures Sound(Deregistered(p, k, deadline)) && Extends(p, Deregistered(p, k, deadline))
  {
    var q := Deregistered(p, k, deadline);
    SameKeys(q, p);
    if !Leaves(p, k) { SelfExtends(p); return; }
    assert q.Keys == p.Keys && q[k] == p[k].(registered := false, timeout := Some(deadline));
    assert forall j :: j in p && j != k ==> q[j] == p[j];
    hide Deregistered;
    forall a, b | a in q && b in q && a != b ensures Agree(q[a], q[b]) { assert Agree(p[a], p[b]); }
    Keeps(p, q);
  }

  /** Somebody new comes, unregistered and with an empty queue, after everybody else's was handed on. */
  lemma DrainedKeeps(p: Peers, k: ClientId, peer: Peer)
    requires Sound(p) && Admits(p, k)
    requires SoundPeer(peer) && !peer.registered && peer.msgs == [] && (peer.isInitiator ==> p == map[])
    ensures Sound(Drained(p)[k := peer]) && Extends(p, Drained(p)[k := peer])
  {
    var q := Drained(p)[k := peer];
    SameKeys(Drained(p), p);
    Sizes(Drained(p), k, peer);
    forall j | j in q ensures SoundPeer(q[j]) && (j in p ==> Grows(p[j], q[j])) {
      if j in p { assert SoundPeer(p[j]) && j != k && q[j] == Flushed(p[j]); }
    }
    forall a, b | a in q && b in q && a != b ensures Agree(q[a], q[b]) {
      if a in p && b in p { assert Agree(p[a], p[b]); }
    }
    Keeps(p, q);
  }

  lemma LoopedBackKeeps(p: Peers, deadline: Instant)
    requires Sound(p)
    ensures Sound(LoopedBack(p, deadline)) && Extends(p, LoopedBack(p, deadline))
  {
    EnsuredKeeps(p, LOOPBACK_CLIENT_ID, deadline);
    var e, q := Ensured(p, LOOPBACK_CLIENT_ID, deadline), LoopedBack(p, deadline);
    SameKeys(q, e);
    forall a, b | a in q && b in q && a != b ensures Agree(q[a], q[b]) { assert Agree(e[a], e[b]); }
    Keeps(p, q);
  }

  lemma AddedKeeps(p: Peers, k: ClientId, deadline: Instant, isLoopback: bool)
    requires Sound(p)
    ensures Sound(Added(p, k, deadline, isLoopback)) && Extends(p, Added(p, k, deadline, isLoopback))
  {
    if Admits(p, k) {
      var q := Drained(p)[k := New(deadline).(isInitiator := p == map[])];
      DrainedKeeps(p, k, q[k]);
      LoopedBackKeeps(q, deadline);
    }
  }

  /** A sweep removes exactly the clients due, and leaves nobody due at that time. */
  lemma SweptIsExact(p: Peers, now: Instant)
    requires Sound(p)
    ensures Swept(p, now).Keys == p.Keys - DueClients(p, now)
    ensures forall k :: k in Swept(p, now) ==>
              Swept(p, now)[k].timeout.Some? ==> Swept(p, now)[k].timeout.value > now
    ensures DueClients(Swept(p, now), now) == {}
    ensures DueClients(p, now) == {} ==> Swept(p, now) == p
  {
  }

  /** Whoever stays when somebody leaves is the initiator. */
  lemma SurvivorLeads(p: Peers, gone: set<ClientId>, k: ClientId)
    requires Sound(p) && k in p && k !in gone
    ensures Without(p, gone).Keys == p.Keys - gone
    ensures p.Keys * gone != {} ==> Without(p, gone).Keys == {k} && Without(p, gone)[k].isInitiator
    ensures p.Keys * gone == {} ==> Without(p, gone) == p
  {
    if p.Keys * gone != {} {
      var j :| j in p && j in gone;
      OnlyTwo(p, j, k);
    } else {
      forall j | j in p ensures j !in gone { assert j in gone ==> j in p.Keys * gone; }
      assert Without(p, gone) == p;
    }
  }

  /** Removing clients one after another is removing them together. */
  lemma WithoutTwice(p: Peers, gone: set<ClientId>, k: ClientId)
    ensures Without(Without(p, gone), {k}) == Without(p, gone + {k})
  {
    var once, both := Without(p, gone), gone + {k};
    assert once.Keys == p.Keys - gone;
    assert (p.Keys * both != {}) == (p.Keys * gone != {} || once.Keys * {k} != {}) by {
      if j :| j in p.Keys * both { assert j in gone || j in once.Keys * {k}; }
      if j :| j in once.Keys * {k} { assert j in p.Keys * both; }
      if j :| j in p.Keys * gone { assert j in p.Keys * both; }
    }
  }

  // ---- what is handed on reaches the peer ----

  ghost function HandedOf(p: Peers, k: ClientId): seq<string> {
    if k in p then p[k].handed else []
  }

  ghost function WritesOf(p: Peers, k: ClientId): seq<Message> {
    if k in p then p[k].writes else []
  }

  /** Registering writes to the new socket exactly what the peer had queued, in order. */
  lemma RegisteringHandsOn(p: Peers, room: RoomId, k: ClientId, deadline: Instant, j: ClientId)
    requires Sound(p) && Registers(p, k) && j in p && j != k
    ensures var q := Registered(p, room, k, deadline);
            && k in q && j in q && q[k].registered && q[j].msgs == []
            && q[j].handed == p[j].sent && q[j].sent == p[j].sent
            && q[k].writes == WritesOf(p, k) + Addressed(room, k, p[j].msgs)
  {
    EnsuredKeeps(p, k, deadline);
    var q := Ensured(p, k, deadline);
    var r := q[k := q[k].(registered := true, timeout := None)];
    SameKeys(r, q);
    WaitingIs(r, k, j);
  }

  /** Sending to a registered peer writes exactly that message to it; otherwise it waits in the queue. */
  lemma SendingHandsOn(p: Peers, room: RoomId, k: ClientId, deadline: Instant, msg: string, j: ClientId)
    requires Sound(p) && Sends(p, k) && j in p && j != k
    ensures var q := Sent(p, room, k, deadline, msg);
            && k in q && j in q && q[k].sent == (if k in p then p[k].sent else []) + [msg]
            && q[j].msgs == p[j].msgs && q[j].handed == p[j].handed
            && (if p[j].registered then q[k].handed == q[k].sent && q[j].writes == p[j].writes + [Message(room, j, msg)]
                else q[k].handed == HandedOf(p, k) && q[j].writes == p[j].writes)
  {
    EnsuredKeeps(p, k, deadline);
    SentKeeps(p, room, k, deadline, msg);
    WaitingIs(Ensured(p, k, deadline), k, j);
    assert Reachable(Ensured(p, k, deadline), k) == p[j].registered;
  }

  /** The reply to a join is exactly what the one client there had queued. */
  lemma JoiningHandsOn(p: Peers, k: ClientId, deadline: Instant, isLoopback: bool, j: ClientId)
    requires Sound(p) && Admits(p, k) && j in p
    ensures var q := Added(p, k, deadline, isLoopback);
            j in q && q[j].msgs == [] && q[j].handed == p[j].handed + Waiting(p, k) && q[j].handed == q[j].sent == p[j].sent
    ensures p.Keys == {j} && Waiting(p, k) == p[j].msgs
  {
    OnlyOne(p, j);
    var o :| o in p && o != k && Waiting(p, k) == p[o].msgs;
    assert o == j;
  }

  // ---- every run ----

  datatype Step =
    | JoinStep(client: ClientId, isLoopback: bool)
    | RegisterStep(client: ClientId)
    | SendStep(client: ClientId, msg: string)
    | RemoveStep(client: ClientId)
    | ReapStep(client: ClientId)
    | DeregisterStep(client: ClientId)
    | SweepStep

  ghost function Stepped(p: Peers, room: RoomId, now: Instant, grace: nat, step: Step): Peers {
    match step
    case JoinStep(k, isLoopback) => Added(p, k, now + grace, isLoopback)
    case RegisterStep(k) => Registered(p, room, k, now + grace)
    case SendStep(k, msg) => Sent(p, room, k, now + grace, msg)
    case RemoveStep(k) => Without(p, {k})
    case ReapStep(k) => if Absent(p, k) then Without(p, {k}) else p
    case DeregisterStep(k) => Deregistered(p, k, now + grace)
    case SweepStep => Swept(p, now)
  }

  ghost function After(room: RoomId, grace: nat, run: seq<(Instant, Step)>): Peers {
    if run == [] then map[] else
      var last := run[|run| - 1];
      Stepped(After(room, grace, run[..|run| - 1]), room, last.0, grace, last.1)
  }

  lemma SelfExtends(p: Peers)
    ensures Extends(p, p)
  {
  }

  lemma StepKeeps(p: Peers, room: RoomId, now: Instant, grace: nat, step: Step)
    requires Sound(p)
    ensures Sound(Stepped(p, room, now, grace, step)) && Extends(p, Stepped(p, room, now, grace, step))
  {
    hide Added, Registered, Sent, Without, Deregistered, DueClients, Sound, Extends;
    match step
    case JoinStep(k, isLoopback) => AddedKeeps(p, k, now + grace, isLoopback);
    case RegisterStep(k) => RegisteredKeeps(p, room, k, now + grace);
    case SendStep(k, msg) => SentKeeps(p, room, k, now + grace, msg);
    case RemoveStep(k) => WithoutKeeps(p, {k});
    case ReapStep(k) => WithoutKeeps(p, {k}); SelfExtends(p);
    case DeregisterStep(k) => DeregisteredKeeps(p, k, now + grace);
    case SweepStep => WithoutKeeps(p, DueClients(p, now));
  }

  /** After every run: at most two clients, at most one initiator, registered exactly when not on a deadline,
      and for each client what was handed on followed by what is queued is what it sent. */
  lemma {:induction false} RunsAreSound(room: RoomId, grace: nat, run: seq<(Instant, Step)>)
    ensures Sound(After(room, grace, run))
  {
    if run != [] {
      var last := run[|run| - 1];
      RunsAreSound(room, grace, run[..|run| - 1]);
      StepKeeps(After(room, grace, run[..|run| - 1]), room, last.0, grace, last.1);
    }
  }

  // ---- a channel, end to end ----

  ghost function Payloads(messages: seq<Message>): seq<string> {
    seq(|messages|, i requires 0 <= i < |messages| => messages[i].msg)
  }

  /** What a step writes to the sockets of the clients other than `k`. */
  ghost function WrittenFor(p: Peers, q: Peers, k: ClientId): seq<string> {
    if j :| j in q && j != k then
      if WritesOf(p, j) <= q[j].writes then Payloads(q[j].writes[|WritesOf(p, j)|..]) else []
    else []
  }

  /** What a step hands on from `k`: its reply, for a join, or what it writes to the peer. */
  ghost function HandedBy(p: Peers, q: Peers, step: Step, k: ClientId): seq<string> {
    if step.JoinStep? then (if k in p && Admits(p, step.client) then Waiting(p, step.client) else [])
    else WrittenFor(p, q, k)
  }

  /** What a step accepts from `k`. */
  ghost function AcceptedBy(p: Peers, step: Step, k: ClientId): seq<string> {
    if step.SendStep? && step.client == k && Sends(p, k) then [step.msg] else []
  }

  ghost function SentOf(p: Peers, k: ClientId): seq<string> {
    if k in p then p[k].sent else []
  }

  lemma PayloadsAddressed(room: RoomId, k: ClientId, msgs: seq<string>)
    ensures Payloads(Addressed(room, k, msgs)) == msgs
  {
  }

  lemma WrittenForIs(p: Peers, q: Peers, k: ClientId, j: ClientId, more: seq<Message>)
    requires |q| <= MAX_ROOM_CAPACITY && k in q && j in q && j != k && q[j].writes == WritesOf(p, j) + more
    ensures WrittenFor(p, q, k) == Payloads(more)
  {
    OnlyTwo(q, j, k);
    assert (WritesOf(p, j) + more)[|WritesOf(p, j)|..] == more;
  }

  /** A step that changes nobody's writes hands nothing on. */
  lemma NothingWritten(p: Peers, q: Peers, k: ClientId)
    requires forall j :: j in q && j != k ==> q[j].writes == WritesOf(p, j)
    ensures WrittenFor(p, q, k) == []
  {
    if j :| j in q && j != k && WrittenFor(p, q, k) == Payloads(q[j].writes[|WritesOf(p, j)|..]) {
      assert q[j].writes[|WritesOf(p, j)|..] == [];
    }
  }

  /** What a client has sent grows by what a step accepts from it, and what was handed on by what the step hands on. */
  ghost predicate Tracks(p: Peers, q: Peers, accepted: seq<string>, passed: seq<string>, k: ClientId)
    requires k in q
  {
    q[k].sent == SentOf(p, k) + accepted && q[k].handed == HandedOf(p, k) + passed
  }

  lemma RegisterTracksSelf(p: Peers, room: RoomId, k: ClientId, deadline: Instant)
    requires Registers(p, k)
    ensures var q := Registered(p, room, k, deadline); k in q && Tracks(p, q, [], WrittenFor(p, q, k), k)
  {
    RegisteredAt(p, room, k, deadline);
    var q := Registered(p, room, k, deadline);
    assert forall j :: j in q && j != k ==> q[j].writes == WritesOf(p, j);
    assert q[k].sent == SentOf(p, k) && q[k].handed == HandedOf(p, k);
    hide Registered, Registers, Ensured, WrittenFor;
    NothingWritten(p, q, k);
  }

  lemma RegisterTracksPeer(p: Peers, room: RoomId, c: ClientId, deadline: Instant, k: ClientId)
    requires Sound(p) && Registers(p, c) && k in p && k != c
    ensures var q := Registered(p, room, c, deadline); k in q && Tracks(p, q, [], WrittenFor(p, q, k), k)
  {
    hide Registered, Registers, Ensured, Waiting;
    var q := Registered(p, room, c, deadline);
    RegisteringHandsOn(p, room, c, deadline, k);
    RegisteredKeeps(p, room, c, deadline);
    assert p[k].sent == p[k].handed + p[k].msgs;
    WrittenForIs(p, q, k, c, Addressed(room, c, p[k].msgs));
    PayloadsAddressed(room, c, p[k].msgs);
  }

  lemma RegisterTracks(p: Peers, room: RoomId, c: ClientId, deadline: Instant, k: ClientId)
    requires Sound(p) && k in Registered(p, room, c, deadline)
    ensures var q := Registered(p, room, c, deadline); Tracks(p, q, [], WrittenFor(p, q, k), k)
  {
    if !Registers(p, c) {
      NothingWritten(p, p, k);
    } else if k == c {
      RegisterTracksSelf(p, room, k, deadline);
    } else {
      assert k in p;
      RegisterTracksPeer(p, room, c, deadline, k);
    }
  }

  lemma SendTracksSelf(p: Peers, room: RoomId, k: ClientId, deadline: Instant, msg: string)
    requires Sound(p) && Sends(p, k)
    ensures var q := Sent(p, room, k, deadline, msg); k in q && Tracks(p, q, [msg], WrittenFor(p, q, k), k)
  {
    var q := Sent(p, room, k, deadline, msg);
    if j :| j in p && j != k {
      SentPeerWrites(p, room, k, deadline, msg, j);
    } else {
      SpokeAlone(p, room, k, deadline, msg);
      NothingWritten(p, q, k);
    }
  }

  lemma SpokeAlone(p: Peers, room: RoomId, k: ClientId, deadline: Instant, msg: string)
    requires Sends(p, k) && forall j :: j in p ==> j == k
    ensures var q := Sent(p, room, k, deadline, msg);
            k in q && q[k].sent == SentOf(p, k) + [msg] && q[k].handed == HandedOf(p, k)
  {
  }

  lemma SentPeerWrites(p: Peers, room: RoomId, k: ClientId, deadline: Instant, msg: string, j: ClientId)
    requires Sound(p) && Sends(p, k) && j in p && j != k
    ensures var q := Sent(p, room, k, deadline, msg); k in q && Tracks(p, q, [msg], WrittenFor(p, q, k), k)
  {
    hide Sent, Sends, Ensured;
    var q := Sent(p, room, k, deadline, msg);
    SendingHandsOn(p, room, k, deadline, msg, j);
    SentKeeps(p, room, k, deadline, msg);
    var more := if p[j].registered then [Message(room, j, msg)] else [];
    assert p[j].registered ==> k !in p || Agree(p[j], p[k]);
    assert k in p ==> SoundPeer(p[k]);
    WrittenForIs(p, q, k, j, more);
    assert Payloads(more) == if p[j].registered then [msg] else [];
    if p[j].registered && k in p {
      assert p[k].msgs == [];
      assert p[k].sent == p[k].handed;
    }
  }

  lemma SendTracks(p: Peers, room: RoomId, c: ClientId, deadline: Instant, msg: string, k: ClientId)
    requires Sound(p) && k in Sent(p, room, c, deadline, msg)
    ensures var q := Sent(p, room, c, deadline, msg);
            Tracks(p, q, AcceptedBy(p, SendStep(c, msg), k), WrittenFor(p, q, k), k)
  {
    var q := Sent(p, room, c, deadline, msg);
    if Sends(p, c) && k == c {
      SendTracksSelf(p, room, c, deadline, msg);
    } else if Sends(p, c) {
      SentKeeps(p, room, c, deadline, msg);
      SentAt(p, room, c, deadline, msg);
      OnlyTwo(q, c, k);
      SentElsewhere(p, room, c, deadline, msg);
      NothingWritten(p, q, k);
    } else {
      NothingWritten(p, q, k);
    }
  }

  /** Sending writes nothing to the sender. */
  lemma SentElsewhere(p: Peers, room: RoomId, k: ClientId, deadline: Instant, msg: string)
    requires Sends(p, k)
    ensures k in Sent(p, room, k, deadline, msg) && Sent(p, room, k, deadline, msg)[k].writes == WritesOf(p, k)
  {
  }

  lemma StepTracks(p: Peers, room: RoomId, now: Instant, grace: nat, step: Step, k: ClientId)
    requires Sound(p) && k in Stepped(p, room, now, grace, step)
    ensures var q := Stepped(p, room, now, grace, step);
            Tracks(p, q, AcceptedBy(p, step, k), HandedBy(p, q, step, k), k)
  {
    hide Sound, WrittenFor, Registered, Sent;
    var q := Stepped(p, room, now, grace, step);
    match step
    case JoinStep(c, isLoopback) =>
      if Admits(p, c) && k in p { JoiningHandsOn(p, c, now + grace, isLoopback, k); }
    case RegisterStep(c) => RegisterTracks(p, room, c, now + grace, k);
    case SendStep(c, msg) => SendTracks(p, room, c, now + grace, msg, k);
    case RemoveStep(c) => NothingWritten(p, q, k);
    case ReapStep(c) => NothingWritten(p, q, k);
    case DeregisterStep(c) => NothingWritten(p, q, k);
    case SweepStep => NothingWritten(p, q, k);
  }

  ghost function Before(room: RoomId, grace: nat, run: seq<(Instant, Step)>): Peers
    requires run != []
  {
    After(room, grace, run[..|run| - 1])
  }

  /** What a client now there has sent and had accepted since it came. */
  ghost function Accepted(room: RoomId, grace: nat, run: seq<(Instant, Step)>, k: ClientId): seq<string> {
    if run == [] || k !in After(room, grace, run) then [] else
      Accepted(room, grace, run[..|run| - 1], k)
      + AcceptedBy(Before(room, grace, run), run[|run| - 1].1, k)
  }

  /** What was written to its peers' sockets, or replied to their joins, on its behalf since it came. */
  ghost function HandedOn(room: RoomId, grace: nat, run: seq<(Instant, Step)>, k: ClientId): seq<string> {
    if run == [] || k !in After(room, grace, run) then [] else
      HandedOn(room, grace, run[..|run| - 1], k)
      + HandedBy(Before(room, grace, run), After(room, grace, run), run[|run| - 1].1, k)
  }

  lemma {:induction false} RunTracks(room: RoomId, grace: nat, run: seq<(Instant, Step)>, k: ClientId)
    ensures SentOf(After(room, grace, run), k) == Accepted(room, grace, run, k)
    ensures HandedOf(After(room, grace, run), k) == HandedOn(room, grace, run, k)
  {
    if run != [] {
      var last := run[|run| - 1];
      RunTracks(room, grace, run[..|run| - 1], k);
      RunsAreSound(room, grace, run[..|run| - 1]);
      if k in After(room, grace, run) {
        StepTracks(Before(room, grace, run), room, last.0, grace, last.1, k);
      }
    }
  }

  /** After every run, what reached the peers of a client and then what it has queued is exactly what it sent:
      nothing is lost, repeated or overtaken; and nothing is queued for a peer that is registered. */
  lemma ChannelIsFifo(room: RoomId, grace: nat, run: seq<(Instant, Step)>, k: ClientId)
    requires k in After(room, grace, run)
    ensures var p := After(room, grace, run);
            && HandedOn(room, grace, run, k) + p[k].msgs == Accepted(room, grace, run, k)
            && (Reachable(p, k) ==> p[k].msgs == [])
  {
    RunTracks(room, grace, run, k);
    RunsAreSound(room, grace, run);
    var p := After(room, grace, run);
    if Reachable(p, k) {
      var j :| j in p && j != k && p[j].registered;
      assert Agree(p[j], p[k]);
    }
  }
}
