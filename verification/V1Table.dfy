/** All V1 rooms. Rooms appear when somebody joins, sends or registers, and disappear with their last client. */
module V1Table {
  import opened Wrappers
  import opened V1State

  type Rooms = map<RoomId, Peers>

  /** What can be asked of one room; sweeps go over all of them. */
  type RoomStep = step: Step | !step.SweepStep? witness RemoveStep("")

  datatype TableStep = InRoom(room: RoomId, step: RoomStep) | SweepAll

  ghost function PeersOf(t: Rooms, r: RoomId): Peers {
    if r in t then t[r] else map[]
  }

  /** Steps that create the room they are for. */
  ghost predicate Creates(step: RoomStep) {
    step.JoinStep? || step.RegisterStep? || step.SendStep?
  }

  /** A room, and whether this step reaps it: removals do, if they leave it empty. */
  ghost predicate Reaps(p: Peers, q: Peers, step: RoomStep) {
    q == map[] && (step.RemoveStep? || (step.ReapStep? && Absent(p, step.client)))
  }

  ghost function SweptAll(t: Rooms, now: Instant): Rooms {
    map r | r in t && Swept(t[r], now) != map[] :: Swept(t[r], now)
  }

  ghost function TableStepped(t: Rooms, now: Instant, grace: nat, step: TableStep): Rooms {
    match step
    case InRoom(r, s) =>
      if r !in t && !Creates(s) then t else
        var q := Stepped(PeersOf(t, r), r, now, grace, s);
        if Reaps(PeersOf(t, r), q, s) then t - {r} else t[r := q]
    case SweepAll => SweptAll(t, now)
  }

  ghost function TableAfter(grace: nat, run: seq<(Instant, TableStep)>): Rooms {
    if run == [] then map[] else
      var last := run[|run| - 1];
      TableStepped(TableAfter(grace, run[..|run| - 1]), last.0, grace, last.1)
  }

  /** What a step of the table is for one room: one step of that room, or none. */
  ghost function StepsOf(step: TableStep, r: RoomId, now: Instant): seq<(Instant, Step)> {
    match step
    case InRoom(s, roomStep) => if s == r then [(now, roomStep)] else []
    case SweepAll => [(now, SweepStep)]
  }

  ghost function RunOf(run: seq<(Instant, TableStep)>, r: RoomId): seq<(Instant, Step)> {
    if run == [] then [] else
      var last := run[|run| - 1];
      RunOf(run[..|run| - 1], r) + StepsOf(last.1, r, last.0)
  }

  /** No room is empty. */
  ghost predicate Inhabited(t: Rooms) {
    forall r :: r in t ==> t[r] != map[]
  }

  /** Whoever joins, registers or sends leaves the room occupied; nobody else enters it. */
  lemma Occupied(p: Peers, room: RoomId, now: Instant, grace: nat, step: RoomStep)
    ensures Creates(step) ==> Stepped(p, room, now, grace, step) != map[]
    ensures !Creates(step) && p == map[] ==> Stepped(p, room, now, grace, step) == map[]
    ensures p != map[] && Stepped(p, room, now, grace, step) == map[] ==> Reaps(p, map[], step)
  {
    if Creates(step) {
      if p == map[] {
        assert |p| == 0;
        var k := step.client;
        if step.JoinStep? {
          assert k in Drained(p)[k := New(now + grace).(isInitiator := true)];
        }
        assert k in Stepped(p, room, now, grace, step);
      } else {
        var j :| j in p;
        assert j in Drained(p);
        assert j in Stepped(p, room, now, grace, step);
      }
    } else if step.DeregisterStep? && p != map[] {
      var j :| j in p;
      assert j in Deregistered(p, step.client, now + grace);
    }
  }

  lemma InhabitedKept(t: Rooms, now: Instant, grace: nat, step: TableStep)
    requires Inhabited(t)
    ensures Inhabited(TableStepped(t, now, grace, step))
  {
    if step.InRoom? {
      Occupied(PeersOf(t, step.room), step.room, now, grace, step.step);
    }
  }

  /** A step of the table is, for each room, a step of that room alone. */
  lemma StepIsLocal(t: Rooms, now: Instant, grace: nat, step: TableStep, r: RoomId)
    requires Inhabited(t)
    ensures var steps := StepsOf(step, r, now);
            PeersOf(TableStepped(t, now, grace, step), r)
              == if steps == [] then PeersOf(t, r) else Stepped(PeersOf(t, r), r, now, grace, steps[0].1)
  {
    match step
    case InRoom(s, roomStep) =>
      Occupied(PeersOf(t, s), s, now, grace, roomStep);
    case SweepAll =>
      if r !in t { assert Swept(map[], now) == map[]; }
  }

  lemma AfterSnoc(room: RoomId, grace: nat, run: seq<(Instant, Step)>, last: (Instant, Step))
    ensures After(room, grace, run + [last]) == Stepped(After(room, grace, run), room, last.0, grace, last.1)
  {
    assert (run + [last])[..|run|] == run;
  }

  /** After every run of the table, every room is what it would be alone, after the steps that were for it: a room
      that was reaped and created again included; and no room is empty. */
  lemma {:induction false} RoomsAreIndependent(grace: nat, run: seq<(Instant, TableStep)>, r: RoomId)
    ensures PeersOf(TableAfter(grace, run), r) == After(r, grace, RunOf(run, r))
    ensures Inhabited(TableAfter(grace, run))
  {
    if run != [] {
      var last, before := run[|run| - 1], run[..|run| - 1];
      RoomsAreIndependent(grace, before, r);
      InhabitedKept(TableAfter(grace, before), last.0, grace, last.1);
      StepIsLocal(TableAfter(grace, before), last.0, grace, last.1, r);
      var steps := StepsOf(last.1, r, last.0);
      hide TableStepped, Stepped;
      if steps != [] {
        assert steps == [(last.0, steps[0].1)];
        AfterSnoc(r, grace, RunOf(before, r), steps[0]);
      } else {
        assert RunOf(before, r) + [] == RunOf(before, r);
      }
    }
  }

  /** So in every room of every run, the two clients' channels lose, repeat and reorder nothing. */
  lemma EveryChannelIsFifo(grace: nat, run: seq<(Instant, TableStep)>, r: RoomId, k: ClientId)
    requires r in TableAfter(grace, run) && k in TableAfter(grace, run)[r]
    ensures var p := TableAfter(grace, run)[r];
            && Sound(p)
            && HandedOn(r, grace, RunOf(run, r), k) + p[k].msgs == Accepted(r, grace, RunOf(run, r), k)
  {
    RoomsAreIndependent(grace, run, r);
    RunsAreSound(r, grace, RunOf(run, r));
    ChannelIsFifo(r, grace, RunOf(run, r), k);
  }

  /** A sweep removes exactly the clients due and the rooms they leave empty; no deadline up to `now` remains. */
  lemma SweepAllIsExact(t: Rooms, now: Instant, r: RoomId)
    requires forall s :: s in t ==> Sound(t[s])
    ensures PeersOf(SweptAll(t, now), r).Keys == PeersOf(t, r).Keys - DueClients(PeersOf(t, r), now)
    ensures r in SweptAll(t, now) <==> r in t && !(t[r].Keys <= DueClients(t[r], now))
    ensures forall k :: k in PeersOf(SweptAll(t, now), r) && PeersOf(SweptAll(t, now), r)[k].timeout.Some? ==>
              PeersOf(SweptAll(t, now), r)[k].timeout.value > now
  {
    if r in t {
      SweptIsExact(t[r], now);
      if t[r].Keys <= DueClients(t[r], now) {
        assert Swept(t[r], now).Keys == {};
      } else {
        var k :| k in t[r].Keys && k !in DueClients(t[r], now);
        assert k in Swept(t[r], now);
      }
    }
  }
}
