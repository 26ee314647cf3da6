# Verified model of the signaling authority

A Dafny model of the signaling server's state machines, with proofs. It follows the program's own structure:

- **The V2 authority** (`src/v2.rs`). `V2State` has its state as values and `V2Steps` one function per operation,
  with the source's branches, error strings and constants. `V2Table` has the class `RoomTable`, whose methods change
  its maps and its action queue in place, with the source's loops (`V2Loops`), each proved to make of the table what
  the function of `V2Steps` says. The other `V2*` files prove what those steps keep. `V2Moves` and `V2RoomSteps`
  reduce each step to moves of a machine for one room; `V2Slots*` relate a room to the commands in flight for it, its
  worker and the acknowledgements so far; `V2Ledger`, `V2Tickets`, `V2Fresh`, `V2Channel`, `V2Sessions`, `V2Timers`,
  `V2Rollback`, `V2Reconnect` and `V2Presence` take one concern each; `V2Runs`, `V2Histories` and `V2Charges` state the
  results over whole runs from the empty table. `V2RoomViews` shows every step from one room; on it rest `V2Limits`, on
  the dwell, `V2Failures`, on failed rooms, `V2Strays`, on what else a run can leave behind, and `V2Departures`, on how
  connected members go. `V2Answers` says how long commands are in flight. `V2Examples` has concrete runs.
- **The Collider's V2 side** (`src/collider.rs`): `Sockets` (sessions, connections, outputs and responses as values),
  `Layers` (the inputs, and what is made of each), `ColliderSteps` and the class `Colliders.Collider` on top of
  `RoomTable`, whose methods are proved to handle each input as `Layers.Handles` says. `Bindings` proves what runs of
  the layer keep.
- **The room-token codec** (`src/v2.rs`): `RoomToken`, after sections 3.5 and 5 of RFC 4648 and sections 4.1, 4.2 and
  5.8 of RFC 9562.
- **The V1 rooms** (`src/client.rs`, `src/room.rs`, `src/room_table.rs`): `V1State` (values), the classes
  `V1Client.Client` and `V1Room.Room`, and `V1Table`.

## How to read it

A run is any sequence of steps in any order: admissions, registrations, frames, removals, disconnects, worker
registrations, results, events and disconnects, timeouts and polls, over any number of rooms and workers. A worker is
an arbitrary environment. Iteration over a hash map is an arbitrary order, passed to the step functions as a listing
and chosen by the class methods; `Proper` says that each listing lists what it should. Instants and durations are
naturals. Client lists that the source collects in hash-map order and only reports are sets.

Two assumptions on the environment are guards on steps, and results that need one say so: **E1** (`ReachesFailRoom`):
no step reaches `fail_room`, that is, no worker reports a Failure that names a room and no SyncRoom is rejected.
**E2** (`LeavesJoiner`): no Leave goes out for the client whose own Join is still in flight. Results without a tag hold
of all runs.

`issued`, in the state of the authority, and `sent`, `handed`, `polled`, `asked`, `answered`, `taken`, `acks` and
`tame`, in the classes, are histories: no operation reads them. `polled` and `sent` count from when a client came.

## Findings

Where the code and the repository's documentation (`README.md`, lines 108-124) part, the code was modelled.

- *The dwell.* A room that sits at no more than two members for the dwell is said to become P2P again. It does so
  exactly if its dwell was running when it began to sit there (`V2Limits.DwellDecides`). `V2Limits.LapsesExactly` lists
  the steps that leave a small room without one: the dwell is armed only when a Leave succeeds, so a Join that ends,
  accepted or rejected, in a room that is then small leaves it relayed at least until a later Leave succeeds
  (`V2Limits.RelayedUntilLeave`).
- *Replays.* Unacknowledged commands are said to be replayed after a `SyncRoom`. `V2Reconnect.ReplayedExactly` shows
  that this leaves out the cleanup Leaves of a room that is no longer assigned, unless it is assigned to that worker
  again (`V2Reconnect.ReassignedReplays`). And a command acknowledged between the registration and the RoomSynced is
  sent again (`V2Answers.ResentUnacknowledged`).
- *Departures.* The survivor of a two-to-one transition is said to be promoted either way, by the end of a grace and by
  a worker's Leave. Only transitions of a P2P room promote (`V2Timers.RemovalPromotes`, `V2Timers.TimeoutPromotes`); a
  Leave that leaves one member in an SFU room promotes nobody. A member whose Leave fails is on no deadline and is not
  asked to leave again (`V2Strays.StrandsExactly`, `V2Strays.StuckExactly`).
- *Tokens.* A registration needs the token of its member. The socket is not closed, though, when the member goes by a
  Leave that its own earlier disconnect has sent, or is turned away after it has connected. `Bindings.SocketsBound` shows
  that a socket speaks for the member whose token it has shown exactly until then.
- *Failed rooms.* The documentation has frames of a retired epoch dropped, and they are
  (`V2Histories.FramesKeepToTheirMode`). It does not speak of the epoch of a room that fails, which is not retired: a
  frame meant for the worker goes to a connected browser, or stays queued for good (`V2Failures.FailureRelays`,
  `V2Failures.QueuedForGood`).
- *Smaller ones.* A room can stay in the table without members (`V2Strays.VacatesExactly`, `V2Strays.DesertedExactly`),
  a failed one for good (`V2Strays.DeadForGood`), and a signal can be acknowledged though it was never relayed
  (`V2Strays.RefusedIsLost`).

`V2Examples` has runs from the empty table into the states in which code and documentation part.

## Model

| member | source | states |
|---|---|---|
| V2Runs.SfuMembersAcknowledged | src/v2.rs:1120-1191 | Upgrade barrier: after every run, in every SFU room, each member but the one still joining has been acknowledged by the assigned worker, which is registered, under its present lifecycle id and the room's assignment epoch (E1, E2) |
| V2Runs.BarrierInOrder | src/v2.rs:986-1017 | While a room is upgrading, the ordered clients are a permutation of the members, the original ones ascending and the joiner last; the joined clients are the prefix before the current place and exactly those acknowledged; exactly one UpgradeJoin is in flight, for the client at that place: so the acknowledgement that nothing compares with the awaited client is always its own (E1) |
| V2Runs.AssignedRooms | src/v2.rs:1720-1724 | For every worker, the rooms it is charged with are exactly the Upgrading or SFU rooms assigned to it (E1) |
| V2Runs.AssignedClients | src/v2.rs:1036-1039 | For every worker, the clients it is charged with are the sum over those rooms of the members, less one for each Join in flight in an SFU room (E1, E2) |
| V2Charges.ChargesCovered | src/v2.rs:1204-1207 | After every run, what a step may give back for a room is charged to its worker, so no saturating subtraction clamps: at least 3 while the room upgrades, 1 while a Leave is in flight, and the members when a downgrade is possible (E1, E2) |
| V2Charges.SweepCovered | src/v2.rs:1279-1337 | The same in the middle of a timeout: after the expiries and any number of the rooms swept, however many of them have just been released by the same worker (E1, E2) |
| V2Charges.ExpiryCovered | src/v2.rs:1668-1687 | The same in the middle of the expiries: when the next room of the worker is upgrading, the worker is still charged with the 3 that its abort gives back, whatever earlier aborts have given back (E1, E2) |
| V2Runs.TicketsConserved | src/v2.rs:1034-1113 | Conservation over every run: for each request id, the times it was left pending equal the completions handed out plus the places that hold it now, a room or the action queue (E1, E2) |
| V2Runs.AnsweredOnce | src/v2.rs:1186-1241 | A request left pending once is completed at most once, and has been completed exactly when nothing holds it any more (E1, E2) |
| V2Runs.ResultsSucceed | src/v2.rs:931-1113 | The error returns after a ticket has been taken out of a room are unreachable: the result of a connected worker is always handled without error (E1, E2) |
| V2Histories.EpochParity | src/v2.rs:1159-1160 | After every run the signal epoch of a room is even in P2P and Upgrading and odd in SFU |
| V2Histories.EpochGrows | src/v2.rs:1281-1282 | Between any two states of one lifetime of a room its signal epoch does not decrease |
| V2Histories.FramesKeepToTheirMode | src/v2.rs:633-635 | A frame stamped with the epoch of a room in one mode is dropped, with no change, in every state of the run in which the room is in the other mode |
| V2Histories.Roles | src/v2.rs:1762-1769 | Every P2P room has one or two members and exactly one initiator; an SFU room has none; a room with a downgrade deadline has at most two members and no Join in flight (E1) |
| V2Histories.DowngradeElects | src/v2.rs:1279-1295 | A downgrade keeps the members and makes the one with the least id, and only it, the initiator |
| V2Histories.LifecyclesIncrease | src/v2.rs:1374-1378 | Of two Joins ever issued for one member of one room, in any run, the later carries the greater lifecycle id, across aborts, downgrades, removals and the room's deletion and re-creation |
| V2Histories.IssuedForever | src/v2.rs:1386-1419 | Every command once in flight stays in the history of issued commands, unchanged, so the statement about lifecycle ids is about all of them |
| V2Histories.CommandMapsAgree | src/v2.rs:1411-1418 | After every run the three command maps have the same keys, each stored command carries its own key as request id, and matches what is noted about it |
| V2Histories.ChannelIsFifo | src/v2.rs:665-684 | FIFO: while a room stays direct and a pair stays in it, through any upgrades given up, the queue a member began with and all its accepted sends equal what was handed on to its peer followed by its present queue: no loss, repetition or overtaking (E1) |
| V2Histories.ConnectedPeerHasNothingQueued | src/v2.rs:454-461 | In a P2P room, if one member is registered then the other has nothing queued (E1) |
| V2Histories.WindowSlides | src/v2.rs:864-877 | After every run the window of seen events of a worker is the last 4096 fresh event ids it delivered, without repetition, and the set of seen ids is its elements |
| V2Histories.RedeliveryOnlyAcks | src/v2.rs:864-870 | An event is treated as a repetition exactly when its id is in that window, and then one acknowledgement is pushed and nothing else changes |
| V2Histories.TimeoutIdle | src/v2.rs:1625-1653 | After every tame run, a timeout leaves the whole table unchanged and promotes nobody if the earliest polled deadline is absent or later; with a nonzero grace, only if (E1) |
| V2Histories.ResultRollsBack | src/v2.rs:1193-1243 | A result of a barrier Join that does not acknowledge it, from whatever connected worker and at any point of an upgrade, leaves the room P2P and unassigned, with exactly the two original members, their tokens, roles and queues, and the signal epoch, from before the upgrade (E1) |
| V2Histories.ExpiryRollsBack | src/v2.rs:1674-1681 | If the worker of an upgrading room expires in a timeout, the sweep finds the room as it was before the upgrade, in the same sense; if it does not, the sweep finds the room as it was before the timeout (E1) |
| V2Histories.AbortTellsWorker | src/v2.rs:1209-1241 | The step of a bad join result sends the room's worker, if it is connected, one Leave for exactly each Join it acknowledged, in order, under the same lifecycle id and epoch, or if it is not, nothing, and then refuses the admission (E1) |
| V2Histories.ExpirySendsNothing | src/v2.rs:1668-1726 | The expiry of workers in a timeout sends no command to any worker (E1) |
| V2Histories.PlansComeFromRegistrations | src/v2.rs:779-850 | Every SyncRoom in flight was planned by an earlier registration of its worker, with commands that were then in flight to that worker for that room, and its plan has not changed since |
| V2Histories.ResentOnlyAfterItsSync | src/v2.rs:963-984 | If a step pushes a command that was issued before, it is the matching RoomSynced of a SyncRoom for the room of that command, planned by an earlier registration of the worker to which the command was then in flight and unacknowledged, and the plan has stood unchanged in between: nothing is sent again before its own room is synchronised |
| V2Timers.TimeoutLowers | src/v2.rs:1533-1623 | With a nonzero grace, a timeout at which some polled deadline is due lowers the number of due deadlines and of Leaves that a sweep could still begin, in any iteration order |
| V2Timers.DrivenBounded | src/v2.rs:1533-1653 | However the sweeps iterate, no more of them in a row meet something due than that number |
| V2Timers.Settles | src/v2.rs:1533-1653 | Calling the timeout while a polled deadline is due comes to an end, with nothing due |
| V2Timers.QuiescenceExact | src/v2.rs:1535-1621 | In any state of good shape with no empty P2P room and a nonzero grace, a sweep changes nothing exactly when nothing polled is due |
| V2Timers.RemovalPromotes | src/v2.rs:1484-1489 | The answer to a removal carries a promotion exactly when it takes a P2P room from two members to one registered survivor, whom it names with the epoch |
| V2Timers.TimeoutPromotes | src/v2.rs:1596-1620 | A sweep promotes at most once per room, and exactly when it takes the room from two members to one registered survivor |
| V2Timers.IdleNeverPromoted | src/v2.rs:1762-1773 | A room that a sweep leaves as it was is told of no departure |
| V2Reconnect.RegistrationPlans | src/v2.rs:779-850 | A worker that registers again gets, for each existing room assigned to it, one SyncRoom, whose replay is exactly its unacknowledged commands for the room other than SyncRooms, each once and unchanged |
| V2Reconnect.ReplayedExactly | src/v2.rs:799-830 | After a registration an unacknowledged command waits in some replay if and only if its room exists and is assigned to the worker: in particular the Leaves that clean up after an abort or a downgrade are not sent again unless the room is assigned to that worker once more |
| V2Reconnect.ReassignedReplays | src/v2.rs:799-830 | And if an admission assigns the room to that worker once more, they are: the next registration puts every command still in flight for the room into its replay |
| V2Answers.InFlightExactly | src/v2.rs:942-960 | A command in flight is in flight, unchanged, in a later state if and only if no step in between has ended that: a connected worker answers it, its worker expires, or it is a SyncRoom and its worker registers again |
| V2Answers.ResentUnacknowledged | src/v2.rs:963-984 | A command that a step sends again is still unacknowledged then if and only if no connected worker has answered it since the registration that planned its replay; one that has been answered is sent again all the same |
| V2Reconnect.SyncReplays | src/v2.rs:963-984 | The matching RoomSynced sends the whole replay, in order, and nothing else |
| V2Reconnect.NothingResent | src/v2.rs:963-984 | Every command a step pushes is new, or the step is the matching RoomSynced and the command is in its replay, for the same room, and not in flight to another worker |
| V2Rollback.JoinedExactly | src/v2.rs:1009-1017 | The clients the barrier counts as joined are exactly those whose Join, under the present ids, was acknowledged |
| V2RoomSteps.StepTrail | src/v2.rs:289-1726 | Every step moves every room along a trail of moves of a small room machine, in which the step can have made each move: the refinement the room results rest on |
| V2RoomSteps.StepKeepsRooms | src/v2.rs:289-1726 | So every step keeps every room in shape, and, unless it fails a room by force, its roles |
| V2SlotTimers.StepCore | src/v2.rs:289-1726 | Every step that meets E1 (and E2) keeps what is in flight for each room: at most one UpgradeJoin, Join or Leave, matching the room, its acknowledgements and its worker |
| V2Ledger.StepBooks | src/v2.rs:425-427 | Every tame step keeps each worker's charge equal to the load of its rooms |
| V2Tickets.StepTickets | src/v2.rs:428-430 | Every tame step changes what is outstanding for a request by exactly what it opens less what it hands out |
| V2Fresh.StepFresh | src/v2.rs:403-416 | Every step keeps all issued lifecycle ids below their counters, increasing, and those of a barrier still unused |
| V2Channel.StepChannel | src/v2.rs:454-461 | Every step moves a message from accepted to queued to handed on, at the ends of the queue only |
| V2Departures.DepartsExactly | src/v2.rs:1019-1113 | A connected member goes at a step if and only if a Leave in flight for it succeeds, it has connected while joining and its Join is rejected or given up with the worker, or its removal is complete at once; until then its token does not change, and it stays connected unless it disconnects (E1, E2) |
| V2Departures.RelayedDepartsExactly | src/v2.rs:1062-1090 | So a connected member of an SFU room that is not joining goes if and only if the Leave in flight for it succeeds (E1, E2) |
| V2Presence.StepOnline | src/v2.rs:432-453 | Only a registration of its own brings a member online |
| V2Limits.LapsesExactly | src/v2.rs:1019-1112 | The dwell is documented to run in every SFU room of at most two members that is otherwise idle. In every run, a room in which it does begins to break that promise at a step if and only if the step ends a Join of the room, accepted or not, or reports that a Leave of it failed while no downgrade deadline was set (run out, or never armed), and what is left is small and idle (E1) |
| V2Limits.DwellStands | src/v2.rs:1262-1277 | As long as a room sits small and idle its dwell deadline, or the lack of one, does not change (E1) |
| V2Limits.DwellDecides | src/v2.rs:1552-1564 | A room that has sat small and idle since some state becomes direct at a timeout if and only if the deadline it had in that state is over, never before and never without one, and is then exactly the downgraded room; if its worker expires it fails instead (E1) |
| V2Limits.RelayedUntilLeave | src/v2.rs:1262-1277 | A room with no dwell running does not become direct before a later Leave of it succeeds, whatever else happens: it stays relayed without a dwell, or fails (E1) |
| V2Failures.FailsExactly | src/v2.rs:1674-1705 | In every run a room fails at a step if and only if the step is a timeout that expires the worker relaying it (E1) |
| V2Failures.FailedIsFinal | src/v2.rs:289-1726 | For the rest of its life a failed room stays failed, under the same epoch, nobody new comes in, and what a member has queued stays queued (E1) |
| V2Failures.FailureRelays | src/v2.rs:625-684 | In every later state of a room that failed, a frame stamped while it was relayed is delivered to another browser if and only if the first other member in iteration order is connected, and then to that one; otherwise it goes to the end of its sender's queue, or is refused because the queue is full (E1) |
| V2Failures.QueuedForGood | src/v2.rs:454-461 | A frame queued in a failed room is queued still in every later state that has the room and its sender, and no registration hands it on or takes it out: it reaches nobody (E1) |
| V2Strays.VacatesExactly | src/v2.rs:1050-1059 | A room stays in the table without members after a step if and only if the step turns away the only client in it, whose Join is rejected or whose worker expires (E1) |
| V2Strays.DesertedExactly | src/v2.rs:1050-1059 | A relayed or failed room without members is one still after a step, if and only if the step does not admit somebody to it; an admission that is refused changes nothing (E1, E2) |
| V2Strays.DesertedStays | src/v2.rs:1050-1059 | So it stays in the table until an admission to it succeeds (E1, E2) |
| V2Strays.DeadForGood | src/v2.rs:338-343 | A failed room without members stays so in every later state, whatever is asked for, and in each of them answers every admission with WORKER_UNAVAILABLE and no change: its id is lost (E1) |
| V2Strays.StrandsExactly | src/v2.rs:1101-1112 | Departures are documented to be explicit. A member is left offline with neither a deadline nor a Leave in flight by a step if and only if the Leave in flight for it fails, or is given up because the worker expires (E1, E2) |
| V2Strays.StuckExactly | src/v2.rs:1565-1594 | Such a member is left so by a step if and only if the step is not a registration of it that succeeds, nor a removal of it that is accepted; a refused one, for a wrong token say, changes nothing (E1, E2) |
| V2Strays.StuckStays | src/v2.rs:1565-1594 | So it stays in its room, through every timeout, until one of these succeeds (E1, E2) |
| V2Strays.RefusedIsLost | src/v2.rs:864-929 | A fresh signal that cannot be relayed is refused without an acknowledgement; while fewer than 4096 fresh events of the worker have followed, its repetition is acknowledged and relayed to nobody |
| V2Examples.LapsedRun | src/v2.rs:1050-1058 | A run into the case of LapsesExactly: a third client is turned away while the dwell of two members runs, and they stay relayed without one |
| V2Examples.CleanupRun | src/v2.rs:799-830 | A run into the case of ReplayedExactly: it ends with the disconnect and the new registration of a worker that has a Leave to answer from before, and the same Leave is unanswered afterwards and in no replay |
| V2Examples.AnsweredRun | src/v2.rs:963-984 | A run into the case of ResentUnacknowledged: a Join is sent again though it has been answered |
| V2Examples.SlippedRun | src/v2.rs:1019-1049 | A run into the first case of DepartsExactly: a member is connected again while the Leave of its disconnect is in flight, the Leave succeeds, and nothing is announced |
| V2Examples.StrandedRun | src/v2.rs:1101-1112 | A run into the case of StrandsExactly: a member disconnects, and its Leave fails |
| V2Examples.DesertedRun | src/v2.rs:1050-1059 | A run into the case of VacatesExactly: the only member leaves while a newcomer is joining, who is then rejected |
| V2Examples.LostSignalRun | src/v2.rs:864-929 | A run into the case of RefusedIsLost |
| V2Examples.FailedRun | src/v2.rs:625-684 | A run into both cases of FailureRelays: in one failed room, the frame of member 1 goes to member 2 under one iteration order, and into a queue under another |
| V2Table.RoomTable.Admit | src/v2.rs:289-430 | The whole new table and result: creation, P2P admission, upgrade or SFU admission, and each refusal |
| V2Table.RoomTable.SelectWorker | src/v2.rs:1351-1372 | The worker chosen is the selectable one with the least (clients, rooms, id), or none if none is selectable |
| V2Table.RoomTable.Register | src/v2.rs:432-468 | The member registered, its deadline cleared, its peers' queues drained to it |
| V2Table.RoomTable.Deregister | src/v2.rs:530-566 | The member offline, with a Leave in flight or a deadline |
| V2Table.RoomTable.Send | src/v2.rs:625-685 | The frame dropped, queued, routed to the peer or signalled to the worker |
| V2Table.RoomTable.Remove | src/v2.rs:1421-1490 | The member removed at once, or its Leave in flight, or the refusal |
| V2Table.RoomTable.RegisterWorker | src/v2.rs:723-852 | The new session, the SyncRooms and their replays |
| V2Table.RoomTable.HandleWorkerEvent | src/v2.rs:854-929 | The event deduplicated, acted on and acknowledged |
| V2Table.RoomTable.HandleCommandResult | src/v2.rs:931-1118 | The result taken out of flight and acted on |
| V2Table.RoomTable.ExpireWorker | src/v2.rs:1668-1726 | The worker's rooms aborted or failed, their requests answered, its commands forgotten |
| V2Table.RoomTable.HandleTimeout | src/v2.rs:1533-1623 | Expired workers, then every room swept once, in the orders the maps were met |
| V2Table.RoomTable.PollTimeout | src/v2.rs:1625-1653 | The least deadline counted, or none |
| Colliders.AnsweredOrHeld | src/collider.rs:518-668 | End to end, as long as E1 and E2 were met: each request id asked equals the responses written with it plus the rooms that hold it |
| Colliders.Collider.HandleAuthority | src/collider.rs:518-619 | The whole new table, sockets and responses after one request (Layers.HandlesRequest): answered at once unless a worker is waited for |
| Colliders.Collider.Register | src/collider.rs:272-350 | The whole new state (Layers.HandlesRegister): a browser refused for the reason the source gives, or its socket standing for the member, told the state of the room first and then the queued messages in order |
| Colliders.Collider.Send | src/collider.rs:352-426 | The whole new state (Layers.HandlesSend): a frame refused, dropped or routed; one routed to a peer finds that peer's entry in the connection map |
| Colliders.Collider.Disconnect | src/collider.rs:428-452 | The whole new state (Layers.HandlesClose): the member goes offline if and only if the socket is the one that stands for it, so a stale disconnect changes no table |
| Colliders.Collider.HandleSfu | src/collider.rs:621-625 | The whole new state (Layers.HandlesReport): what the authority makes of a worker's message, then the actions drained; after an error, nothing drained |
| Colliders.Collider.HandleTimeout | src/collider.rs:809-818 | The whole new state (Layers.HandlesTick): promotions told first, then the actions drained |
| Colliders.Collider.DrainActions | src/collider.rs:627-767 | Every action carried out, once, in order |
| Bindings.SocketsBound | src/collider.rs:272-452 | Token binding, after every run of the layer: a socket registered as a member is the one that stands for it, and the member is connected, if and only if the member has not slipped away since, that is, gone without its socket being closed; and then the token the socket has shown is the member's own (E1, E2) |
| Bindings.FramesBound | src/collider.rs:378-426 | So a frame handed to the authority in a member's name comes from the one socket that stands for the member, which has shown the member's token, if and only if the member has not slipped away from the sender (E1, E2) |
| Bindings.StepSeats | src/v2.rs:289-1726 | A step other than a registration that succeeds connects nobody and changes no token; it leaves connected exactly those who neither go with their socket nor slip away from it (E1, E2) |
| Bindings.InputWires | src/collider.rs:627-767 | An input other than a registration that succeeds forgets exactly the sockets of the members that go with it, or the one that closes (E1, E2) |
| Sockets.AgreeInjective | src/collider.rs:299-301 | While the two maps agree, no socket stands for two members |
| Sockets.WrittenOnce | src/collider.rs:400-418 | What is written for a member goes to its one socket, whose session is that member's, or nowhere |
| Sockets.StandsForOne | src/collider.rs:440-447 | A socket is the one its session's member is reached by if and only if some entry leads to it |
| Sockets.DrainsKeeps | src/collider.rs:627-668 | Draining appends exactly the responses of the completions drained, in order, and takes no entry from a member whose removal is not reported |
| RoomToken.ParseFormat | src/v2.rs:43-68 | parse(format(id)) = id for every UUIDv8 |
| RoomToken.FormatParse | src/v2.rs:60-68 | parse(t) = id implies format(id) = t, and id is a UUIDv8 with the variant of RFC 9562 |
| RoomToken.TokensAreRooms | src/v2.rs:47-68 | The accepted tokens are exactly those of UUIDv8s, and no two of them name one room |
| RoomToken.Endings | src/v2.rs:51-56 | A valid token ends in A, Q, g or w; of the tokens that share its first 21 characters exactly those four are valid, for different rooms |
| RoomToken.TokenValue | src/v2.rs:42-45 | Read to the base 64, a token is the 128-bit number of its room followed by four zero bits |
| RoomToken.DecodeEncode | src/v2.rs:43-45 | Decoding undoes encoding, for byte sequences of every length |
| RoomToken.EncodeDecode | src/v2.rs:60-65 | Whatever decodes is the one canonical spelling |
| V1State.ChannelIsFifo | src/room.rs:66-108 | After every run of a V1 room: what was written to its peers' sockets and replied to their joins on behalf of a client, followed by its queue, is exactly what it sent; and nothing is queued for a registered peer |
| V1State.RunsAreSound | src/room.rs:19-278 | After every run: at most two clients, at most one initiator, a client registered exactly when it has no deadline, and first in, first out |
| V1State.StepTracks | src/room.rs:66-186 | Every step adds to what a client sent exactly what it accepts, and to what was handed on exactly what it writes or replies |
| V1State.SweptIsExact | src/room.rs:253-267 | A sweep removes exactly the clients due, and leaves no deadline up to now |
| V1State.SurvivorLeads | src/room.rs:111-118 | If somebody leaves, whoever stays is alone and the initiator; if nobody does, nothing changes |
| V1State.RegisteringHandsOn | src/room.rs:66-82 | Registering writes to the new socket exactly what the peer had queued, in order |
| V1State.JoiningHandsOn | src/room.rs:154-176 | The reply to a join is exactly what the one client there had queued |
| V1Client.Client.SendQueued | src/client.rs:128-140 | The whole queue is handed to a registered peer, in order, or nothing is |
| V1Client.Client.Send | src/client.rs:144-159 | The message is handed on or queued, or refused |
| V1Client.Client.PollWrite | src/client.rs:190-192 | Each message written leaves for the socket once, in the order written |
| V1Room.Room.Register | src/room.rs:66-82 | The room afterwards is sound and exactly the one V1State.Registered describes: a client created if there is room, its deadline gone, the peer's queue on its socket; refused exactly when full or already registered |
| V1Room.Room.Send | src/room.rs:85-108 | The room afterwards is sound and exactly the one V1State.Sent describes; refused exactly when the room is full or the queue is and no peer is registered |
| V1Room.Room.Remove | src/room.rs:111-118 | The room afterwards is sound: exactly that client gone, and whoever stays the initiator |
| V1Room.Room.Deregister | src/room.rs:121-130 | The room afterwards is sound: the client offline with a new deadline if it was registered, and nothing else changed |
| V1Room.Room.AddClient | src/room.rs:154-186 | The room afterwards is sound; the first to join is the initiator, the second is replied what the first had queued; refused exactly for a duplicate or a full room |
| V1Room.Room.HandleTimeout | src/room.rs:253-267 | The room afterwards is sound: exactly the clients due are gone, and whoever stays is the initiator if there were any, whatever order they are met in |
| V1Room.Room.PollTimeout | src/room.rs:270-278 | The least deadline of the clients, or none |
| V1Table.RoomsAreIndependent | src/room_table.rs:28-128 | After every run of the V1 table, every room is what it would be alone after the steps that were for it, though rooms were created and reaped in between; and no room is empty |
| V1Table.EveryChannelIsFifo | src/room_table.rs:49-105 | So every channel of every room of every run is FIFO |
| V1Table.SweepAllIsExact | src/room_table.rs:197-203 | A sweep removes exactly the clients due and the rooms they leave empty, and leaves no deadline up to now |

## Left out

- V1Table.RoomsAreIndependent: the V1 table is a value that steps replace, not an object that owns rooms; updates of the nested rooms in place are proved for one room, in `V1Room.Room`.
- V1Room.Room.PollTimeout: the table's minimum over its rooms is not a method of its own.
- V2Reconnect.RegistrationPlans: the source sorts the rooms it synchronises and lists the commands anew for each; here the rooms come in any order and one listing serves all of them, so the order of the SyncRooms and of the commands within a replay is not stated.
- V2Timers.TimeoutLowers: the measure is a sum of due deadlines and Leaves still to begin, in place of the pair the sweep could be said to lower lexicographically.
- V2Histories.ChannelIsFifo: states the channel between queue-clearing events; a departure, a downgrade or a commit ends it.
- V2Histories.TimeoutIdle: the converse needs a nonzero grace, since with none a sweep can set again the deadline it has just met; so does the termination of repeated timeouts.
- Bindings.FramesBound: does not follow the frames of a socket whose member has slipped away; as long as the socket is open they are handled in the name of whoever is in the room under that id, as `V2Steps.Send` says.
- Colliders.Collider.Connect: connection ids are fresh, as the driver promises.
- Colliders.Collider.Register: the client id comes already decoded from its decimal text.
- The V1 paths of the Collider, which route to the same V1 rooms, and its `Inject` and `Status` requests.
- JSON and gRPC text, frame shapes, error texts beyond the codes, logging and counters for status reports.
- Counters stay below their maximum: request ids, epochs and lifecycle ids do not saturate, and `Instant` arithmetic does not overflow.
- Minting of room ids, secrecy of tokens and the timing of their comparison, which is equality here.
- `close` and `clear`, which discard everything, and changing the dwell after construction.
- Reading and writing messages of V1 rooms by a driver beyond one client's queues.
- Worker internals and media.
