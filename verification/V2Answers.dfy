/** How long a command is in flight: exactly which steps end that, and so when a command that is sent again is still
    waiting for its answer. */
module V2Answers {
  import opened Collections
  import opened Sfu
  import opened V2State
  import opened V2Steps
  import opened V2RoomSteps
  import opened V2Commands
  import opened V2RoomViews
  import opened V2Runs
  import opened V2Reconnect
  import opened V2Histories

  /** A connected worker answers command `k`. */
  ghost predicate AnswersTo(t: Table, step: Step, k: RequestId) {
    Answers(t, step) && step.result.id == k
  }

  /** The step takes command `k` out of flight: a connected worker answers it; its worker expires; or it is a SyncRoom,
      and its worker registers again. */
  ghost predicate Settles(t: Table, step: Step, k: RequestId) {
    k in t.owners &&
    (|| AnswersTo(t, step, k)
     || (step.TimeoutStep? && t.owners[k] in step.schedule.workers)
     || (step.WorkerStep? && !InvalidRegistration(step.instance, step.request, step.capacity)
         && k in Superseded(t, step.instance)))
  }

  lemma KeptByAdded(t: Table, t': Table, k: RequestId)
    requires CommandsOk(t) && EmitsFresh(t, t') && t.owners.Keys <= t'.owners.Keys && k < t.nextRequest
    ensures k in t'.owners <==> k in t.owners
    ensures k in t.owners ==> t'.owners[k] == t.owners[k]
  {
    hide CommandsOk;
  }

  lemma OldId(t: Table, k: RequestId)
    requires CommandsOk(t) && k in t.owners
    ensures k < t.nextRequest
  {
    assert k in t.unacked && IsIssued(t, t.unacked[k]);
  }

  // ---- results ----

  lemma AnswerSettles(t: Table, step: Step, p: PendingCommand, k: RequestId)
    requires CommandsOk(t) && step.ResultStep? && k < t.nextRequest
    ensures k in Answered(t, step.instance, step.connection, p, step.result, step.now).owners <==> k in t.owners
  {
    hide CommandsOk, SyncResult, UpgradeJoinResult, SfuJoinResult, SfuLeaveResult, EmitsFresh, NoPlans;
    match p {
      case SyncPending(_, r, _, replay) => SyncAnswered(t, step, p);
      case UpgradeJoin(_, _) =>
        UpgradeJoinLog(t, step.instance, p, step.result);
        KeptByAdded(t, UpgradeJoinResult(t, step.instance, p, step.result).0, k);
      case SfuJoin(_, _) => SfuJoinQuiet(t, step.instance, p, step.result);
      case SfuLeave(_, _, _, _, _) => SfuLeaveQuiet(t, step.instance, p, step.result, step.now);
      case SignalPending =>
      case CleanupPending =>
    }
  }

  lemma SyncAnswered(t: Table, step: Step, p: PendingCommand)
    requires step.ResultStep? && p.SyncPending?
    ensures SyncResult(t, step.connection, step.instance, p, step.result).0.owners == t.owners
  {
    hide PushCommands, FailRoom;
    PushCommandsKeeps(t, step.connection, p.replay);
    FailRoomQuiet(t, p.room, "WORKER_UNAVAILABLE");
  }

  lemma ResultSettles(t: Table, step: Step, k: RequestId)
    requires CommandsOk(t) && step.ResultStep? && k in t.owners
    ensures k in Apply(t, step).owners <==> !AnswersTo(t, step, k)
  {
    OldId(t, k);
    if Answers(t, step) {
      AnswerIs(t, step);
      ForgetLog(t, {step.result.id});
      hide Apply, CommandsOk, Answered, EmitsFresh, NoPlans;
      AnswerSettles(Forget(t, {step.result.id}), step, t.pending[step.result.id], k);
    } else {
      UnansweredSame(t, step);
    }
  }

  lemma UnansweredSame(t: Table, step: Step)
    requires step.ResultStep? && !Answers(t, step)
    ensures Apply(t, step) == t
  {
  }

  // ---- expiry ----

  lemma ExpireSettles(t: Table, i: InstanceId, rooms: seq<RoomId>, k: RequestId)
    requires CommandsOk(t) && k < t.nextRequest
    ensures var t' := ExpireWorker(t, i, rooms);
            && (k in t'.owners <==> k in t.owners && t.owners[k] != i)
            && (k in t'.owners ==> t'.owners[k] == t.owners[k])
  {
    hide ExpireRooms, CommandsOk, EmitsFresh, NoPlans;
    ExpireRoomsLog(t, rooms);
    KeptByAdded(t, ExpireRooms(t, rooms), k);
  }

  lemma {:induction false} ExpiriesSettle(t: Table, workers: seq<InstanceId>, hosted: map<InstanceId, seq<RoomId>>,
                                          k: RequestId)
    requires CommandsOk(t) && k < t.nextRequest
    ensures k in ExpireWorkers(t, workers, hosted).owners <==> k in t.owners && t.owners[k] !in workers
    decreases |workers|
  {
    hide CommandsOk, EmitsFresh, NoPlans, ExpireWorker;
    if workers != [] {
      var i, rooms := workers[0], Listing(hosted, workers[0]);
      ExpireSettles(t, i, rooms, k);
      ExpireWorkerLog(t, i, rooms);
      EmitsLater(t, ExpireWorker(t, i, rooms));
      ExpiriesSettle(ExpireWorker(t, i, rooms), workers[1..], hosted, k);
    }
  }

  lemma EmitsLater(t: Table, t': Table)
    requires EmitsFresh(t, t')
    ensures t.nextRequest <= t'.nextRequest
  {
  }

  lemma TimeoutSettles(t: Table, step: Step, k: RequestId)
    requires CommandsOk(t) && step.TimeoutStep? && k in t.owners
    ensures k in Apply(t, step).owners <==> t.owners[k] !in step.schedule.workers
  {
    hide CommandsOk, EmitsFresh, NoPlans, ExpireWorkers, SweepRooms;
    var s := step.schedule;
    var mid := ExpireWorkers(t, s.workers, s.hosted);
    OldId(t, k);
    ExpiriesSettle(t, s.workers, s.hosted, k);
    ExpireWorkersLog(t, s.workers, s.hosted);
    EmitsLater(t, mid);
    SweepRoomsLog(mid, step.now, s.rooms, s.members);
    KeptByAdded(mid, SweepRooms(mid, step.now, s.rooms, s.members).0, k);
  }

  // ---- registrations ----

  lemma SessionSettles(t: Table, step: Step, k: RequestId)
    requires CommandsOk(t) && step.WorkerStep? && k in t.owners
    requires !InvalidRegistration(step.instance, step.request, step.capacity)
    ensures k in Apply(t, step).owners <==> k !in Superseded(t, step.instance)
  {
    hide CommandsOk, EmitsFresh, NoPlans, ResyncRooms, ConnectedWorker, Superseded;
    var session := OpenSession(t, step.connection, step.instance, step.request, step.capacity);
    OldId(t, k);
    SessionLog(t, step.connection, step.instance, step.request, step.capacity);
    EmitsLater(t, session);
    ResyncLog(session, step.instance, step.connection, step.rooms, step.commands);
    KeptByAdded(session, ResyncRooms(session, step.instance, step.connection, step.rooms, step.commands), k);
  }

  // ---- all steps ----

  lemma OtherAdds(t: Table, step: Step)
    requires CommandsOk(t)
    requires !step.ResultStep? && !step.TimeoutStep?
    requires step.WorkerStep? ==> InvalidRegistration(step.instance, step.request, step.capacity)
    ensures t.owners.Keys <= Apply(t, step).owners.Keys
  {
    hide CommandsOk, EmitsFresh, NoPlans, Admit, Deregister, Send, Remove, HandleEvent, RegisteredMembers, PollAction, Register,
         LoseWorker;
    match step {
      case AdmitStep(ticket, now, r, c, token) => AdmitLog(t, ticket, now, r, c, token);
      case RegisterStep(r, c, token, order) => RegisterQuiet(t, r, c, token, order);
      case DeregisterStep(now, r, c) => DeregisterLog(t, now, r, c);
      case SendStep(r, c, epoch, message, order) => SendLog(t, r, c, epoch, message, order);
      case RemoveStep(ticket, r, c, token) => RemoveLog(t, ticket, r, c, token);
      case WorkerStep(_, _, _, _, _, _) =>
      case EventStep(connection, i, event) => EventQuiet(t, connection, i, event);
      case LostStep(connection, i, now) => LostQuiet(t, connection, i, now);
      case PollStep => PollAdds(t);
    }
  }

  lemma PollAdds(t: Table)
    ensures PollAction(t).owners == t.owners
  {
  }

  lemma StepSettles(t: Table, step: Step, k: RequestId)
    requires CommandsOk(t) && k in t.owners
    ensures k in Apply(t, step).owners <==> !Settles(t, step, k)
  {
    hide CommandsOk, Apply, Answers, Superseded;
    if step.ResultStep? {
      ResultSettles(t, step, k);
    } else if step.TimeoutStep? {
      TimeoutSettles(t, step, k);
    } else if step.WorkerStep? && !InvalidRegistration(step.instance, step.request, step.capacity) {
      SessionSettles(t, step, k);
    } else {
      OtherAdds(t, step);
    }
    NotAnswering(t, step);
  }

  lemma NotAnswering(t: Table, step: Step)
    ensures Answers(t, step) ==> step.ResultStep?
  {
  }

  // ---- runs ----

  lemma Ledgers(config: Config, run: Run, k: nat)
    requires k <= |run| && Proper(config, run)
    ensures CommandsOk(At(config, run, k))
  {
    hide After, Base, CommandsOk;
    ShapeAfter(config, run, k, false);
    BaseShapes(At(config, run, k));
  }

  lemma SameKeys(t: Table)
    requires CommandsOk(t)
    ensures t.unacked.Keys == t.owners.Keys && t.pending.Keys == t.owners.Keys
    ensures forall q :: q in t.issued ==> q < t.nextRequest
  {
  }

  lemma NeverBack(t: Table, step: Step, k: RequestId)
    requires CommandsOk(t) && k < t.nextRequest && k !in t.owners
    ensures k !in Apply(t, step).owners
  {
    hide CommandsOk, Apply;
    StepContinues(t, step);
  }

  /** A command is in flight for as long as no step has ended that. */
  lemma {:induction false} InFlightExactly(config: Config, run: Run, i: nat, j: nat, k: RequestId)
    requires i <= j <= |run| && Proper(config, run) && k in At(config, run, i).unacked
    ensures k in At(config, run, j).unacked <==> forall v :: i <= v < j ==> !Settles(At(config, run, v), run[v], k)
    ensures k in At(config, run, j).unacked ==> At(config, run, j).unacked[k] == At(config, run, i).unacked[k]
    decreases j
  {
    hide Apply, ProperOrders, After, Settles, CommandsOk;
    if i < j {
      var t := At(config, run, j - 1);
      InFlightExactly(config, run, i, j - 1, k);
      Ledgers(config, run, j - 1);
      Ledgers(config, run, j);
      SameKeys(t);
      SameKeys(At(config, run, j));
      Prefix(config, run, j - 1);
      IssuedForever(config, run, i, j - 1, k);
      if k in t.unacked {
        StepSettles(t, run[j - 1], k);
      } else {
        NeverBack(t, run[j - 1], k);
      }
      if k in At(config, run, j).unacked {
        IssuedForever(config, run, i, j, k);
        IssuedForever(config, run, j, j, k);
      }
    }
  }

  /** While the plan to send a command again stands, nothing but an answer ends its flight: an expiry of its worker would
      end the plan with it. */
  lemma OnlyAnswers(t: Table, step: Step, q: RequestId, p: PendingCommand, k: RequestId)
    requires CommandsOk(t) && k in t.unacked && !t.unacked[k].kind.SyncCommand?
    requires q in t.pending && t.pending[q] == p && p.SyncPending? && t.unacked[k] in p.replay
    requires q in Apply(t, step).owners
    ensures Settles(t, step, k) <==> AnswersTo(t, step, k)
  {
    SameKeys(t);
    StepSettles(t, step, q);
    assert ReplayOk(t, p) && OwnedBy(p, t.owners[q]) && Matches(t.pending[k], t.unacked[k].kind) && t.unacked[k].id == k;
    hide CommandsOk, Apply, Answers;
  }

  /** The registration that makes the plan supersedes SyncRooms only. */
  lemma PlanningKeeps(t: Table, step: Step, k: RequestId)
    requires CommandsOk(t) && k in t.unacked && !t.unacked[k].kind.SyncCommand? && step.WorkerStep?
    ensures !Settles(t, step, k) && !AnswersTo(t, step, k)
  {
    SameKeys(t);
    assert Matches(t.pending[k], t.unacked[k].kind);
    hide CommandsOk;
  }

  /** A command that is sent again, in step `j`, is still unacknowledged then exactly if no connected worker has answered
      it since its replay was planned, in step `w`. One that has been answered in between is sent again all the same. */
  lemma ResentUnacknowledged(config: Config, run: Run, i: nat, j: nat, k: nat) returns (w: nat)
    requires i <= j < |run| && Proper(config, run) && !run[j].PollStep?
    requires |At(config, run, j).actions| <= k < |At(config, run, j + 1).actions|
    requires IsCommand(At(config, run, j + 1).actions[k])
    requires At(config, run, j + 1).actions[k].output.command.id in At(config, run, i).issued
    ensures ReplaysNow(At(config, run, j), run[j])
    ensures var command := At(config, run, j + 1).actions[k].output.command;
            && w < j && run[w].WorkerStep? && command.id in At(config, run, w).unacked
            && (command.id in At(config, run, j).unacked
                <==> forall v :: w <= v < j ==> !AnswersTo(At(config, run, v), run[v], command.id))
  {
    hide Apply, ProperOrders, After, Settles, AnswersTo, CommandsOk, PlanStands;
    w := ResentOnlyAfterItsSync(config, run, i, j, k);
    var command := At(config, run, j + 1).actions[k].output.command;
    Ledgers(config, run, j);
    Prefix(config, run, j);
    NothingResent(At(config, run, j), run[j], k);
    InFlightExactly(config, run, w, j, command.id);
    var q := run[j].result.id;
    var p := At(config, run, j).pending[q];
    forall v | w <= v < j
      ensures Settles(At(config, run, v), run[v], command.id) <==> AnswersTo(At(config, run, v), run[v], command.id)
    {
      WhilePlanned(config, run, w, j, v, q, p, command);
    }
  }

  lemma NotInFlight(t: Table, step: Step, k: RequestId)
    requires CommandsOk(t) && k !in t.unacked
    ensures !Settles(t, step, k) && !AnswersTo(t, step, k)
  {
    hide CommandsOk;
    SameKeys(t);
  }

  lemma WhilePlanned(config: Config, run: Run, w: nat, j: nat, v: nat, q: RequestId, p: PendingCommand, command: Command)
    requires w <= v < j <= |run| && Proper(config, run) && run[w].WorkerStep?
    requires PlanStands(config, run, q, p, w, j) && p.SyncPending? && command in p.replay && !command.kind.SyncCommand?
    requires command.id in At(config, run, w).unacked && At(config, run, w).unacked[command.id] == command
    ensures Settles(At(config, run, v), run[v], command.id) <==> AnswersTo(At(config, run, v), run[v], command.id)
  {
    hide Apply, ProperOrders, After, Settles, AnswersTo, CommandsOk;
    Ledgers(config, run, v);
    Ledgers(config, run, v + 1);
    Prefix(config, run, v);
    InFlightExactly(config, run, w, v, command.id);
    if command.id !in At(config, run, v).unacked {
      NotInFlight(At(config, run, v), run[v], command.id);
    } else if v == w {
      PlanningKeeps(At(config, run, w), run[w], command.id);
    } else {
      SameKeys(At(config, run, v + 1));
      OnlyAnswers(At(config, run, v), run[v], q, p, command.id);
    }
  }
}
