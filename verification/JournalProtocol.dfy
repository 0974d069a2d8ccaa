/** Several Bridge instances over one journal: who may do what, one atomic step at a time.

    An instance's lock connection can die at any moment and never recovers. Probes are separate steps
    from the transactions they guard, and the steps that the source serialises with the store mutex are
    left free to interleave, so this model has more runs than the source. Every step is a total
    function: a step that is not enabled changes nothing. */
module JournalProtocol {
  import opened JournalTables

  // The context of one execution, as ctx.Err() reports it.
  datatype RunContext = Live | ContextCancelled | DeadlineExceeded

  function Cancel(c: RunContext): RunContext {
    if c == Live then ContextCancelled else c
  }

  function CancelAll(active: map<RunId, RunContext>): map<RunId, RunContext> {
    map r | r in active :: Cancel(active[r])
  }

  // Where the goroutine of one run stands in executeLocal.
  datatype Stage =
    | Starting                                             // before the ownership probe of transition
    | Probed                                               // probe passed, mutex dropped, transaction to come
    | Dispatching                                          // running is committed, Process not yet called
    | Executing                                            // inside Process
    | Settling(asked: RunState, code: FinishCode, last: bool)  // about to finish; last = no second attempt
    | Clearing                                             // completed is committed, hazard delete to come

  datatype Phase = Booting | Fenced | Reconciling(todo: seq<RunId>) | Serving | Stopped

  datatype Instance = Instance(
    lockAlive: bool,
    phase: Phase,
    fenced: bool,
    closed: bool,
    ownershipLost: bool,
    accepting: bool,                  // an accept probe passed, its transaction is to come
    active: map<RunId, RunContext>,
    stage: map<RunId, Stage>)

  // What Process hands back.
  datatype ProcessResult = ProcessResult(completed: bool, code: FinishCode)

  // launched, started, calls and live are history: which instance launched a run's goroutine, which
  // runs reached running, every call to Process in order, and the executions not known to have stopped.
  datatype World = World(
    db: Tables,
    instances: seq<Instance>,
    launched: map<RunId, InstanceId>,
    started: set<RunId>,
    calls: seq<RunId>,
    live: set<RunId>)

  datatype Step =
    | Boot
    | LegacyFence(i: InstanceId, outcome: TxOutcome)
    | ScanActive(i: InstanceId, todo: seq<RunId>)
    | Reconcile(i: InstanceId, outcome: TxOutcome)
    | Serve(i: InstanceId)
    | LoseLock(i: InstanceId)
    | NoticeLoss(i: InstanceId)
    | CreateSession(i: InstanceId, owner: OwnerHash, key: RequestKey, title: Digest, id: SessionId, outcome: TxOutcome)
    | AcceptProbe(i: InstanceId, answered: bool)
    | AcceptCommit(i: InstanceId, message: Message, run: RunId, outcome: TxOutcome)
    | StartProbe(i: InstanceId, run: RunId, answered: bool)
    | StartCommit(i: InstanceId, run: RunId, outcome: TxOutcome)
    | CallProcess(i: InstanceId, run: RunId)
    | SkipProcess(i: InstanceId, run: RunId)
    | ProcessReturns(i: InstanceId, run: RunId, result: ProcessResult)
    | FinishCommit(i: InstanceId, run: RunId, outcome: TxOutcome)
    | ClearHazard(i: InstanceId, run: RunId, outcome: TxOutcome)
    | RequestCancel(i: InstanceId, owner: OwnerHash, session: SessionId, run: RunId, key: RequestKey, outcome: TxOutcome)
    | Deadline(i: InstanceId, run: RunId)
    | BeginClose(i: InstanceId)
    | EndClose(i: InstanceId)
    | Crash(i: InstanceId)
    | ExecutionStops(run: RunId)
    | AdminClears(run: RunId)

  const EmptyTables := Tables(map[], map[], map[], map[], map[], map[])

  const Init := World(EmptyTables, [], map[], {}, [], {})

  const NewInstance := Instance(true, Booting, false, false, false, false, map[], map[])

  // ---- instance updates ----

  function LoseOwnership(inst: Instance): Instance {
    inst.(ownershipLost := true, active := CancelAll(inst.active))
  }

  function Goto(inst: Instance, run: RunId, stage: Stage): Instance {
    inst.(stage := inst.stage[run := stage])
  }

  // The goroutine's deferred clean-up.
  function Leave(inst: Instance, run: RunId): Instance {
    inst.(stage := inst.stage - {run}, active := inst.active - {run})
  }

  function StartFailed(inst: Instance, run: RunId): Instance {
    Goto(inst, run, Settling(Failed, OtherCode, true))
  }

  // finish returned an error: the first attempt is followed by one more, the second is not.
  function FinishFailed(inst: Instance, run: RunId, last: bool): Instance {
    if last then Leave(inst, run) else Goto(inst, run, Settling(Failed, OtherCode, true))
  }

  // The state and code executeLocal derives from its context and the result of Process.
  function Verdict(c: RunContext, result: ProcessResult): (RunState, FinishCode) {
    match c
    case ContextCancelled => (Cancelled, OtherCode)
    case DeadlineExceeded => (Failed, OtherCode)
    case Live => (if result.completed then Completed else Failed, result.code)
  }

  function Put(w: World, i: InstanceId, inst: Instance): World
    requires i < |w.instances|
  {
    w.(instances := w.instances[i := inst])
  }

  predicate IsAt(w: World, i: InstanceId, run: RunId, stage: Stage) {
    i < |w.instances| && run in w.instances[i].stage && w.instances[i].stage[run] == stage
  }

  // Some goroutine for the run still exists somewhere.
  predicate HasGoroutine(w: World, run: RunId) {
    exists i :: 0 <= i < |w.instances| && run in w.instances[i].stage
  }

  // A run whose execution is under way or about to be: its hazard must stay.
  predicate Hot(w: World, run: RunId) {
    run in w.live || exists i :: 0 <= i < |w.instances| && IsAt(w, i, run, Dispatching)
  }

  // ---- start-up ----

  function DoBoot(w: World): World {
    // pg_try_advisory_lock succeeds only when no live connection holds the lock.
    if exists i :: 0 <= i < |w.instances| && w.instances[i].lockAlive then w
    else w.(instances := w.instances + [NewInstance])
  }

  function DoLegacyFence(w: World, i: InstanceId, outcome: TxOutcome): World {
    if i >= |w.instances| || w.instances[i].phase != Booting then w
    else
      var inst := w.instances[i];
      Put(w.(db := FenceTx(w.db, outcome)), i,
          if outcome == Durable then inst.(phase := Fenced, fenced := true) else inst.(phase := Stopped))
  }

  function DoScanActive(w: World, i: InstanceId, todo: seq<RunId>): World {
    if i >= |w.instances| || w.instances[i].phase != Fenced
       || !(forall r :: r in w.db.runs && IsActive(w.db.runs[r].state) ==> r in todo)
       || !(forall k :: 0 <= k < |todo| ==> todo[k] in w.db.runs && IsActive(w.db.runs[todo[k]].state)) then w
    else Put(w, i, w.instances[i].(phase := Reconciling(todo)))
  }

  function DoReconcile(w: World, i: InstanceId, outcome: TxOutcome): World {
    if i >= |w.instances| || !w.instances[i].phase.Reconciling? || w.instances[i].phase.todo == [] then w
    else
      var inst := w.instances[i];
      var run := inst.phase.todo[0];
      if run !in w.db.runs then w
      else
        var (db, reply) := FinishTx(w.db, w.db.runs[run].session, run, Failed, BridgeRestartInterrupted, outcome);
        Put(w.(db := db), i,
            if reply == FinishError then inst.(phase := Stopped) else inst.(phase := Reconciling(inst.phase.todo[1..])))
  }

  function DoServe(w: World, i: InstanceId): World {
    if i >= |w.instances| || w.instances[i].phase != Reconciling([]) then w
    else Put(w, i, w.instances[i].(phase := Serving))
  }

  // ---- ownership ----

  function DoLoseLock(w: World, i: InstanceId): World {
    if i >= |w.instances| then w else Put(w, i, w.instances[i].(lockAlive := false))
  }

  // The watcher's probe failed; a slow probe counts as a loss even while the lock is held.
  function DoNoticeLoss(w: World, i: InstanceId): World {
    if i >= |w.instances| then w else Put(w, i, LoseOwnership(w.instances[i]))
  }

  // ---- requests ----

  function DoCreateSession(w: World, i: InstanceId, owner: OwnerHash, key: RequestKey, title: Digest, id: SessionId, outcome: TxOutcome): World {
    if i >= |w.instances| || w.instances[i].phase != Serving then w
    else w.(db := CreateTx(w.db, owner, key, title, id, outcome).0)
  }

  function DoAcceptProbe(w: World, i: InstanceId, answered: bool): World {
    if i >= |w.instances| || w.instances[i].phase != Serving || w.instances[i].ownershipLost || w.instances[i].closed then w
    else if answered && w.instances[i].lockAlive then Put(w, i, w.instances[i].(accepting := true))
    else Put(w, i, LoseOwnership(w.instances[i]))
  }

  function DoAcceptCommit(w: World, i: InstanceId, m: Message, run: RunId, outcome: TxOutcome): World {
    if i >= |w.instances| || !w.instances[i].accepting then w
    else
      var inst := w.instances[i].(accepting := false);
      var (db, reply) := AcceptTx(w.db, i, m, run, outcome);
      if reply.Accepted? then
        Put(w.(db := db, launched := w.launched[run := i]), i,
            inst.(active := inst.active[run := Live], stage := inst.stage[run := Starting]))
      else Put(w.(db := db), i, inst)
  }

  function DoRequestCancel(w: World, i: InstanceId, owner: OwnerHash, session: SessionId, run: RunId, key: RequestKey, outcome: TxOutcome): World {
    if i >= |w.instances| || w.instances[i].phase != Serving then w
    else
      var inst := w.instances[i];
      var (db, reply) := CancelTx(w.db, owner, session, run, key, run in inst.active, outcome);
      if reply == CancelAnswered(CancelRequested) && run in inst.active then
        Put(w.(db := db), i, inst.(active := inst.active[run := Cancel(inst.active[run])]))
      else w.(db := db)
  }

  // ---- one execution ----

  function DoStartProbe(w: World, i: InstanceId, run: RunId, answered: bool): World {
    if !IsAt(w, i, run, Starting) then w
    else
      var inst := w.instances[i];
      if inst.closed || inst.ownershipLost then Put(w, i, StartFailed(inst, run))
      else if answered && inst.lockAlive then Put(w, i, Goto(inst, run, Probed))
      else Put(w, i, StartFailed(LoseOwnership(inst), run))
  }

  function DoStartCommit(w: World, i: InstanceId, run: RunId, outcome: TxOutcome): World {
    if !IsAt(w, i, run, Probed) || run !in w.db.runs then w
    else
      var inst := w.instances[i];
      var session := w.db.runs[run].session;
      var (db, ok) := StartTx(w.db, i, session, run, outcome);
      var reached := outcome != RolledBack && CanStart(w.db, session, run);
      var w' := w.(db := db, started := if reached then w.started + {run} else w.started);
      Put(w', i, if ok then Goto(inst, run, Dispatching) else StartFailed(inst, run))
  }

  function DoCallProcess(w: World, i: InstanceId, run: RunId): World {
    if !IsAt(w, i, run, Dispatching) || run !in w.instances[i].active || w.instances[i].active[run] != Live then w
    else
      Put(w.(calls := w.calls + [run], live := w.live + {run}), i, Goto(w.instances[i], run, Executing))
  }

  // The context died before Process was called: settle without calling it.
  function DoSkipProcess(w: World, i: InstanceId, run: RunId): World {
    if !IsAt(w, i, run, Dispatching) || run !in w.instances[i].active || w.instances[i].active[run] == Live then w
    else
      var (state, code) := Verdict(w.instances[i].active[run], ProcessResult(false, OtherCode));
      Put(w, i, Goto(w.instances[i], run, Settling(state, code, false)))
  }

  // Only a synchronous successful completion shows that the execution has stopped.
  function DoProcessReturns(w: World, i: InstanceId, run: RunId, result: ProcessResult): World {
    if !IsAt(w, i, run, Executing) || run !in w.instances[i].active then w
    else
      var (state, code) := Verdict(w.instances[i].active[run], result);
      Put(w.(live := if result.completed then w.live - {run} else w.live), i,
          Goto(w.instances[i], run, Settling(state, code, false)))
  }

  function DoFinishCommit(w: World, i: InstanceId, run: RunId, outcome: TxOutcome): World {
    if i >= |w.instances| || run !in w.instances[i].stage || !w.instances[i].stage[run].Settling? || run !in w.db.runs then w
    else
      var inst := w.instances[i];
      var at := inst.stage[run];
      var (db, reply) := FinishTx(w.db, w.db.runs[run].session, run, at.asked, at.code, outcome);
      Put(w.(db := db), i,
          if reply == FinishError then FinishFailed(inst, run, at.last)
          else if reply == Recorded(Completed) && !inst.ownershipLost && !inst.closed then Goto(inst, run, Clearing)
          else Leave(inst, run))
  }

  // The delete runs on the lock connection, after the commit.
  function DoClearHazard(w: World, i: InstanceId, run: RunId, outcome: TxOutcome): World {
    if !IsAt(w, i, run, Clearing) then w
    else
      var inst := w.instances[i];
      var reached := if inst.lockAlive then outcome else RolledBack;
      Put(w.(db := ClearHazardTx(w.db, i, run, reached)), i,
          if reached == Durable then Leave(inst, run) else FinishFailed(LoseOwnership(inst), run, false))
  }

  function DoDeadline(w: World, i: InstanceId, run: RunId): World {
    if i >= |w.instances| || run !in w.instances[i].active || w.instances[i].active[run] != Live then w
    else Put(w, i, w.instances[i].(active := w.instances[i].active[run := DeadlineExceeded]))
  }

  // ---- shutdown and environment ----

  function DoBeginClose(w: World, i: InstanceId): World {
    if i >= |w.instances| then w
    else Put(w, i, w.instances[i].(closed := true, active := CancelAll(w.instances[i].active)))
  }

  function DoEndClose(w: World, i: InstanceId): World {
    if i >= |w.instances| || !w.instances[i].closed || w.instances[i].stage != map[] || w.instances[i].accepting then w
    else Put(w, i, w.instances[i].(phase := Stopped, lockAlive := false))
  }

  // The process dies: its goroutines vanish, remote executions may go on.
  function DoCrash(w: World, i: InstanceId): World {
    if i >= |w.instances| then w
    else Put(w, i, w.instances[i].(phase := Stopped, lockAlive := false, accepting := false, active := map[], stage := map[]))
  }

  function DoExecutionStops(w: World, run: RunId): World {
    if exists i :: 0 <= i < |w.instances| && IsAt(w, i, run, Executing) then w
    else w.(live := w.live - {run})
  }

  // The administrator clears a hazard only after verifying that the execution has stopped.
  function DoAdminClears(w: World, run: RunId): World {
    if run in w.live || HasGoroutine(w, run) then w
    else w.(db := AdminClearTx(w.db, run))
  }

  // ---- runs ----

  function Do(w: World, step: Step): World {
    match step
    case Boot => DoBoot(w)
    case LegacyFence(i, outcome) => DoLegacyFence(w, i, outcome)
    case ScanActive(i, todo) => DoScanActive(w, i, todo)
    case Reconcile(i, outcome) => DoReconcile(w, i, outcome)
    case Serve(i) => DoServe(w, i)
    case LoseLock(i) => DoLoseLock(w, i)
    case NoticeLoss(i) => DoNoticeLoss(w, i)
    case CreateSession(i, owner, key, title, id, outcome) => DoCreateSession(w, i, owner, key, title, id, outcome)
    case AcceptProbe(i, answered) => DoAcceptProbe(w, i, answered)
    case AcceptCommit(i, message, run, outcome) => DoAcceptCommit(w, i, message, run, outcome)
    case StartProbe(i, run, answered) => DoStartProbe(w, i, run, answered)
    case StartCommit(i, run, outcome) => DoStartCommit(w, i, run, outcome)
    case CallProcess(i, run) => DoCallProcess(w, i, run)
    case SkipProcess(i, run) => DoSkipProcess(w, i, run)
    case ProcessReturns(i, run, result) => DoProcessReturns(w, i, run, result)
    case FinishCommit(i, run, outcome) => DoFinishCommit(w, i, run, outcome)
    case ClearHazard(i, run, outcome) => DoClearHazard(w, i, run, outcome)
    case RequestCancel(i, owner, session, run, key, outcome) => DoRequestCancel(w, i, owner, session, run, key, outcome)
    case Deadline(i, run) => DoDeadline(w, i, run)
    case BeginClose(i) => DoBeginClose(w, i)
    case EndClose(i) => DoEndClose(w, i)
    case Crash(i) => DoCrash(w, i)
    case ExecutionStops(run) => DoExecutionStops(w, run)
    case AdminClears(run) => DoAdminClears(w, run)
  }

  // The world after a sequence of steps; every world so obtained is reachable, and only those are.
  function After(steps: seq<Step>): World {
    if steps == [] then Init else Do(After(steps[..|steps| - 1]), steps[|steps| - 1])
  }
}
