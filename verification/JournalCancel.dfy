/** Cancellation against completion over whole runs.

    No run is ever both asked to cancel and completed, provided no executor result carries the restart
    code. Without that proviso it can happen: the witness is a concrete run of thirteen steps. */
module JournalCancel {
  import opened JournalTables
  import opened JournalWords
  import opened JournalSoundness
  import opened JournalProtocol
  import opened JournalInvariant
  import opened JournalGrowth
  import opened JournalTheorems

  predicate CancelledNotCompleted(words: seq<Word>) {
    forall k :: 0 <= k < |words| && words[k].cancelAsked ==> words[k].ending != EndCompleted
  }

  predicate NoLateCompletion(db: Tables) {
    forall s :: s in db.sessions ==> CancelledNotCompleted(Words(db, s))
  }

  predicate InstanceCodesOk(inst: Instance) {
    forall r :: r in inst.stage && inst.stage[r].Settling? ==> inst.stage[r].code == OtherCode
  }

  predicate CodesOk(w: World) {
    forall i :: 0 <= i < |w.instances| ==> InstanceCodesOk(w.instances[i])
  }

  predicate TruthfulStep(step: Step) {
    step.ProcessReturns? ==> step.result.code == OtherCode
  }

  predicate Truthful(steps: seq<Step>) {
    forall k :: 0 <= k < |steps| ==> TruthfulStep(steps[k])
  }

  // One session's words changed to `words`; the others are as before.
  lemma {:induction false} OneSessionChanged(db: Tables, after: Tables, s: SessionId)
    requires NoLateCompletion(db) && s in after.sessions
    requires forall t :: t in after.sessions && t != s ==> t in db.sessions && after.sessions[t] == db.sessions[t]
    requires CancelledNotCompleted(Words(after, s))
    ensures NoLateCompletion(after)
  {
    hide WordsOf, CancelledNotCompleted;
  }

  lemma {:induction false} NewLast(words: seq<Word>, w: Word)
    requires words != [] && CancelledNotCompleted(words) && (w.cancelAsked ==> w.ending != EndCompleted)
    ensures CancelledNotCompleted(WithLast(words, w))
  {
  }

  lemma {:induction false} AcceptNoLate(db: Tables, started: set<RunId>, self: InstanceId, m: Message, run: RunId)
    requires Sound(db, started) && NoLateCompletion(db) && Admits(db, self, m, run) && run !in started
    ensures NoLateCompletion(AcceptedTables(db, m, run))
  {
    hide Sound, WordsOf, AcceptRow, NewReceipt;
    AcceptSound(db, started, self, m, run);
    OneSessionChanged(db, AcceptedTables(db, m, run), m.session);
  }

  lemma {:induction false} StartNoLate(db: Tables, started: set<RunId>, self: InstanceId, s: SessionId, r: RunId)
    requires Sound(db, started) && NoLateCompletion(db) && CanStart(db, s, r)
    ensures NoLateCompletion(StartedTables(db, self, s, r))
  {
    hide WordsOf, StartRow, CancelledNotCompleted, Faithful, RequestsSound, CreateKeysSound, CancelsSound, ReceiptsSound, HazardsSound;
    ActiveIsLast(db, started, r);
    StartSound(db, started, self, s, r);
    NewLast(Words(db, s), Word(r, true, false, StillOpen));
    OneSessionChanged(db, StartedTables(db, self, s, r), s);
  }

  lemma {:induction false} FinishNoLate(db: Tables, started: set<RunId>, s: SessionId, r: RunId, asked: RunState, code: FinishCode, outcome: TxOutcome)
    requires Sound(db, started) && NoLateCompletion(db)
    requires IsTerminal(asked) && (asked == Completed ==> r in started && code == OtherCode)
    ensures NoLateCompletion(FinishTx(db, s, r, asked, code, outcome).0)
  {
    hide WordsOf, FinishRow, CancelledNotCompleted, Faithful, RequestsSound, CreateKeysSound, CancelsSound, ReceiptsSound, HazardsSound;
    if outcome != RolledBack && CanFinish(db, s, r) {
      var state := SettledState(db.runs[r].state, asked, code);
      ActiveIsLast(db, started, r);
      FinishSound(db, started, s, r, state);
      NewLast(Words(db, s), Last(Words(db, s)).(ending := EndingFor(state)));
      OneSessionChanged(db, FinishedTables(db, s, r, state), s);
    }
  }

  lemma {:induction false} CancelNoLate(db: Tables, started: set<RunId>, owner: OwnerHash, s: SessionId, r: RunId, key: RequestKey, hasContext: bool, outcome: TxOutcome)
    requires Sound(db, started) && NoLateCompletion(db)
    ensures NoLateCompletion(CancelTx(db, owner, s, r, key, hasContext, outcome).0)
  {
    hide Sound, WordsOf, CancelRow, CancelledNotCompleted;
    if outcome != RolledBack && !CancelRefused(db, owner, s, r, key, hasContext) && (db.runs[r].state.Queued? || db.runs[r].state.Running?) {
      CancelSound(db, started, owner, s, r, key, hasContext);
      NewLast(Words(db, s), Last(Words(db, s)).(cancelAsked := true));
      OneSessionChanged(db, CancelledTables(db, s, r, key), s);
    }
  }

  lemma {:induction false} CreateNoLate(db: Tables, owner: OwnerHash, key: RequestKey, title: Digest, id: SessionId, outcome: TxOutcome)
    requires NoLateCompletion(db)
    ensures NoLateCompletion(CreateTx(db, owner, key, title, id, outcome).0)
  {
    hide CancelledNotCompleted, WordsOf;
    NewSessionIsFaithful(owner, title);
    assert CancelledNotCompleted([]) by { EmptyWords(); }
  }

  lemma {:induction false} EmptyWords()
    ensures CancelledNotCompleted([])
  {
  }

  lemma {:induction false} SettlingNoLate(w: World, i: InstanceId, r: RunId, outcome: TxOutcome)
    requires Inv(w) && NoLateCompletion(w.db) && CodesOk(w)
    ensures NoLateCompletion(DoFinishCommit(w, i, r, outcome).db)
  {
    hide Inv, Sound, FinishTx, WordsOf, CancelledNotCompleted, NoLateCompletion;
    InvParts(w);
    if i < |w.instances| && r in w.instances[i].stage && w.instances[i].stage[r].Settling? && r in w.db.runs {
      var at := w.instances[i].stage[r];
      SettlingFact(w, i, r);
      FinishNoLate(w.db, w.started, w.db.runs[r].session, r, at.asked, at.code, outcome);
    }
  }

  lemma {:induction false} ReconcileNoLate(w: World, i: InstanceId, outcome: TxOutcome)
    requires Inv(w) && NoLateCompletion(w.db)
    ensures NoLateCompletion(DoReconcile(w, i, outcome).db)
  {
    hide Inv, Sound, FinishTx, WordsOf, CancelledNotCompleted, NoLateCompletion;
    InvParts(w);
    if i < |w.instances| && w.instances[i].phase.Reconciling? && w.instances[i].phase.todo != [] {
      var r := w.instances[i].phase.todo[0];
      if r in w.db.runs {
        FinishNoLate(w.db, w.started, w.db.runs[r].session, r, Failed, BridgeRestartInterrupted, outcome);
      }
    }
  }

  lemma {:induction false} TruthfulTablesStep(w: World, step: Step)
    requires Inv(w) && NoLateCompletion(w.db) && CodesOk(w)
    ensures NoLateCompletion(Do(w, step).db)
  {
    hide Inv, Sound, AcceptTx, StartTx, CancelTx, CreateTx, WordsOf, CancelledNotCompleted, CanStart, CodesOk, DoReconcile, DoFinishCommit;
    if !Writes(step) {
      OtherStepsKeepLogs(w, step);
      hide Do;
      return;
    }
    InvParts(w);
    match step
    case Reconcile(i, outcome) => ReconcileNoLate(w, i, outcome);
    case CreateSession(i, owner, key, title, id, outcome) => CreateNoLate(w.db, owner, key, title, id, outcome);
    case AcceptCommit(i, m, run, outcome) => AcceptTxNoLate(w, i, m, run, outcome);
    case StartCommit(i, r, outcome) => StartTxNoLate(w, i, r, outcome);
    case FinishCommit(i, r, outcome) => SettlingNoLate(w, i, r, outcome);
    case RequestCancel(i, owner, s, r, key, outcome) =>
      if i < |w.instances| {
        CancelNoLate(w.db, w.started, owner, s, r, key, r in w.instances[i].active, outcome);
      }
  }

  lemma {:induction false} AcceptTxNoLate(w: World, i: InstanceId, m: Message, run: RunId, outcome: TxOutcome)
    requires Inv(w) && NoLateCompletion(w.db)
    ensures NoLateCompletion(AcceptTx(w.db, i, m, run, outcome).0)
  {
    hide NoLateCompletion, Inv, AcceptTx, AcceptedTables;
    AcceptTxCases(w.db, i, m, run, outcome);
    if Admits(w.db, i, m, run) {
      NotYetStarted(w, run);
      InvParts(w);
      AcceptNoLate(w.db, w.started, i, m, run);
    }
  }

  lemma {:induction false} NotYetStarted(w: World, run: RunId)
    requires Inv(w) && run !in w.db.runs
    ensures run !in w.started
  {
    hide Sound, GoroutinesOk, InstancesOk, FenceOk, ExclusiveOk, HazardsOk;
  }

  lemma {:induction false} StartTxNoLate(w: World, i: InstanceId, r: RunId, outcome: TxOutcome)
    requires Inv(w) && NoLateCompletion(w.db)
    ensures r in w.db.runs ==> NoLateCompletion(StartTx(w.db, i, w.db.runs[r].session, r, outcome).0)
  {
    hide NoLateCompletion, Inv, StartedTables, Sound;
    InvParts(w);
    if r in w.db.runs && CanStart(w.db, w.db.runs[r].session, r) {
      StartNoLate(w.db, w.started, i, w.db.runs[r].session, r);
    }
  }

  // Only goroutine steps set a stage; of these only ProcessReturns can bring in the restart code.
  lemma {:induction false} GoroutineCodes(w: World, step: Step)
    requires CodesOk(w) && TruthfulStep(step) && GoroutineStep(step)
    ensures CodesOk(Do(w, step))
  {
    hide FinishTx, StartTx, ClearHazardTx, CanStart, CancelAll;
  }

  lemma {:induction false} TruthfulCodesStep(w: World, step: Step)
    requires CodesOk(w) && TruthfulStep(step)
    ensures CodesOk(Do(w, step))
  {
    hide FinishTx, AcceptTx, CancelTx, CreateTx, FenceTx, CancelAll, HasGoroutine, IsAt, IsActive;
    hide DoStartProbe, DoStartCommit, DoCallProcess, DoSkipProcess, DoProcessReturns, DoFinishCommit, DoClearHazard;
    if GoroutineStep(step) {
      hide Do;
      GoroutineCodes(w, step);
    }
  }

  lemma {:induction false} TruthfulRunsKeep(steps: seq<Step>)
    requires Truthful(steps)
    ensures NoLateCompletion(After(steps).db) && CodesOk(After(steps))
  {
    hide Do, NoLateCompletion, CodesOk, TruthfulStep;
    if steps == [] {
      assert NoLateCompletion(Init.db) && CodesOk(Init) by { InitTruthful(); }
    } else {
      var front, last := steps[..|steps| - 1], steps[|steps| - 1];
      TruthfulRunsKeep(front);
      RunKeeps(front);
      TruthfulTablesStep(After(front), last);
      TruthfulCodesStep(After(front), last);
    }
  }

  lemma {:induction false} InitTruthful()
    ensures NoLateCompletion(Init.db) && CodesOk(Init)
  {
  }

  /** If no executor result carries the restart code, a run with a cancel request on record never becomes
      completed, whatever the interleaving. */
  lemma {:induction false} CancelledNeverCompletes(steps: seq<Step>, s: SessionId, k: nat)
    requires Truthful(steps)
    requires s in After(steps).db.sessions && k < |Words(After(steps).db, s)|
    ensures Words(After(steps).db, s)[k].cancelAsked ==> Words(After(steps).db, s)[k].ending != EndCompleted
  {
    hide After, WordsOf;
    TruthfulRunsKeep(steps);
    assert CancelledNotCompleted(Words(After(steps).db, s));
  }

  // ---- the proviso is needed ----

  // A served session 5 of owner 7 with run 9 executing on instance 0.
  lemma {:induction false} ExecutingWorld() returns (steps: seq<Step>)
    ensures var w := After(steps);
      && |w.instances| == 1 && w.instances[0].phase == Serving && !w.instances[0].ownershipLost && !w.instances[0].closed
      && w.instances[0].active == map[9 := Live] && w.instances[0].stage == map[9 := Executing]
      && w.db.runs == map[9 := Run(5, 2, 2, Receipt(5, 9, 1, 3), Running)]
      && w.db.sessions.Keys == {5} && w.db.sessions[5].owner == 7
      && w.db.cancels == map[]
  {
    hide After, AcceptRow, StartRow;
    steps := AcceptedWorld();
    var w := After(steps);
    AfterOneMore(steps, StartProbe(0, 9, true));
    steps := steps + [StartProbe(0, 9, true)];
    AfterOneMore(steps, StartCommit(0, 9, Durable));
    steps := steps + [StartCommit(0, 9, Durable)];
    RowsKeepOwner(w.db.sessions[5], 9);
    AfterOneMore(steps, CallProcess(0, 9));
    steps := steps + [CallProcess(0, 9)];
  }

  lemma {:induction false} RowsKeepOwner(row: Session, r: RunId)
    ensures AcceptRow(row, r).owner == row.owner && StartRow(row, r).owner == row.owner
  {
  }

  lemma {:induction false} ServingWorld() returns (steps: seq<Step>)
    ensures After(steps) == Init.(instances := [NewInstance.(phase := Serving, fenced := true)])
  {
    hide After;
    steps := [];
    assert After(steps) == Init by { InitialWorld(); }
    AfterOneMore(steps, Boot);
    steps := steps + [Boot];
    AfterOneMore(steps, LegacyFence(0, Durable));
    steps := steps + [LegacyFence(0, Durable)];
    assert After(steps).db == EmptyTables;
    AfterOneMore(steps, ScanActive(0, []));
    steps := steps + [ScanActive(0, [])];
    AfterOneMore(steps, Serve(0));
    steps := steps + [Serve(0)];
  }

  lemma {:induction false} InitialWorld()
    ensures After([]) == Init
  {
  }

  lemma {:induction false} AcceptedWorld() returns (steps: seq<Step>)
    ensures var w := After(steps);
      && |w.instances| == 1 && w.instances[0].phase == Serving && !w.instances[0].ownershipLost && !w.instances[0].closed
      && w.instances[0].lockAlive
      && w.instances[0].active == map[9 := Live] && w.instances[0].stage == map[9 := Starting]
      && w.db.runs == map[9 := Run(5, 2, 2, Receipt(5, 9, 1, 3), Queued)]
      && w.db.sessions.Keys == {5} && w.db.sessions[5].owner == 7
      && w.db.cancels == map[] && w.db.hazards == map[]
  {
    hide After, AcceptRow;
    steps := ServingWorld();
    AfterOneMore(steps, CreateSession(0, 7, 1, 1, 5, Durable));
    steps := steps + [CreateSession(0, 7, 1, 1, 5, Durable)];
    AfterOneMore(steps, AcceptProbe(0, true));
    steps := steps + [AcceptProbe(0, true)];
    var m := Message(7, 5, 2, 2);
    RowsKeepOwner(After(steps).db.sessions[5], 9);
    AfterOneMore(steps, AcceptCommit(0, m, 9, Durable));
    steps := steps + [AcceptCommit(0, m, 9, Durable)];
  }

  // Process has returned a completed result with the restart code, and then the run is cancelled.
  lemma {:induction false} CancelledWorld() returns (steps: seq<Step>)
    ensures var w := After(steps);
      && |w.instances| == 1 && 9 in w.instances[0].stage
      && w.instances[0].stage[9] == Settling(Completed, BridgeRestartInterrupted, false)
      && 9 in w.db.runs && w.db.runs[9].state == CancelRequested && w.db.runs[9].session == 5 && 5 in w.db.sessions
  {
    hide After, CancelRow;
    steps := ExecutingWorld();
    var answer := ProcessReturns(0, 9, ProcessResult(true, BridgeRestartInterrupted));
    AfterOneMore(steps, answer);
    steps := steps + [answer];
    var cancel := RequestCancel(0, 7, 5, 9, 3, Durable);
    assert After(steps).db.runs[9].state == Running;
    AfterOneMore(steps, cancel);
    steps := steps + [cancel];
  }

  /** A concrete run in which the executor's result carries the restart code: the cancel request is on
      record, and the run still becomes completed. */
  lemma {:induction false} RestartCodeDefeatsCancel() returns (cancelled: seq<Step>, settle: Step)
    ensures 9 in After(cancelled).db.runs && After(cancelled).db.runs[9].state == CancelRequested
    ensures 9 in After(cancelled + [settle]).db.runs && After(cancelled + [settle]).db.runs[9].state == Completed
  {
    hide After, FinishRow;
    cancelled := CancelledWorld();
    settle := FinishCommit(0, 9, Durable);
    AfterOneMore(cancelled, settle);
  }
}
