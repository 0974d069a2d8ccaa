/** The promises of the run journal, for every sequence of steps of every number of instances. */
module JournalTheorems {
  import opened JournalTables
  import opened JournalWords
  import opened JournalSoundness
  import opened JournalProtocol
  import opened JournalInvariant
  import opened JournalGrowth
  import opened JournalGrammar

  // ---- takeover ----

  /** When instance i may accept a new run, every execution under way was dispatched by i itself and in
      another session, and no run dispatched by a different instance still has its hazard. */
  lemma {:induction false} TakeoverSafety(steps: seq<Step>, i: InstanceId, m: Message, run: RunId)
    requires Admits(After(steps).db, i, m, run)
    ensures var w := After(steps);
      && (forall r :: Hot(w, r) ==> r in w.db.runs && r in w.launched && w.launched[r] == i && w.db.runs[r].session != m.session)
      && (forall r :: r in w.started ==> r in w.launched && (w.launched[r] != i ==> r !in w.db.hazards))
  {
    var w := After(steps);
    hide After, Sound, Hot, Admits, InstancesOk, FenceOk, ExclusiveOk;
    RunKeeps(steps);
    AllHazardsOwn(w.db, w.started, i, m, run);
    forall r | Hot(w, r) ensures r in w.db.runs && r in w.launched && w.launched[r] == i && w.db.runs[r].session != m.session {
      HotIsHazard(w, r);
    }
  }

  // The step takes the hazard of h away, and h is no longer executing: either its own instance clears it on
  // a living lock connection, after the completion of h is committed; or the administrator does.
  predicate Removes(w: World, step: Step, h: RunId) {
    && h in w.db.hazards && h !in Do(w, step).db.hazards && h !in w.live
    && (|| (step == AdminClears(h) && !HasGoroutine(w, h))
        || (step.ClearHazard? && step.run == h && IsAt(w, step.i, h, Clearing) && w.instances[step.i].lockAlive
            && h in w.launched && w.launched[h] == step.i && h in w.db.runs && w.db.runs[h].state == Completed))
  }

  /** A hazard disappears in two ways only: its own instance clears it on a living lock connection, after
      the completion of that run is committed and its execution over; or the administrator clears it. */
  lemma {:induction false} HazardLeavesOnly(steps: seq<Step>, step: Step, h: RunId)
    requires h in After(steps).db.hazards && h !in Do(After(steps), step).db.hazards
    ensures Removes(After(steps), step, h)
  {
    var w := After(steps);
    hide After, Inv, Sound;
    RunKeeps(steps);
    match step
    case ClearHazard(i, r, outcome) => ClearingFact(w, i, h);
    case AdminClears(r) =>
    case FinishCommit(i, r, outcome) => FinishKeepsHazards(w, step);
    case Reconcile(i, outcome) => FinishKeepsHazards(w, step);
    case _ => StepHolds(w, step, h);
  }

  lemma {:induction false} ClearingFact(w: World, i: InstanceId, h: RunId)
    requires Inv(w)
    ensures IsAt(w, i, h, Clearing) ==> GoroutineOk(w, i, h, Clearing)
  {
    hide Sound, InstancesOk, FenceOk, ExclusiveOk, HistoryOk, HazardsOk;
  }

  lemma {:induction false} FinishKeepsHazards(w: World, step: Step)
    requires step.FinishCommit? || step.Reconcile?
    ensures Do(w, step).db.hazards == w.db.hazards
  {
    hide FinishTx;
    if step.FinishCommit? {
      if step.i < |w.instances| && step.run in w.instances[step.i].stage && w.instances[step.i].stage[step.run].Settling? && step.run in w.db.runs {
        var at := w.instances[step.i].stage[step.run];
        FinishHolds(w.db, w.db.runs[step.run].session, step.run, at.asked, at.code, step.outcome, step.run);
      }
    } else if step.i < |w.instances| && w.instances[step.i].phase.Reconciling? && w.instances[step.i].phase.todo != [] {
      var r := w.instances[step.i].phase.todo[0];
      if r in w.db.runs {
        FinishHolds(w.db, w.db.runs[r].session, r, Failed, BridgeRestartInterrupted, step.outcome, r);
      }
    }
  }

  // Every other step keeps all hazards and all requested cancellations.
  lemma {:induction false} StepHolds(w: World, step: Step, x: RunId)
    requires !step.AdminClears? && !step.ClearHazard? && !step.FinishCommit? && !step.Reconcile?
    ensures Holds(w.db, Do(w, step).db, x)
  {
    hide Holds, AcceptTx, StartTx, CancelTx, CreateTx, FenceTx;
    SelfHolds(w.db, x);
    match step
    case LegacyFence(i, outcome) => FenceHolds(w.db, outcome, x);
    case CreateSession(i, owner, key, title, id, outcome) => CreateHolds(w.db, owner, key, title, id, outcome, x);
    case AcceptCommit(i, m, run, outcome) => AcceptHolds(w.db, i, m, run, outcome, x);
    case StartCommit(i, r, outcome) =>
      if r in w.db.runs {
        StartHolds(w.db, i, w.db.runs[r].session, r, outcome, x);
      }
    case RequestCancel(i, owner, s, r, key, outcome) =>
      if i < |w.instances| {
        CancelHolds(w.db, owner, s, r, key, r in w.instances[i].active, outcome, x);
      }
    case _ =>
  }

  lemma {:induction false} SelfHolds(db: Tables, x: RunId)
    ensures Holds(db, db, x)
  {
  }

  lemma {:induction false} StartLeavesHazard(w: World, step: Step, r: RunId)
    requires r !in w.started && r in Do(w, step).started
    ensures r in Do(w, step).db.hazards
  {
    hide StartRow, FinishTx, AcceptTx, CancelTx, CreateTx, FenceTx, ClearHazardTx, CancelAll, HasGoroutine, Goto;
  }

  /** A started run without a hazard had it removed: there was a step of one of the two kinds. */
  lemma {:induction false} HazardWasRemoved(steps: seq<Step>, r: RunId)
    requires r in After(steps).started && r !in After(steps).db.hazards
    ensures exists k :: 0 <= k < |steps| && Removes(After(steps[..k]), steps[k], r)
    decreases |steps|
  {
    hide Do, Removes;
    assert steps != [];
    var n := |steps| - 1;
    var front, last := steps[..n], steps[n];
    if r in After(front).db.hazards {
      HazardLeavesOnly(front, last, r);
      assert Removes(After(steps[..n]), steps[n], r);
    } else if r in After(front).started {
      HazardWasRemoved(front, r);
      var k :| 0 <= k < n && Removes(After(front[..k]), front[k], r);
      assert front[..k] == steps[..k] && front[k] == steps[k];
    } else {
      StartLeavesHazard(After(front), last, r);
      assert false;
    }
  }

  /** Takeover over the whole history: when instance i may accept a new run, every run that a different
      instance brought to running has had its hazard removed by a step of one of the two kinds. */
  lemma {:induction false} TakeoverHistory(steps: seq<Step>, i: InstanceId, m: Message, run: RunId, r: RunId)
    requires Admits(After(steps).db, i, m, run) && r in After(steps).started
    requires r in After(steps).launched ==> After(steps).launched[r] != i
    ensures exists k :: 0 <= k < |steps| && Removes(After(steps[..k]), steps[k], r)
  {
    hide After, Admits, Removes;
    TakeoverSafety(steps, i, m, run);
    HazardWasRemoved(steps, r);
  }

  /** Once instance j has laid the legacy fence (the first act of initializeRuns), no earlier instance can
      bring any run to running: a pending start changes no table, and no new start passes its probe. */
  lemma {:induction false} FormerOwnerCannotStart(steps: seq<Step>, i: InstanceId, j: InstanceId, r: RunId, outcome: TxOutcome, answered: bool)
    requires i < j < |After(steps).instances| && After(steps).instances[j].fenced
    ensures var w := After(steps);
      && DoStartCommit(w, i, r, outcome).db == w.db
      && DoStartCommit(w, i, r, outcome).started == w.started
      && (IsAt(DoStartProbe(w, i, r, answered), i, r, Probed) ==> IsAt(w, i, r, Probed))
  {
    var w := After(steps);
    hide After, Sound, GoroutinesOk, ExclusiveOk, HistoryOk, HazardsOk, StartedTables;
    RunKeeps(steps);
  }

  // A step of one run's goroutine.
  predicate GoroutineStep(step: Step) {
    || step.StartProbe? || step.StartCommit? || step.CallProcess? || step.SkipProcess?
    || step.ProcessReturns? || step.FinishCommit? || step.ClearHazard?
  }

  lemma {:induction false} GoroutineKeepsFence(w: World, step: Step, j: InstanceId)
    requires GoroutineStep(step) && j < |w.instances| && w.instances[j].fenced
    ensures j < |Do(w, step).instances| && Do(w, step).instances[j].fenced
  {
    hide FinishTx, StartTx, ClearHazardTx, CanStart, CancelAll;
  }

  /** A fence once laid stays, so the previous theorem holds from then on. */
  lemma {:induction false} FenceIsForever(w: World, step: Step, j: InstanceId)
    requires j < |w.instances| && w.instances[j].fenced
    ensures j < |Do(w, step).instances| && Do(w, step).instances[j].fenced
  {
    hide FinishTx, AcceptTx, CancelTx, CreateTx, FenceTx, CancelAll, HasGoroutine, IsAt, IsActive;
    hide DoStartProbe, DoStartCommit, DoCallProcess, DoSkipProcess, DoProcessReturns, DoFinishCommit, DoClearHazard;
    if GoroutineStep(step) {
      hide Do;
      GoroutineKeepsFence(w, step, j);
    }
  }

  /** Executions that may still be going on all belong to one instance, the newest that launched anything,
      and no two of them are in one session. */
  lemma {:induction false} ExecutionsExclude(steps: seq<Step>, r: RunId, r': RunId)
    requires Hot(After(steps), r) && Hot(After(steps), r')
    ensures var w := After(steps);
      && r in w.launched && r' in w.launched && w.launched[r] == w.launched[r']
      && r in w.db.runs && r' in w.db.runs
      && (w.db.runs[r].session == w.db.runs[r'].session ==> r == r')
      && (forall x :: x in w.launched ==> w.launched[x] <= w.launched[r])
  {
    var w := After(steps);
    hide After, Hot, InstancesOk, FenceOk, WordsOf, Write, Faithful, RowsSound, WordsSound, RunsSound, ReceiptsSound, RequestsSound, CreateKeysSound, CancelsSound;
    RunKeeps(steps);
    HotIsHazard(w, r);
    HotIsHazard(w, r');
    assert OnLatestRun(w.db, r) && OnLatestRun(w.db, r');
  }

  // ---- one session ----

  /** A session has at most one hazard and at most one active run; both are its latest run. */
  lemma {:induction false} OnePerSession(steps: seq<Step>, r: RunId, r': RunId)
    requires r in After(steps).db.runs && r' in After(steps).db.runs
    requires After(steps).db.runs[r].session == After(steps).db.runs[r'].session
    requires r in After(steps).db.hazards || IsActive(After(steps).db.runs[r].state)
    requires r' in After(steps).db.hazards || IsActive(After(steps).db.runs[r'].state)
    ensures var db := After(steps).db;
      && r == r' && db.runs[r].session in db.sessions
      && Words(db, db.runs[r].session) != [] && Last(Words(db, db.runs[r].session)).run == r
  {
    var w := After(steps);
    RunKeeps(steps);
    LatestIfBusy(w.db, w.started, r) by { InvParts(w); }
    LatestIfBusy(w.db, w.started, r') by { InvParts(w); }
  }

  lemma {:induction false} LatestIfBusy(db: Tables, started: set<RunId>, r: RunId)
    requires Sound(db, started) && r in db.runs && (r in db.hazards || IsActive(db.runs[r].state))
    ensures OnLatestRun(db, r)
  {
    hide WordsOf, Write, Faithful, WellFormed, RowsSound, WordsSound, RunsSound, ReceiptsSound, RequestsSound, CreateKeysSound, CancelsSound;
    if IsActive(db.runs[r].state) {
      ActiveIsLast(db, started, r);
    }
  }

  // ---- at most once ----

  /** Over the whole history Process is called at most once for each session and request key. */
  lemma {:induction false} ProcessAtMostOnce(steps: seq<Step>, j: nat, k: nat)
    requires j < k < |After(steps).calls|
    ensures var w := After(steps);
      && w.calls[j] in w.db.runs && w.calls[k] in w.db.runs
      && (w.db.runs[w.calls[j]].session, w.db.runs[w.calls[j]].key) != (w.db.runs[w.calls[k]].session, w.db.runs[w.calls[k]].key)
  {
    var w := After(steps);
    hide After, RowsSound, WordsSound, RunsSound, ReceiptsSound, CreateKeysSound, CancelsSound, HazardsSound, GoroutinesOk, InstancesOk, FenceOk, ExclusiveOk, HazardsOk;
    RunKeeps(steps);
    assert w.calls[j] in w.started && w.calls[k] in w.started;
    assert w.calls[j] != w.calls[k];
  }

  /** Process is called only by the instance that launched the run, after the run's start was committed,
      under that instance's own hazard, and never a second time. */
  lemma {:induction false} ProcessNeedsCommittedStart(steps: seq<Step>, i: InstanceId, r: RunId)
    requires DoCallProcess(After(steps), i, r) != After(steps)
    ensures var w := After(steps);
      && r in w.started && r !in w.calls
      && r in w.launched && w.launched[r] == i
      && r in w.db.hazards && w.db.hazards[r] == OwnedBy(i)
  {
    var w := After(steps);
    hide After, Sound, InstancesOk, FenceOk, ExclusiveOk, HistoryOk, HazardsOk;
    RunKeeps(steps);
    assert GoroutineOk(w, i, r, Dispatching);
  }

  // ---- the log ----

  /** Every session log is the spelling of its words: complete runs one after the other, only the last
      possibly unfinished, numbered 1..event_seq. */
  lemma {:induction false} LogFollowsGrammar(steps: seq<Step>, s: SessionId)
    requires s in After(steps).db.sessions
    ensures var row := After(steps).db.sessions[s];
      && row.log == Write(WordsOf(row.log)) && WellFormed(WordsOf(row.log))
      && row.eventSeq == |row.log| && forall i :: 0 <= i < |row.log| ==> row.log[i].number == i + 1
  {
    var w := After(steps);
    hide After, WordsOf, Write, WellFormed;
    RunKeeps(steps);
    RowFaithful(w, s);
    forall i | 0 <= i < |w.db.sessions[s].log| ensures w.db.sessions[s].log[i].number == i + 1 {
      WrittenNumbers(WordsOf(w.db.sessions[s].log), i);
    }
  }

  lemma {:induction false} RowFaithful(w: World, s: SessionId)
    requires Inv(w) && s in w.db.sessions
    ensures Faithful(w.db.sessions[s])
  {
    hide Faithful, WordsSound, RunsSound, ReceiptsSound, RequestsSound, CreateKeysSound, CancelsSound, HazardsSound;
    hide GoroutinesOk, InstancesOk, FenceOk, ExclusiveOk, HistoryOk, HazardsOk;
  }

  /** Within a run no event kind occurs twice and nothing follows the terminal event; the assistant's
      message comes directly before run.completed, which needs an earlier run.running. */
  lemma {:induction false} RunHistory(steps: seq<Step>, s: SessionId, i: nat, j: nat)
    requires s in After(steps).db.sessions && i < j < |After(steps).db.sessions[s].log|
    ensures var log := After(steps).db.sessions[s].log;
      && (log[i].run == log[j].run ==> log[i].kind != log[j].kind && !IsTerminalKind(log[i].kind))
      && (log[i].kind == AssistantMessageCreated ==> log[i + 1] == Event(i + 2, log[i].run, RunCompleted))
      && (log[j].kind == RunCompleted ==>
            && log[j - 1] == Event(j, log[j].run, AssistantMessageCreated)
            && exists k :: 0 <= k < j && log[k] == Event(k + 1, log[j].run, RunRunning))
  {
    var w := After(steps);
    hide After, WordsOf, Write, WellFormed;
    RunKeeps(steps);
    RowFaithful(w, s);
    var words := WordsOf(w.db.sessions[s].log);
    if w.db.sessions[s].log[i].run == w.db.sessions[s].log[j].run {
      RunEventsOrdered(words, i, j);
    }
    AnswerThenCompleted(words, i);
    AnswerThenCompleted(words, j);
  }

  /** The stored run states and run_state are the fold of the log, and run_state is the state of the
      session's latest run (idle when there is none). */
  lemma {:induction false} EventSourcing(steps: seq<Step>, s: SessionId)
    requires s in After(steps).db.sessions
    ensures var db := After(steps).db; var words := WordsOf(db.sessions[s].log);
      && db.sessions[s].runState == LastState(words)
      && (forall k :: 0 <= k < |words| ==> words[k].run in db.runs && db.runs[words[k].run].session == s
                                           && db.runs[words[k].run].state == StateOf(words[k]))
      && (forall r :: r in db.runs && db.runs[r].session == s ==> Mentions(words, r))
  {
    var w := After(steps);
    hide After, WordsOf, Write, WellFormed, Mentions, ReceiptsSound, RequestsSound, CreateKeysSound, CancelsSound, HazardsSound;
    hide GoroutinesOk, InstancesOk, FenceOk, ExclusiveOk, HistoryOk, HazardsOk;
    RunKeeps(steps);
    var words := Words(w.db, s);
    assert Faithful(w.db.sessions[s]);
    forall k | 0 <= k < |words| ensures Agrees(w.db, w.started, s, words[k]) {
    }
  }

  // ---- nothing is taken back ----

  lemma {:induction false} StepGrows(w: World, step: Step)
    requires Inv(w)
    ensures Grows(w.db, Do(w, step).db)
  {
    hide Inv, Grows, Sound, AcceptTx, FinishTx, StartTx, CancelTx, CreateTx;
    if !Writes(step) {
      OtherStepsKeepLogs(w, step);
      GrowsReflexive(w.db, Do(w, step).db);
      hide Do;
      return;
    }
    GrowsReflexive(w.db, w.db);
    match step
    case Reconcile(i, outcome) =>
      if i < |w.instances| && w.instances[i].phase.Reconciling? && w.instances[i].phase.todo != [] {
        var r := w.instances[i].phase.todo[0];
        if r in w.db.runs {
          FinishGrows(w.db, w.db.runs[r].session, r, Failed, BridgeRestartInterrupted, outcome);
        }
      }
    case CreateSession(i, owner, key, title, id, outcome) =>
      CreateKeysFact(w, owner, key);
      CreateGrows(w.db, owner, key, title, id, outcome);
    case AcceptCommit(i, m, run, outcome) => AcceptGrows(w.db, i, m, run, outcome);
    case StartCommit(i, r, outcome) =>
      if r in w.db.runs {
        StartGrows(w.db, i, w.db.runs[r].session, r, outcome);
      }
    case FinishCommit(i, r, outcome) =>
      if i < |w.instances| && r in w.instances[i].stage && w.instances[i].stage[r].Settling? && r in w.db.runs {
        var at := w.instances[i].stage[r];
        SettlingFact(w, i, r);
        FinishGrows(w.db, w.db.runs[r].session, r, at.asked, at.code, outcome);
      }
    case RequestCancel(i, owner, s, r, key, outcome) =>
      if i < |w.instances| {
        CancelGrows(w.db, owner, s, r, key, r in w.instances[i].active, outcome);
      }
  }

  lemma {:induction false} CreateKeysFact(w: World, owner: OwnerHash, key: RequestKey)
    requires Inv(w)
    ensures (owner, key) in w.db.createKeys ==> w.db.createKeys[(owner, key)] in w.db.sessions
    ensures (owner, key) in w.db.createKeys ==> w.db.sessions[w.db.createKeys[(owner, key)]].owner == owner
  {
    hide RowsSound, WordsSound, RunsSound, ReceiptsSound, RequestsSound, CancelsSound, HazardsSound;
    hide GoroutinesOk, InstancesOk, FenceOk, ExclusiveOk, HistoryOk, HazardsOk;
  }

  lemma {:induction false} SettlingFact(w: World, i: InstanceId, r: RunId)
    requires Inv(w) && i < |w.instances| && r in w.instances[i].stage && w.instances[i].stage[r].Settling?
    ensures GoroutineOk(w, i, r, w.instances[i].stage[r])
  {
    hide Sound, InstancesOk, FenceOk, ExclusiveOk, HistoryOk, HazardsOk;
  }

  lemma {:induction false} AfterOneMore(steps: seq<Step>, step: Step)
    ensures After(steps + [step]) == Do(After(steps), step)
  {
    hide Do;
    assert (steps + [step])[..|steps|] == steps;
  }

  /** Rows, receipts, request keys, cancel keys and logged events survive every continuation, and a
      settled run keeps its state. */
  lemma {:induction false} HistoryGrows(steps: seq<Step>, more: seq<Step>)
    ensures Grows(After(steps).db, After(steps + more).db)
  {
    hide After, Grows, Do;
    if more == [] {
      assert steps + more == steps;
      GrowsReflexive(After(steps).db, After(steps).db);
    } else {
      var front, last := more[..|more| - 1], more[|more| - 1];
      HistoryGrows(steps, front);
      assert steps + more == (steps + front) + [last];
      AfterOneMore(steps + front, last);
      RunKeeps(steps + front);
      StepGrows(After(steps + front), last);
      GrowsTransitive(After(steps).db, After(steps + front).db, After(steps + more).db);
    }
  }

  // ---- idempotence ----

  /** Once a run exists for a request key, resubmitting the key to any instance, after any further steps
      (other runs, hazards, restarts, commits that were reported as errors), changes nothing: the same
      digest gets the run's original receipt, another digest a conflict. The receipt points at the run's
      own message.created event. */
  lemma {:induction false} ReplayIsStable(steps: seq<Step>, more: seq<Step>, r: RunId, i: InstanceId, m: Message, newRun: RunId, outcome: TxOutcome)
    requires r in After(steps).db.runs && outcome != RolledBack
    requires m.session == After(steps).db.runs[r].session && m.key == After(steps).db.runs[r].key
    requires m.session in After(steps).db.sessions && m.owner == After(steps).db.sessions[m.session].owner
    ensures var run := After(steps).db.runs[r]; var later := After(steps + more).db;
      && AcceptTx(later, i, m, newRun, outcome)
         == (later, if m.digest == run.digest then Replayed(run.receipt) else KeyConflict)
      && run.receipt.run == r && run.receipt.session == m.session
      && run.receipt.snapshotVersion == run.receipt.messageNumber + 2
      && 1 <= run.receipt.messageNumber <= |later.sessions[m.session].log|
      && later.sessions[m.session].log[run.receipt.messageNumber - 1] == Event(run.receipt.messageNumber, r, MessageCreated)
  {
    var w, later := After(steps), After(steps + more).db;
    hide After, Sound, NeedsRecovery, HasActiveRun;
    RunKeeps(steps);
    HistoryGrows(steps, more);
    ReceiptFact(w, r);
    assert RunGrows(w.db.runs[r], later.runs[r]);
    assert SessionGrows(w.db.sessions[m.session], later.sessions[m.session]);
  }

  lemma {:induction false} ReceiptFact(w: World, r: RunId)
    requires Inv(w) && r in w.db.runs
    ensures w.db.runs[r].session in w.db.sessions && ReceiptSound(w.db, r)
    ensures (w.db.runs[r].session, w.db.runs[r].key) in w.db.requests
    ensures w.db.requests[(w.db.runs[r].session, w.db.runs[r].key)] == r
  {
    hide RowsSound, WordsSound, RunsSound, CreateKeysSound, CancelsSound, HazardsSound;
    hide GoroutinesOk, InstancesOk, FenceOk, ExclusiveOk, HistoryOk, HazardsOk;
  }

  /** The same law for session creation: a key that created session s yields s for the same title, a
      conflict for another, and never a second session. */
  lemma {:induction false} CreateIsStable(steps: seq<Step>, more: seq<Step>, owner: OwnerHash, key: RequestKey, title: Digest, id: SessionId)
    requires (owner, key) in After(steps).db.createKeys
    ensures var db := After(steps).db; var later := After(steps + more).db; var s := db.createKeys[(owner, key)];
      && s in db.sessions && db.sessions[s].owner == owner
      && CreateTx(later, owner, key, title, id, Durable)
         == (later, if db.sessions[s].title == title then Created(s) else CreateConflict)
  {
    var w, later := After(steps), After(steps + more).db;
    hide After, Sound;
    RunKeeps(steps);
    HistoryGrows(steps, more);
    CreateKeysFact(w, owner, key);
    assert SessionGrows(w.db.sessions[w.db.createKeys[(owner, key)]], later.sessions[w.db.createKeys[(owner, key)]]);
  }

  // ---- cancellation ----

  /** A run whose cancellation is on record leaves that state in two ways only. Its own goroutine settles
      it, with Process not running: as cancelled, unless the executor's result carries the restart code,
      in which case as the executor asked. Or a restart recovers it as failed. */
  lemma {:induction false} CancelSettles(steps: seq<Step>, step: Step, r: RunId)
    requires r in After(steps).db.runs && After(steps).db.runs[r].state == CancelRequested
    ensures var w := After(steps); var w' := Do(w, step);
      && r in w'.db.runs
      && (|| w'.db.runs[r].state == CancelRequested
          || (&& step.FinishCommit? && step.run == r && step.i < |w.instances| && r in w.launched && w.launched[r] == step.i
              && r in w.instances[step.i].stage && w.instances[step.i].stage[r].Settling?
              && w'.db.runs[r].state == (if w.instances[step.i].stage[r].code == BridgeRestartInterrupted
                                         then w.instances[step.i].stage[r].asked else Cancelled))
          || (step.Reconcile? && w'.db.runs[r].state == Failed))
  {
    var w := After(steps);
    hide After, Inv, Sound, FinishTx;
    RunKeeps(steps);
    if step.FinishCommit? {
      if step.i < |w.instances| && step.run in w.instances[step.i].stage && w.instances[step.i].stage[step.run].Settling? && step.run in w.db.runs {
        var at := w.instances[step.i].stage[step.run];
        SettlingFact(w, step.i, step.run);
        FinishHolds(w.db, w.db.runs[step.run].session, step.run, at.asked, at.code, step.outcome, r);
      }
    } else if step.Reconcile? {
      if step.i < |w.instances| && w.instances[step.i].phase.Reconciling? && w.instances[step.i].phase.todo != [] {
        var x := w.instances[step.i].phase.todo[0];
        if x in w.db.runs {
          FinishHolds(w.db, w.db.runs[x].session, x, Failed, BridgeRestartInterrupted, step.outcome, r);
        }
      }
    } else if !step.ClearHazard? && !step.AdminClears? {
      hide Do;
      StepHolds(w, step, r);
    }
  }

  // The step commits the settling of r as completed, with the restart code.
  predicate CompletesWithRestartCode(w: World, step: Step, r: RunId) {
    && step.FinishCommit? && step.run == r && step.outcome != RolledBack
    && step.i < |w.instances| && r in w.instances[step.i].stage
    && w.instances[step.i].stage[r].Settling?
    && w.instances[step.i].stage[r].asked == Completed && w.instances[step.i].stage[r].code == BridgeRestartInterrupted
  }

  /** In every reachable state, a step turns a run with a cancellation on record into a completed one if and
      only if it commits that run's own completion and the executor's result carries the restart code. */
  lemma {:induction false} LateCompletionExactly(steps: seq<Step>, step: Step, r: RunId)
    requires r in After(steps).db.runs && After(steps).db.runs[r].state == CancelRequested
    ensures var w' := Do(After(steps), step);
      r in w'.db.runs && (w'.db.runs[r].state == Completed <==> CompletesWithRestartCode(After(steps), step, r))
  {
    hide After, Inv, Do;
    var w := After(steps);
    CancelSettles(steps, step, r);
    RunKeeps(steps);
    SessionOfRun(w, r);
    if step.FinishCommit? && step.run == r {
      SettlingSets(w, step, r);
    }
  }

  lemma {:induction false} SettlingSets(w: World, step: Step, r: RunId)
    requires step.FinishCommit? && step.run == r && r in w.db.runs && w.db.runs[r].session in w.db.sessions
    requires w.db.runs[r].state == CancelRequested
    ensures step.outcome == RolledBack ==> Do(w, step).db == w.db
    ensures CompletesWithRestartCode(w, step, r) ==> r in Do(w, step).db.runs && Do(w, step).db.runs[r].state == Completed
  {
    hide FinishRow, Leave, Goto;
    assert Do(w, step) == DoFinishCommit(w, step.i, r, step.outcome);
    hide Do;
  }

  lemma {:induction false} SessionOfRun(w: World, r: RunId)
    requires Inv(w) && r in w.db.runs
    ensures w.db.runs[r].session in w.db.sessions
  {
    hide GoroutinesOk, InstancesOk, FenceOk, ExclusiveOk, HistoryOk, HazardsOk;
  }
}
