/** Whole runs, step by step: an ordinary run from its message to its end, and what becomes of a run when it
    fails, is cancelled, runs out of time, loses its owner, or when a commit goes unreported; and a successor
    that takes over. */
module JournalRuns {
  import opened JournalTables
  import opened JournalWords
  import opened JournalSoundness
  import opened JournalProtocol
  import opened JournalInvariant
  import opened JournalTheorems
  import opened JournalPaths

  const FIRST_EVENTS := [MessageCreated, RunQueued, RunRunning, RunProgressed]

  // Run r of session s executes on its owner, with this log behind it.
  predicate Executes(w: World, i: InstanceId, s: SessionId, r: RunId, log: seq<Event>) {
    && Owns(w, i) && GoesAt(w, i, r, Executing, Live) && Stands(w.db, s, r, Running, log)
    && r in w.db.hazards && w.db.hazards[r] == OwnedBy(i)
  }

  function Queue(w: World, i: InstanceId, m: Message, run: RunId): World {
    Do(Do(w, AcceptProbe(i, true)), AcceptCommit(i, m, run, Durable))
  }

  function Dispatch(w: World, i: InstanceId, run: RunId): World {
    Do(Do(Do(w, StartProbe(i, run, true)), StartCommit(i, run, Durable)), CallProcess(i, run))
  }

  /** A welcome message leads to its execution: four events, the hazard of this instance, one call. */
  lemma {:induction false} MessageIsExecuted(w: World, i: InstanceId, m: Message, run: RunId)
    requires Inv(w) && Owns(w, i) && Welcome(w.db, i, m, run)
    ensures var w' := Dispatch(Queue(w, i, m, run), i, run);
      && Executes(w', i, m.session, run, Extended(w.db.sessions[m.session].log, run, FIRST_EVENTS))
      && w'.calls == w.calls + [run] && w'.live == w.live + {run}
  {
    hide Do, Stands, Owns, GoesAt, Inv, Welcome, Extended;
    assert m.session in w.db.sessions by { WelcomeSession(w.db, i, m, run); }
    var log := w.db.sessions[m.session].log;
    WelcomeIsAccepted(w, i, m, run);
    var w2 := Queue(w, i, m, run);
    var log2 := Extended(log, run, [MessageCreated, RunQueued]);
    ProbeDecides(w2, i, run, Live, true);
    var w3 := Do(w2, StartProbe(i, run, true));
    QueuedRunStarts(w3, i, run, m.session, log2, Live, Durable);
    StartKeepsOwner(w3, i, run);
    var w4 := Do(w3, StartCommit(i, run, Durable));
    DispatchDecides(w4, i, run, Live);
    CallKeepsOwner(w4, i, run);
    ExtendTwice(log, run, [MessageCreated, RunQueued], [RunRunning, RunProgressed]);
    assert [MessageCreated, RunQueued] + [RunRunning, RunProgressed] == FIRST_EVENTS;
  }

  lemma {:induction false} WelcomeSession(db: Tables, i: InstanceId, m: Message, run: RunId)
    requires Welcome(db, i, m, run)
    ensures m.session in db.sessions
  {
  }

  lemma {:induction false} StartKeepsOwner(w: World, i: InstanceId, r: RunId)
    ensures var w' := Do(w, StartCommit(i, r, Durable)); (Owns(w, i) ==> Owns(w', i)) && w'.live == w.live
  {
    hide StartTx, CanStart;
  }

  lemma {:induction false} CallKeepsOwner(w: World, i: InstanceId, r: RunId)
    requires Owns(w, i)
    ensures Owns(Do(w, CallProcess(i, r)), i)
  {
  }

  lemma {:induction false} ReturnKeepsOwner(w: World, i: InstanceId, r: RunId, result: ProcessResult)
    requires Owns(w, i)
    ensures Owns(Do(w, ProcessReturns(i, r, result)), i)
  {
  }

  // From the result of Process to the finish.
  function Settle(w: World, i: InstanceId, r: RunId, result: ProcessResult): World {
    Do(Do(w, ProcessReturns(i, r, result)), FinishCommit(i, r, Durable))
  }

  lemma {:induction false} OwnsOpen(w: World, i: InstanceId)
    requires Owns(w, i)
    ensures i < |w.instances| && !w.instances[i].ownershipLost && !w.instances[i].closed && w.instances[i].lockAlive
  {
  }

  lemma {:induction false} StandsFacts(db: Tables, s: SessionId, r: RunId, state: RunState, log: seq<Event>)
    requires Stands(db, s, r, state, log)
    ensures r in db.runs && db.runs[r].session == s && db.runs[r].state == state && s in db.sessions
  {
  }

  lemma {:induction false} FinishOf(w: World, i: InstanceId, s: SessionId, r: RunId, state: RunState, asked: RunState, code: FinishCode, last: bool, c: RunContext, log: seq<Event>, outcome: TxOutcome)
    requires GoesAt(w, i, r, Settling(asked, code, last), c) && Stands(w.db, s, r, state, log) && outcome != RolledBack
    requires asked == Completed || asked == Failed || asked == Cancelled
    ensures var w' := Do(w, FinishCommit(i, r, outcome));
      && (state == Queued || state == Running ==> Stands(w'.db, s, r, asked, Extended(log, r, EndEvents(asked))))
      && (state == CancelRequested && code == OtherCode ==> Stands(w'.db, s, r, Cancelled, Extended(log, r, [RunCancelled])))
      && (state == Completed || state == Failed || state == Cancelled ==> w'.db == w.db)
      && w'.db.hazards == w.db.hazards
  {
    FinishRecords(w.db, s, r, state, asked, code, outcome, log);
    DoFinishIs(w, i, r, outcome);
    hide Do, Extended, FinishTx;
  }

  /** A run that Process completed: completed in the journal, its log closed by the assistant's message and
      run.completed, its hazard cleared, its goroutine gone. */
  lemma {:induction false} CompletionIsRecorded(w: World, i: InstanceId, s: SessionId, r: RunId, log: seq<Event>, code: FinishCode)
    requires Executes(w, i, s, r, log)
    ensures var w' := Do(Settle(w, i, r, ProcessResult(true, code)), ClearHazard(i, r, Durable));
      && Stands(w'.db, s, r, Completed, Extended(log, r, [AssistantMessageCreated, RunCompleted]))
      && r !in w'.db.hazards && Gone(w', i, r) && Owns(w', i) && r !in w'.live && w'.calls == w.calls
  {
    hide Do, Stands, Extended;
    var result := ProcessResult(true, code);
    ResultDecides(w, i, r, Live, result);
    ReturnKeepsOwner(w, i, r, result);
    var w1 := Do(w, ProcessReturns(i, r, result));
    StandsFacts(w1.db, s, r, Running, log);
    FinishOf(w1, i, s, r, Running, Completed, code, false, Live, log, Durable);
    FinishMovesOn(w1, i, r, Completed, code, false, Live, Durable);
    OwnsOpen(w1, i);
    var w2 := Do(w1, FinishCommit(i, r, Durable));
    ClearingDecides(w2, i, r, Live, Durable);
    OwnsOpen(w2, i);
    ClearKeepsLive(w2, i, r);
    HazardsAside(w2.db, s, r, Completed, Extended(log, r, [AssistantMessageCreated, RunCompleted]), w2.db.hazards - {r});
  }

  lemma {:induction false} ClearKeepsLive(w: World, i: InstanceId, r: RunId)
    ensures Do(w, ClearHazard(i, r, Durable)).live == w.live
  {
    hide ClearHazardTx;
  }

  lemma {:induction false} HazardsAside(db: Tables, s: SessionId, r: RunId, state: RunState, log: seq<Event>, hazards: map<RunId, HazardOwner>)
    ensures Stands(db.(hazards := hazards), s, r, state, log) == Stands(db, s, r, state, log)
  {
  }

  /** From the message to the end: six events, one call, no hazard left, and the session is open again. */
  lemma {:induction false} OrdinaryRunCompletes(w: World, i: InstanceId, m: Message, run: RunId, code: FinishCode)
    requires Inv(w) && Owns(w, i) && Welcome(w.db, i, m, run)
    ensures var w' := Do(Settle(Dispatch(Queue(w, i, m, run), i, run), i, run, ProcessResult(true, code)), ClearHazard(i, run, Durable));
      && Stands(w'.db, m.session, run, Completed,
                Extended(w.db.sessions[m.session].log, run, FIRST_EVENTS + [AssistantMessageCreated, RunCompleted]))
      && run !in w'.db.hazards && Gone(w', i, run) && Owns(w', i) && w'.calls == w.calls + [run]
  {
    hide Do, Stands, Extended, Owns, Executes, Gone;
    MessageIsExecuted(w, i, m, run);
    assert m.session in w.db.sessions by { WelcomeSession(w.db, i, m, run); }
    hide Welcome, Inv;
    var log := w.db.sessions[m.session].log;
    CompletionIsRecorded(Dispatch(Queue(w, i, m, run), i, run), i, m.session, run, Extended(log, run, FIRST_EVENTS), code);
    ExtendTwice(log, run, FIRST_EVENTS, [AssistantMessageCreated, RunCompleted]);
  }

  /** A run that Process did not complete: failed in the journal, its hazard stays. */
  lemma {:induction false} FailureIsRecorded(w: World, i: InstanceId, s: SessionId, r: RunId, log: seq<Event>, code: FinishCode)
    requires Executes(w, i, s, r, log)
    ensures var w' := Settle(w, i, r, ProcessResult(false, code));
      && Stands(w'.db, s, r, Failed, Extended(log, r, [RunFailed])) && Gone(w', i, r)
      && r in w'.db.hazards && w'.db.hazards[r] == OwnedBy(i)
  {
    EndedRunIsRecorded(w, i, s, r, Running, log, Live, ProcessResult(false, code), Failed, code);
  }

  // A run that executes with context c, and is asked to end in a state other than completed.
  lemma {:induction false} EndedRunIsRecorded(w: World, i: InstanceId, s: SessionId, r: RunId, state: RunState, log: seq<Event>, c: RunContext,
                                              result: ProcessResult, asked: RunState, code: FinishCode)
    requires GoesAt(w, i, r, Executing, c) && Stands(w.db, s, r, state, log) && (state == Running || (state == CancelRequested && code == OtherCode))
    requires (c == Live && !result.completed && asked == Failed && code == result.code)
          || (c == ContextCancelled && asked == Cancelled && code == OtherCode)
          || (c == DeadlineExceeded && asked == Failed && code == OtherCode)
    ensures var w' := Settle(w, i, r, result);
      && (state == Running ==> Stands(w'.db, s, r, asked, Extended(log, r, EndEvents(asked))))
      && (state == CancelRequested ==> Stands(w'.db, s, r, Cancelled, Extended(log, r, [RunCancelled])))
      && w'.db.hazards == w.db.hazards && Gone(w', i, r) && w'.calls == w.calls
  {
    hide Do, Stands, Extended;
    ResultDecides(w, i, r, c, result);
    var w1 := Do(w, ProcessReturns(i, r, result));
    StandsFacts(w1.db, s, r, state, log);
    FinishOf(w1, i, s, r, state, asked, code, false, c, log, Durable);
    FinishMovesOn(w1, i, r, asked, code, false, c, Durable);
  }

  lemma {:induction false} ExecutesFacts(w: World, i: InstanceId, s: SessionId, r: RunId, log: seq<Event>)
    requires Executes(w, i, s, r, log)
    ensures i < |w.instances| && w.instances[i].phase == Serving && r in w.instances[i].active && w.instances[i].active[r] == Live
    ensures r in w.instances[i].stage && w.instances[i].stage[r] == Executing
    ensures r in w.db.runs && w.db.runs[r].session == s && w.db.runs[r].state == Running && s in w.db.sessions && w.db.sessions[s].log == log
    ensures r in w.db.hazards && w.db.hazards[r] == OwnedBy(i)
  {
  }

  // A reported cancel of a queued or running run that has a live context.
  lemma {:induction false} CancelOf(w: World, i: InstanceId, s: SessionId, r: RunId, key: RequestKey, state: RunState, stage: Stage)
    requires Inv(w) && i < |w.instances| && w.instances[i].phase == Serving && GoesAt(w, i, r, stage, Live) && KeyFor(w.db, s, r, key)
    requires r in w.db.runs && w.db.runs[r].session == s && w.db.runs[r].state == state && s in w.db.sessions && (state == Queued || state == Running)
    ensures var w' := Do(w, RequestCancel(i, w.db.sessions[s].owner, s, r, key, Durable));
      && CancelTx(w.db, w.db.sessions[s].owner, s, r, key, true, Durable).1 == CancelAnswered(CancelRequested)
      && GoesAt(w', i, r, stage, ContextCancelled) && w'.calls == w.calls && w'.db.hazards == w.db.hazards
      && Stands(w'.db, s, r, CancelRequested, Extended(w.db.sessions[s].log, r, [RunCancelRequested]))
  {
    hide Do, CancelTx, Extended, Inv, OnlyRun, Stands;
    CancelDoes(w, i, s, r, key);
    CancelKeepsHazards(w, i, w.db.sessions[s].owner, s, r, key);
  }

  /** A run cancelled while it executes: the cancel is answered cancel_requested and ends the context, and
      whatever Process hands back the run becomes cancelled; its hazard stays. */
  lemma {:induction false} CancelledRunEnds(w: World, i: InstanceId, s: SessionId, r: RunId, log: seq<Event>, key: RequestKey, result: ProcessResult)
    requires Inv(w) && Executes(w, i, s, r, log) && KeyFor(w.db, s, r, key)
    ensures s in w.db.sessions
    ensures var w1 := Do(w, RequestCancel(i, w.db.sessions[s].owner, s, r, key, Durable)); var w' := Settle(w1, i, r, result);
      && CancelTx(w.db, w.db.sessions[s].owner, s, r, key, true, Durable).1 == CancelAnswered(CancelRequested)
      && GoesAt(w1, i, r, Executing, ContextCancelled)
      && Stands(w'.db, s, r, Cancelled, Extended(log, r, [RunCancelRequested, RunCancelled])) && Gone(w', i, r)
      && r in w'.db.hazards && w'.db.hazards[r] == OwnedBy(i)
  {
    hide Do, Extended, Inv, CancelTx, Executes, Stands, Settle, GoesAt, Gone, KeyFor, Owns;
    ExecutesFacts(w, i, s, r, log);
    assert GoesAt(w, i, r, Executing, Live) by { ExecutesGoes(w, i, s, r, log); }
    CancelOf(w, i, s, r, key, Running, Executing);
    CancelledEnds(Do(w, RequestCancel(i, w.db.sessions[s].owner, s, r, key, Durable)), i, s, r, log, result);
  }

  lemma {:induction false} ExecutesGoes(w: World, i: InstanceId, s: SessionId, r: RunId, log: seq<Event>)
    requires Executes(w, i, s, r, log)
    ensures GoesAt(w, i, r, Executing, Live)
  {
  }

  lemma {:induction false} CancelledEnds(w: World, i: InstanceId, s: SessionId, r: RunId, log: seq<Event>, result: ProcessResult)
    requires GoesAt(w, i, r, Executing, ContextCancelled) && Stands(w.db, s, r, CancelRequested, Extended(log, r, [RunCancelRequested]))
    ensures var w' := Settle(w, i, r, result);
      && Stands(w'.db, s, r, Cancelled, Extended(log, r, [RunCancelRequested, RunCancelled])) && Gone(w', i, r)
      && w'.db.hazards == w.db.hazards
  {
    ExtendTwice(log, r, [RunCancelRequested], [RunCancelled]);
    assert [RunCancelRequested] + [RunCancelled] == [RunCancelRequested, RunCancelled];
    hide Extended, Stands, Settle;
    EndedRunIsRecorded(w, i, s, r, CancelRequested, Extended(log, r, [RunCancelRequested]), ContextCancelled, result, Cancelled, OtherCode);
  }

  /** A run cancelled before its start commits: never executed, and cancelled. */
  lemma {:induction false} CancelBeforeStart(w: World, i: InstanceId, s: SessionId, r: RunId, log: seq<Event>, key: RequestKey)
    requires Inv(w) && Owns(w, i) && GoesAt(w, i, r, Probed, Live) && Stands(w.db, s, r, Queued, log) && KeyFor(w.db, s, r, key)
    ensures s in w.db.sessions
    ensures var w' := Do(Do(Do(w, RequestCancel(i, w.db.sessions[s].owner, s, r, key, Durable)), StartCommit(i, r, Durable)), FinishCommit(i, r, Durable));
      && Stands(w'.db, s, r, Cancelled, Extended(log, r, [RunCancelRequested, RunCancelled])) && Gone(w', i, r) && w'.calls == w.calls
      && w'.db.hazards == w.db.hazards
  {
    hide Do, Extended, Inv, CancelTx, Stands, GoesAt, Gone, KeyFor;
    assert s in w.db.sessions && r in w.db.runs && w.db.sessions[s].log == log && w.db.runs[r].session == s && w.db.runs[r].state == Queued by {
      StandsLog(w.db, s, r, Queued, log);
    }
    assert i < |w.instances| && w.instances[i].phase == Serving;
    hide Owns;
    CancelOf(w, i, s, r, key, Queued, Probed);
    CancelledIsNotStarted(Do(w, RequestCancel(i, w.db.sessions[s].owner, s, r, key, Durable)), i, s, r, log);
  }

  lemma {:induction false} StandsLog(db: Tables, s: SessionId, r: RunId, state: RunState, log: seq<Event>)
    requires Stands(db, s, r, state, log)
    ensures s in db.sessions && r in db.runs && db.sessions[s].log == log && db.runs[r].session == s && db.runs[r].state == state
  {
  }

  lemma {:induction false} CancelledIsNotStarted(w: World, i: InstanceId, s: SessionId, r: RunId, log: seq<Event>)
    requires GoesAt(w, i, r, Probed, ContextCancelled) && Stands(w.db, s, r, CancelRequested, Extended(log, r, [RunCancelRequested]))
    ensures var w' := Do(Do(w, StartCommit(i, r, Durable)), FinishCommit(i, r, Durable));
      && Stands(w'.db, s, r, Cancelled, Extended(log, r, [RunCancelRequested, RunCancelled])) && Gone(w', i, r) && w'.calls == w.calls
      && w'.db.hazards == w.db.hazards
  {
    ExtendTwice(log, r, [RunCancelRequested], [RunCancelled]);
    assert [RunCancelRequested] + [RunCancelled] == [RunCancelRequested, RunCancelled];
    var log1 := Extended(log, r, [RunCancelRequested]);
    StandsFacts(w.db, s, r, CancelRequested, log1);
    hide Do, Extended, Stands;
    OthersDoNotStart(w, i, r, ContextCancelled, Durable);
    var w2 := Do(w, StartCommit(i, r, Durable));
    StartOnlyMoves(w, i, r);
    FinishOf(w2, i, s, r, CancelRequested, Failed, OtherCode, true, ContextCancelled, log1, Durable);
    FinishMovesOn(w2, i, r, Failed, OtherCode, true, ContextCancelled, Durable);
  }

  lemma {:induction false} CancelKeepsHazards(w: World, i: InstanceId, owner: OwnerHash, s: SessionId, r: RunId, key: RequestKey)
    ensures Do(w, RequestCancel(i, owner, s, r, key, Durable)).db.hazards == w.db.hazards
  {
    if i < |w.instances| {
      CancelTxKeepsHazards(w.db, owner, s, r, key, r in w.instances[i].active);
    }
    hide CancelTx;
  }

  lemma {:induction false} CancelTxKeepsHazards(db: Tables, owner: OwnerHash, s: SessionId, r: RunId, key: RequestKey, hasContext: bool)
    ensures CancelTx(db, owner, s, r, key, hasContext, Durable).0.hazards == db.hazards
  {
    hide CancelRow;
  }

  lemma {:induction false} StartOnlyMoves(w: World, i: InstanceId, r: RunId)
    ensures Do(w, StartCommit(i, r, Durable)).calls == w.calls
  {
    hide StartTx, CanStart;
  }

  /** A run out of time: failed, its hazard stays. */
  lemma {:induction false} DeadlineFails(w: World, i: InstanceId, s: SessionId, r: RunId, log: seq<Event>, result: ProcessResult)
    requires Executes(w, i, s, r, log)
    ensures var w' := Settle(Do(w, Deadline(i, r)), i, r, result);
      Stands(w'.db, s, r, Failed, Extended(log, r, [RunFailed])) && Gone(w', i, r) && r in w'.db.hazards
  {
    var w1 := Do(w, Deadline(i, r));
    assert GoesAt(w1, i, r, Executing, DeadlineExceeded) && w1.db == w.db;
    hide Do, Extended;
    EndedRunIsRecorded(w1, i, s, r, Running, log, DeadlineExceeded, result, Failed, OtherCode);
  }

  // Every context of instance i has ended, and it neither owns nor accepts.
  predicate Stopping(w: World, i: InstanceId) {
    && i < |w.instances| && (w.instances[i].ownershipLost || w.instances[i].closed)
    && forall r :: r in w.instances[i].active ==> w.instances[i].active[r] != Live
  }

  /** Losing the lock, noticed, or closing, ends every context for good: a run under execution is recorded as
      cancelled and keeps its hazard, and no probe lets the instance accept or start again. */
  lemma {:induction false} LossEndsRuns(w: World, i: InstanceId, s: SessionId, r: RunId, log: seq<Event>, result: ProcessResult, closing: bool, answered: bool)
    requires Executes(w, i, s, r, log)
    ensures var w1 := Do(Do(w, LoseLock(i)), if closing then BeginClose(i) else NoticeLoss(i)); var w' := Settle(w1, i, r, result);
      && Stopping(w1, i) && !w1.instances[i].lockAlive && GoesAt(w1, i, r, Executing, ContextCancelled) && w1.db == w.db
      && Do(w1, AcceptProbe(i, answered)) == w1
      && Stands(w'.db, s, r, Cancelled, Extended(log, r, [RunCancelled])) && Gone(w', i, r) && r in w'.db.hazards && w'.db.hazards[r] == OwnedBy(i)
  {
    var w1 := Do(Do(w, LoseLock(i)), if closing then BeginClose(i) else NoticeLoss(i));
    assert GoesAt(w1, i, r, Executing, ContextCancelled) && w1.db == w.db && Stopping(w1, i) && !w1.instances[i].lockAlive;
    assert Do(w1, AcceptProbe(i, answered)) == w1;
    hide Do, Extended;
    EndedRunIsRecorded(w1, i, s, r, Running, log, ContextCancelled, result, Cancelled, OtherCode);
  }

  /** A probe for a new message on a dead connection loses ownership at once. */
  lemma {:induction false} DeadProbeLoses(w: World, i: InstanceId, answered: bool)
    requires i < |w.instances| && w.instances[i].phase == Serving && !w.instances[i].ownershipLost && !w.instances[i].closed
    requires !answered || !w.instances[i].lockAlive
    ensures var w' := Do(w, AcceptProbe(i, answered)); Stopping(w', i) && w'.instances[i].accepting == w.instances[i].accepting && w'.db == w.db
  {
  }

  /** A start whose commit goes unreported: running on record, but never executed and settled as failed. */
  lemma {:induction false} UnreportedStartFails(w: World, i: InstanceId, s: SessionId, r: RunId, log: seq<Event>, c: RunContext)
    requires GoesAt(w, i, r, Probed, c) && Stands(w.db, s, r, Queued, log) && r !in w.db.hazards
    ensures var w' := Do(Do(w, StartCommit(i, r, Unreported)), FinishCommit(i, r, Durable));
      && Stands(w'.db, s, r, Failed, Extended(log, r, [RunRunning, RunProgressed, RunFailed])) && Gone(w', i, r)
      && w'.calls == w.calls && r in w'.db.hazards && w'.db.hazards[r] == OwnedBy(i)
  {
    QueuedRunStarts(w, i, r, s, log, c, Unreported);
    ExtendTwice(log, r, [RunRunning, RunProgressed], [RunFailed]);
    assert [RunRunning, RunProgressed] + [RunFailed] == [RunRunning, RunProgressed, RunFailed];
    var w1 := Do(w, StartCommit(i, r, Unreported));
    hide Do, Extended;
    FinishOf(w1, i, s, r, Running, Failed, OtherCode, true, c, Extended(log, r, [RunRunning, RunProgressed]), Durable);
    FinishMovesOn(w1, i, r, Failed, OtherCode, true, c, Durable);
  }

  /** A completion whose commit goes unreported, or whose hazard cannot be cleared, stays a completion: the
      second finish finds it ended. Its hazard stays for the administrator. */
  lemma {:induction false} UnreportedCompletionStays(w: World, i: InstanceId, s: SessionId, r: RunId, log: seq<Event>, code: FinishCode)
    requires Executes(w, i, s, r, log)
    ensures var w1 := Do(w, ProcessReturns(i, r, ProcessResult(true, code)));
      var w' := Do(Do(w1, FinishCommit(i, r, Unreported)), FinishCommit(i, r, Durable));
      Stands(w'.db, s, r, Completed, Extended(log, r, [AssistantMessageCreated, RunCompleted])) && Gone(w', i, r) && r in w'.db.hazards
    ensures var w' := Do(Do(Settle(w, i, r, ProcessResult(true, code)), ClearHazard(i, r, RolledBack)), FinishCommit(i, r, Durable));
      && Stands(w'.db, s, r, Completed, Extended(log, r, [AssistantMessageCreated, RunCompleted])) && Gone(w', i, r) && r in w'.db.hazards
      && w'.instances[i].ownershipLost
  {
    hide Do, Stands, Extended;
    var result := ProcessResult(true, code);
    var ended := Extended(log, r, [AssistantMessageCreated, RunCompleted]);
    ResultDecides(w, i, r, Live, result);
    ReturnKeepsOwner(w, i, r, result);
    var w1 := Do(w, ProcessReturns(i, r, result));
    StandsFacts(w1.db, s, r, Running, log);
    OwnsOpen(w1, i);
    FinishOf(w1, i, s, r, Running, Completed, code, false, Live, log, Unreported);
    FinishMovesOn(w1, i, r, Completed, code, false, Live, Unreported);
    var w2 := Do(w1, FinishCommit(i, r, Unreported));
    StandsFacts(w2.db, s, r, Completed, ended);
    FinishOf(w2, i, s, r, Completed, Failed, OtherCode, true, Live, ended, Durable);
    FinishMovesOn(w2, i, r, Failed, OtherCode, true, Live, Durable);
    FinishOf(w1, i, s, r, Running, Completed, code, false, Live, log, Durable);
    FinishMovesOn(w1, i, r, Completed, code, false, Live, Durable);
    var v2 := Do(w1, FinishCommit(i, r, Durable));
    ClearingDecides(v2, i, r, Live, RolledBack);
    var v3 := Do(v2, ClearHazard(i, r, RolledBack));
    StandsFacts(v3.db, s, r, Completed, ended);
    FinishOf(v3, i, s, r, Completed, Failed, OtherCode, true, ContextCancelled, ended, Durable);
    FinishMovesOn(v3, i, r, Failed, OtherCode, true, ContextCancelled, Durable);
    FinishKeepsLoss(v3, i, r);
  }

  lemma {:induction false} FinishKeepsLoss(w: World, i: InstanceId, r: RunId)
    requires i < |w.instances|
    ensures Do(w, FinishCommit(i, r, Durable)).instances[i].ownershipLost == w.instances[i].ownershipLost
  {
    hide FinishTx;
  }

  // ---- hazards and the administrator ----

  /** The administrator clears exactly the one hazard, once the execution has stopped and no goroutine of the
      run is left. */
  lemma {:induction false} AdministratorClears(w: World, h: RunId)
    requires h !in w.live && !HasGoroutine(w, h)
    ensures Do(w, AdminClears(h)) == w.(db := w.db.(hazards := w.db.hazards - {h}))
  {
  }

  // ---- a successor ----

  function Recover(w: World, n: InstanceId, k: nat): World
    decreases k
  {
    if k == 0 then w else Recover(Do(w, Reconcile(n, Durable)), n, k - 1)
  }

  lemma {:induction false} OneActiveRun(w: World, x: RunId, r: RunId)
    requires Inv(w) && x in w.db.runs && r in w.db.runs && IsActive(w.db.runs[x].state) && IsActive(w.db.runs[r].state)
    requires w.db.runs[x].session == w.db.runs[r].session
    ensures x == r
  {
    InvParts(w);
    ActiveIsLast(w.db, w.started, x);
    ActiveIsLast(w.db, w.started, r);
    hide Inv, Sound, WordsOf, Write, Faithful, GoroutinesOk, InstancesOk;
  }

  /** Restart recovery: whatever the active state, even with a cancellation on record, the run becomes failed. */
  lemma {:induction false} FinishRecordsRestart(db: Tables, s: SessionId, r: RunId, state: RunState, log: seq<Event>)
    requires Stands(db, s, r, state, log) && (state == Queued || state == Running || state == CancelRequested)
    ensures var after := FinishTx(db, s, r, Failed, BridgeRestartInterrupted, Durable).0;
      && Stands(after, s, r, Failed, Extended(log, r, [RunFailed])) && after.runs == db.runs[r := db.runs[r].(state := Failed)]
      && after.sessions.Keys == db.sessions.Keys && (forall t :: t in db.sessions && t != s ==> after.sessions[t] == db.sessions[t])
      && after.hazards == db.hazards
  {
    FinishRowExtends(db.sessions[s], r, Failed);
    hide FinishRow, Extended;
  }

  lemma {:induction false} ReconcileIs(w: World, n: InstanceId, todo: seq<RunId>)
    requires n < |w.instances| && w.instances[n].phase == Reconciling(todo) && todo != [] && todo[0] in w.db.runs
    requires w.db.runs[todo[0]].session in w.db.sessions
    ensures var w' := Do(w, Reconcile(n, Durable));
      && w'.db == FinishTx(w.db, w.db.runs[todo[0]].session, todo[0], Failed, BridgeRestartInterrupted, Durable).0
      && |w'.instances| == |w.instances| && w'.instances[n] == w.instances[n].(phase := Reconciling(todo[1..]))
  {
    hide FinishRow;
  }

  // One recovery: an active run becomes failed, its session's log one event longer; nothing else changes.
  lemma {:induction false} RecoverOne(w: World, n: InstanceId, todo: seq<RunId>)
    requires Inv(w) && n < |w.instances| && w.instances[n].phase == Reconciling(todo) && todo != [] && todo[0] in w.db.runs
    ensures var w', x := Do(w, Reconcile(n, Durable)), todo[0]; var s := w.db.runs[x].session;
      && |w'.instances| == |w.instances| && w'.instances[n] == w.instances[n].(phase := Reconciling(todo[1..]))
      && s in w.db.sessions && w'.db.hazards == w.db.hazards
      && (!IsActive(w.db.runs[x].state) ==> w'.db == w.db)
      && (IsActive(w.db.runs[x].state) ==>
            && w'.db.runs == w.db.runs[x := w.db.runs[x].(state := Failed)]
            && Stands(w'.db, s, x, Failed, Extended(w.db.sessions[s].log, x, [RunFailed]))
            && w'.db.sessions.Keys == w.db.sessions.Keys && (forall t :: t in w.db.sessions && t != s ==> w'.db.sessions[t] == w.db.sessions[t]))
  {
    hide Do, Inv, Extended, FinishTx, Stands;
    var x := todo[0];
    SessionOfRun(w, x);
    ReconcileIs(w, n, todo);
    if IsActive(w.db.runs[x].state) {
      ActiveStands(w, x);
      FinishRecordsRestart(w.db, w.db.runs[x].session, x, w.db.runs[x].state, w.db.sessions[w.db.runs[x].session].log);
    } else {
      EndedStays(w.db, x);
    }
  }

  lemma {:induction false} EndedStays(db: Tables, x: RunId)
    requires x in db.runs && !IsActive(db.runs[x].state)
    ensures FinishTx(db, db.runs[x].session, x, Failed, BridgeRestartInterrupted, Durable).0 == db
  {
  }

  predicate NoneActive(db: Tables, s: SessionId) {
    forall x :: x in db.runs && db.runs[x].session == s ==> !IsActive(db.runs[x].state)
  }

  // Session s with its one active run r, or with none.
  predicate AtMost(db: Tables, s: SessionId, r: RunId) {
    forall x :: x in db.runs && x != r && db.runs[x].session == s ==> !IsActive(db.runs[x].state)
  }

  // Recovering every run of todo fails r if it is active and listed; its session gets exactly that event.
  lemma {:induction false} RecoverSettles(w: World, n: InstanceId, todo: seq<RunId>, s: SessionId, r: RunId)
    requires Inv(w) && n < |w.instances| && w.instances[n].phase == Reconciling(todo) && (forall k :: 0 <= k < |todo| ==> todo[k] in w.db.runs)
    requires r in w.db.runs && w.db.runs[r].session == s && s in w.db.sessions && AtMost(w.db, s, r)
    ensures var w' := Recover(w, n, |todo|);
      && |w'.instances| == |w.instances| && w'.instances[n] == w.instances[n].(phase := Reconciling([]))
      && w'.db.hazards == w.db.hazards && w'.db.runs.Keys == w.db.runs.Keys
      && w'.db.runs[r] == w.db.runs[r].(state := if r in todo && IsActive(w.db.runs[r].state) then Failed else w.db.runs[r].state)
      && s in w'.db.sessions
      && (if r in todo && IsActive(w.db.runs[r].state) then Stands(w'.db, s, r, Failed, Extended(w.db.sessions[s].log, r, [RunFailed]))
          else w'.db.sessions[s] == w.db.sessions[s])
    decreases |todo|
  {
    hide Do, Inv, Extended;
    if todo != [] {
      RecoverOne(w, n, todo);
      StepKeeps(w, Reconcile(n, Durable));
      RecoverSettles(Do(w, Reconcile(n, Durable)), n, todo[1..], s, r);
    }
  }

  // A new instance takes the free lock, lays the fence, scans the active runs, recovers them, and serves.
  function TakeOver(w: World, todo: seq<RunId>): World {
    var n := |w.instances|;
    Do(Recover(Do(Do(Do(w, Boot), LegacyFence(n, Durable)), ScanActive(n, todo)), n, |todo|), Serve(n))
  }

  lemma {:induction false} BootAndScan(w: World, todo: seq<RunId>)
    requires forall i :: 0 <= i < |w.instances| ==> !w.instances[i].lockAlive
    requires forall r :: r in todo <==> r in w.db.runs && IsActive(w.db.runs[r].state)
    ensures var n := |w.instances|; var w' := Do(Do(Do(w, Boot), LegacyFence(n, Durable)), ScanActive(n, todo));
      && |w'.instances| == n + 1 && w'.instances[n] == NewInstance.(phase := Reconciling(todo), fenced := true)
      && w'.db.runs == w.db.runs && w'.db.sessions == w.db.sessions
      && (forall r :: r in w'.db.hazards <==> r in w.db.hazards || r in todo)
      && (forall r :: r in w.db.hazards ==> w'.db.hazards[r] == w.db.hazards[r])
  {
    assert Do(w, Boot).instances == w.instances + [NewInstance];
  }

  /** The scan takes exactly the active runs: no other list is taken. */
  lemma {:induction false} ScanTakesActive(w: World, i: InstanceId, todo: seq<RunId>, r: RunId)
    requires (r in todo) != (r in w.db.runs && (w.db.runs[r].state == Queued || w.db.runs[r].state == Running || w.db.runs[r].state == CancelRequested))
    ensures Do(w, ScanActive(i, todo)) == w
  {
    if r in todo {
      var k :| 0 <= k < |todo| && todo[k] == r;
    }
  }

  lemma {:induction false} ServeIs(w: World, n: InstanceId)
    requires n < |w.instances| && w.instances[n].phase == Reconciling([])
    ensures Do(w, Serve(n)) == Put(w, n, w.instances[n].(phase := Serving))
  {
  }

  /** A successor takes over: when no lock is held, a new instance comes to serve; every active run is then
      failed, with exactly that event, and keeps or gets a hazard; a run that had ended is as it was. */
  lemma {:induction false} SuccessorTakesOver(w: World, todo: seq<RunId>, r: RunId)
    requires Inv(w) && r in w.db.runs && (forall i :: 0 <= i < |w.instances| ==> !w.instances[i].lockAlive)
    requires forall x :: x in todo <==> x in w.db.runs && IsActive(w.db.runs[x].state)
    ensures var w', n, s := TakeOver(w, todo), |w.instances|, w.db.runs[r].session; var state := w.db.runs[r].state;
      && Owns(w', n) && s in w.db.sessions && r in w'.db.runs
      && (state == Queued || state == Running || state == CancelRequested ==>
            && Stands(w'.db, s, r, Failed, Extended(w.db.sessions[s].log, r, [RunFailed])) && r in w'.db.hazards)
      && (state == Completed || state == Failed || state == Cancelled ==> w'.db.runs[r] == w.db.runs[r])
      && (r in w.db.hazards ==> r in w'.db.hazards && w'.db.hazards[r] == w.db.hazards[r])
      && (r in w'.db.hazards ==> r in w.db.hazards || state == Queued || state == Running || state == CancelRequested)
  {
    var n := |w.instances|;
    hide Do, Inv, Extended, Stands;
    BootAndScan(w, todo);
    var w1 := Do(Do(Do(w, Boot), LegacyFence(n, Durable)), ScanActive(n, todo));
    StepKeeps(w, Boot);
    StepKeeps(Do(w, Boot), LegacyFence(n, Durable));
    StepKeeps(Do(Do(w, Boot), LegacyFence(n, Durable)), ScanActive(n, todo));
    SessionOfRun(w, r);
    var s := w.db.runs[r].session;
    if IsActive(w.db.runs[r].state) {
      forall x | x in w.db.runs && x != r && w.db.runs[x].session == s ensures !IsActive(w.db.runs[x].state) {
        if IsActive(w.db.runs[x].state) {
          OneActiveRun(w, x, r);
        }
      }
      RecoverSettles(w1, n, todo, s, r);
    } else {
      RecoverLeaves(w1, n, todo, r);
    }
    ServeIs(Recover(w1, n, |todo|), n);
  }

  // A run that has ended is left alone, whatever else is recovered.
  lemma {:induction false} RecoverLeaves(w: World, n: InstanceId, todo: seq<RunId>, r: RunId)
    requires Inv(w) && n < |w.instances| && w.instances[n].phase == Reconciling(todo) && (forall k :: 0 <= k < |todo| ==> todo[k] in w.db.runs)
    requires r in w.db.runs && !IsActive(w.db.runs[r].state)
    ensures var w' := Recover(w, n, |todo|);
      && |w'.instances| == |w.instances| && w'.instances[n] == w.instances[n].(phase := Reconciling([]))
      && w'.db.hazards == w.db.hazards && r in w'.db.runs && w'.db.runs[r] == w.db.runs[r]
    decreases |todo|
  {
    hide Do, Inv, Extended, Stands;
    if todo != [] {
      RecoverOne(w, n, todo);
      StepKeeps(w, Reconcile(n, Durable));
      RecoverLeaves(Do(w, Reconcile(n, Durable)), n, todo[1..], r);
    }
  }
}
