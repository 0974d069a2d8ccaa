/** What the journal records on given paths, in plain words: for each operation the states, events, replies,
    contexts and hazards that follow, and whole runs from acceptance to their end.

    Nothing here is said through the transaction functions: the logs and states are spelled out. */
module JournalPaths {
  import opened JournalTables
  import opened JournalWords
  import opened JournalSoundness
  import opened JournalProtocol
  import opened JournalInvariant
  import opened JournalGrowth
  import opened JournalTheorems

  // The log with these kinds of event of one run added, numbered on.
  function Extended(log: seq<Event>, run: RunId, kinds: seq<EventKind>): seq<Event> {
    log + seq(|kinds|, k requires 0 <= k < |kinds| => Event(|log| + k + 1, run, kinds[k]))
  }

  lemma {:induction false} ExtendTwice(log: seq<Event>, run: RunId, a: seq<EventKind>, b: seq<EventKind>)
    ensures Extended(Extended(log, run, a), run, b) == Extended(log, run, a + b)
  {
  }

  // Nothing but session s, run r and r's hazard differs.
  ghost predicate OnlyRun(db: Tables, after: Tables, s: SessionId, r: RunId) {
    && after.sessions.Keys == db.sessions.Keys && (forall t :: t in db.sessions && t != s ==> after.sessions[t] == db.sessions[t])
    && after.runs.Keys == db.runs.Keys && (forall x :: x in db.runs && x != r ==> after.runs[x] == db.runs[x])
    && (forall h :: h != r ==> (h in after.hazards <==> h in db.hazards) && (h in db.hazards ==> after.hazards[h] == db.hazards[h]))
    && after.requests == db.requests && after.createKeys == db.createKeys
  }

  // Session s of run r stands at this state with this log.
  predicate Stands(db: Tables, s: SessionId, r: RunId, state: RunState, log: seq<Event>) {
    && r in db.runs && db.runs[r].session == s && db.runs[r].state == state
    && s in db.sessions && db.sessions[s].runState == state && db.sessions[s].log == log && db.sessions[s].eventSeq == |log|
  }

  // The goroutine of r on instance i is at this stage, with this context.
  predicate GoesAt(w: World, i: InstanceId, r: RunId, stage: Stage, c: RunContext) {
    && i < |w.instances| && r in w.instances[i].stage && w.instances[i].stage[r] == stage
    && r in w.instances[i].active && w.instances[i].active[r] == c
  }

  predicate Gone(w: World, i: InstanceId, r: RunId) {
    i < |w.instances| && r !in w.instances[i].stage && r !in w.instances[i].active
  }

  // Instance i serves, is open, and holds the lock.
  predicate Owns(w: World, i: InstanceId) {
    && i < |w.instances| && w.instances[i].phase == Serving && w.instances[i].lockAlive
    && !w.instances[i].ownershipLost && !w.instances[i].closed
  }

  // A row with its counter at the end of its log.
  predicate Counted(row: Session, state: RunState, log: seq<Event>) {
    row.log == log && row.runState == state && row.eventSeq == |log|
  }

  lemma {:induction false} AcceptRowExtends(row: Session, r: RunId)
    requires row.eventSeq == |row.log|
    ensures Counted(AcceptRow(row, r), Queued, Extended(row.log, r, [MessageCreated, RunQueued]))
    ensures AcceptRow(row, r).owner == row.owner && AcceptRow(row, r).title == row.title
  {
  }

  lemma {:induction false} StartRowExtends(row: Session, r: RunId)
    requires row.eventSeq == |row.log|
    ensures Counted(StartRow(row, r), Running, Extended(row.log, r, [RunRunning, RunProgressed]))
  {
  }

  lemma {:induction false} CancelRowExtends(row: Session, r: RunId)
    requires row.eventSeq == |row.log|
    ensures Counted(CancelRow(row, r), CancelRequested, Extended(row.log, r, [RunCancelRequested]))
  {
  }

  lemma {:induction false} FinishRowExtends(row: Session, r: RunId, asked: RunState)
    requires row.eventSeq == |row.log| && (asked == Completed || asked == Failed || asked == Cancelled)
    ensures Counted(FinishRow(row, r, asked), asked, Extended(row.log, r, EndEvents(asked)))
  {
  }

  // The events a run ends with.
  function EndEvents(asked: RunState): seq<EventKind> {
    match asked
    case Completed => [AssistantMessageCreated, RunCompleted]
    case Cancelled => [RunCancelled]
    case _ => [RunFailed]
  }

  // ---- accepting ----

  // A message of a known session of its owner, under a new key, on a journal that lets it in: every hazard
  // belongs to this instance and to an active run of another session, and the session's runs have ended.
  predicate Welcome(db: Tables, self: InstanceId, m: Message, run: RunId) {
    && m.session in db.sessions && db.sessions[m.session].owner == m.owner
    && (forall r :: r in db.runs && db.runs[r].session == m.session ==>
          db.runs[r].key != m.key && (db.runs[r].state == Completed || db.runs[r].state == Failed || db.runs[r].state == Cancelled))
    && (forall h :: h in db.hazards ==> db.hazards[h] == OwnedBy(self) && h in db.runs && db.runs[h].session != m.session)
    && run !in db.runs
  }

  /** Exactly the welcome messages are admitted as new runs. */
  lemma {:induction false} WelcomeIsAdmitted(w: World, self: InstanceId, m: Message, run: RunId)
    requires Inv(w)
    ensures Admits(w.db, self, m, run) <==> Welcome(w.db, self, m, run)
    ensures Welcome(w.db, self, m, run) ==> run !in w.db.hazards && w.db.sessions[m.session].eventSeq == |w.db.sessions[m.session].log|
  {
    hide Inv, Admits, Welcome;
    if m.session in w.db.sessions {
      RowCounts(w, m.session);
    }
    forall r | r in w.db.runs ensures w.db.runs[r].state != Idle {
      RunStates(w, r);
    }
    InvIndexes(w);
    AdmitsWelcome(w.db, self, m, run);
  }

  lemma {:induction false} InvIndexes(w: World)
    requires Inv(w)
    ensures RequestsSound(w.db) && forall h :: h in w.db.hazards ==> h in w.db.runs
  {
    hide GoroutinesOk, InstancesOk, FenceOk, ExclusiveOk, HistoryOk, HazardsOk, WordsOf, Write, RowsSound, WordsSound, RunsSound, ReceiptsSound, CreateKeysSound, CancelsSound;
  }

  lemma {:induction false} AdmitsWelcome(db: Tables, self: InstanceId, m: Message, run: RunId)
    requires RequestsSound(db) && (forall h :: h in db.hazards ==> h in db.runs) && forall r :: r in db.runs ==> db.runs[r].state != Idle
    ensures Admits(db, self, m, run) <==> Welcome(db, self, m, run)
    ensures Welcome(db, self, m, run) ==> run !in db.hazards && m.session in db.sessions
  {
    if Admits(db, self, m, run) {
      forall h | h in db.hazards ensures db.hazards[h] == OwnedBy(self) && db.runs[h].session != m.session {
        assert !IsActive(db.runs[h].state) || db.runs[h].session != m.session;
      }
    }
  }

  // The receipt of a message accepted as run.
  function ReceiptOf(w: World, m: Message, run: RunId): Receipt
    requires m.session in w.db.sessions
  {
    Receipt(m.session, run, |w.db.sessions[m.session].log| + 1, |w.db.sessions[m.session].log| + 3)
  }

  lemma {:induction false} AcceptRecords(db: Tables, self: InstanceId, m: Message, run: RunId, outcome: TxOutcome)
    requires Admits(db, self, m, run) && db.sessions[m.session].eventSeq == |db.sessions[m.session].log| && outcome != RolledBack
    ensures var (after, reply) := AcceptTx(db, self, m, run, outcome);
      var n := |db.sessions[m.session].log|;
      && run in after.runs && after.runs[run] == Run(m.session, m.key, m.digest, Receipt(m.session, run, n + 1, n + 3), Queued)
      && Stands(after, m.session, run, Queued, Extended(db.sessions[m.session].log, run, [MessageCreated, RunQueued]))
      && after.sessions[m.session].owner == m.owner && after.sessions[m.session].title == db.sessions[m.session].title
      && after.hazards == db.hazards && after.cancels == db.cancels && after.createKeys == db.createKeys
      && (forall t :: t in db.sessions && t != m.session ==> t in after.sessions && after.sessions[t] == db.sessions[t])
      && (forall x :: x in db.runs ==> x in after.runs && after.runs[x] == db.runs[x])
      && reply == if outcome == Unreported then Unconfirmed
                  else Accepted(Receipt(m.session, run, n + 1, n + 3),
                                if exists r :: r in db.runs && db.runs[r].session == m.session then SessionMessage else SessionStart)
  {
    AcceptRowExtends(db.sessions[m.session], run);
    hide AcceptRow, Extended, NeedsRecovery, HasActiveRun;
  }

  /** A welcome message is accepted by an owning instance: the run is queued with its two events, its
      goroutine starts with a live context, and nothing else changes. */
  lemma {:induction false} WelcomeIsAccepted(w: World, i: InstanceId, m: Message, run: RunId)
    requires Inv(w) && Owns(w, i) && Welcome(w.db, i, m, run)
    ensures var w' := Do(Do(w, AcceptProbe(i, true)), AcceptCommit(i, m, run, Durable));
      && Owns(w', i) && GoesAt(w', i, run, Starting, Live) && run !in w'.db.hazards && w'.calls == w.calls && w'.live == w.live
      && Stands(w'.db, m.session, run, Queued, Extended(w.db.sessions[m.session].log, run, [MessageCreated, RunQueued]))
  {
    hide AcceptTx, Inv, Welcome, Admits, Extended, Do, Stands;
    WelcomeIsAdmitted(w, i, m, run);
    AcceptRecords(w.db, i, m, run, Durable);
    ProbeAccepts(w, i);
    CommitLaunches(Do(w, AcceptProbe(i, true)), i, m, run);
  }

  lemma {:induction false} ProbeAccepts(w: World, i: InstanceId)
    requires Owns(w, i)
    ensures Do(w, AcceptProbe(i, true)) == Put(w, i, w.instances[i].(accepting := true))
  {
  }

  lemma {:induction false} CommitLaunches(w: World, i: InstanceId, m: Message, run: RunId)
    requires Owns(w, i) && w.instances[i].accepting && AcceptTx(w.db, i, m, run, Durable).1.Accepted?
    ensures var w' := Do(w, AcceptCommit(i, m, run, Durable));
      && w'.db == AcceptTx(w.db, i, m, run, Durable).0 && Owns(w', i) && GoesAt(w', i, run, Starting, Live)
      && w'.calls == w.calls && w'.live == w.live
  {
    hide AcceptTx;
  }

  // ---- replay, from the message ----

  /** A message accepted once, or committed with the commit unreported, is answered with that run's receipt
      whenever it is sent again, to any instance and after any further steps; the same owner, session and key
      with another content is a conflict; and neither changes anything. */
  lemma {:induction false} SameMessageSameReceipt(steps: seq<Step>, i: InstanceId, m: Message, run: RunId, outcome: TxOutcome, more: seq<Step>,
                                                  j: InstanceId, digest: Digest, newRun: RunId, again: TxOutcome)
    requires i < |After(steps).instances| && After(steps).instances[i].accepting && again != RolledBack
    requires var reply := AcceptTx(After(steps).db, i, m, run, outcome).1; reply.Accepted? || reply.Unconfirmed?
    ensures var later := After(steps + [AcceptCommit(i, m, run, outcome)] + more).db;
      && m.session in After(steps).db.sessions
      && AcceptTx(later, j, m, newRun, again) == (later, Replayed(ReceiptOf(After(steps), m, run)))
      && (digest != m.digest ==> AcceptTx(later, j, m.(digest := digest), newRun, again) == (later, KeyConflict))
    ensures var reply := AcceptTx(After(steps).db, i, m, run, outcome).1;
      reply.Accepted? ==> reply.receipt == ReceiptOf(After(steps), m, run)
  {
    hide After, AcceptTx, Extended, Inv, Admits, Do, Stands;
    var w, step := After(steps), AcceptCommit(i, m, run, outcome);
    RunKeeps(steps);
    OnlyAdmittedIsAccepted(w.db, i, m, run, outcome);
    assert m.session in w.db.sessions && w.db.sessions[m.session].owner == m.owner by { AdmittedOwner(w.db, i, m, run); }
    RowCounts(w, m.session);
    AcceptRecords(w.db, i, m, run, outcome);
    AfterOneMore(steps, step);
    AcceptCommitIs(w, i, m, run, outcome);
    var first := steps + [step];
    assert After(first).db.sessions[m.session].owner == m.owner && m.session in After(first).db.sessions by { StandsKnown(After(first).db, m.session, run); }
    ReplayIsStable(first, more, run, j, m, newRun, again);
    ReplayIsStable(first, more, run, j, m.(digest := digest), newRun, again);
  }

  lemma {:induction false} AdmittedOwner(db: Tables, i: InstanceId, m: Message, run: RunId)
    requires Admits(db, i, m, run)
    ensures m.session in db.sessions && db.sessions[m.session].owner == m.owner
  {
  }

  lemma {:induction false} StandsKnown(db: Tables, s: SessionId, r: RunId)
    ensures forall state, log :: Stands(db, s, r, state, log) ==> s in db.sessions && r in db.runs
  {
  }

  lemma {:induction false} AcceptCommitIs(w: World, i: InstanceId, m: Message, run: RunId, outcome: TxOutcome)
    requires i < |w.instances| && w.instances[i].accepting
    ensures Do(w, AcceptCommit(i, m, run, outcome)).db == AcceptTx(w.db, i, m, run, outcome).0
  {
    hide AcceptTx;
  }

  lemma {:induction false} OnlyAdmittedIsAccepted(db: Tables, i: InstanceId, m: Message, run: RunId, outcome: TxOutcome)
    requires var reply := AcceptTx(db, i, m, run, outcome).1; reply.Accepted? || reply.Unconfirmed?
    ensures Admits(db, i, m, run) && outcome != RolledBack
  {
    hide AcceptedTables, NeedsRecovery, HasActiveRun, HasRun;
  }

  lemma {:induction false} RowCounts(w: World, s: SessionId)
    requires Inv(w) && s in w.db.sessions
    ensures w.db.sessions[s].eventSeq == |w.db.sessions[s].log|
  {
    hide GoroutinesOk, InstancesOk, FenceOk, ExclusiveOk, HistoryOk, HazardsOk, WordsOf, Write;
    assert Faithful(w.db.sessions[s]);
  }

  // ---- the steps of one execution ----

  /** The start of a queued run without a hazard: running, its two events, its hazard, and nothing else. An
      unreported commit records the same, but the goroutine goes on to settle the run as failed. */
  lemma {:induction false} QueuedRunStarts(w: World, i: InstanceId, r: RunId, s: SessionId, log: seq<Event>, c: RunContext, outcome: TxOutcome)
    requires GoesAt(w, i, r, Probed, c) && Stands(w.db, s, r, Queued, log) && r !in w.db.hazards
    ensures var w' := Do(w, StartCommit(i, r, outcome));
      if outcome == RolledBack then w'.db == w.db && GoesAt(w', i, r, Settling(Failed, OtherCode, true), c)
      else
        && Stands(w'.db, s, r, Running, Extended(log, r, [RunRunning, RunProgressed]))
        && r in w'.db.hazards && w'.db.hazards[r] == OwnedBy(i) && OnlyRun(w.db, w'.db, s, r) && r in w'.started
        && GoesAt(w', i, r, if outcome == Durable then Dispatching else Settling(Failed, OtherCode, true), c)
        && w'.calls == w.calls
  {
    hide StartTx, Extended, Stands, OnlyRun;
    assert r in w.db.runs && w.db.runs[r].session == s && CanStart(w.db, s, r) by { StandsQueued(w.db, s, r, log); }
    if outcome == RolledBack {
      NoStart(w.db, i, s, r);
    } else {
      StartRecords(w.db, i, s, r, log, outcome);
    }
  }

  lemma {:induction false} StandsQueued(db: Tables, s: SessionId, r: RunId, log: seq<Event>)
    requires Stands(db, s, r, Queued, log) && r !in db.hazards
    ensures CanStart(db, s, r)
  {
  }

  lemma {:induction false} NoStart(db: Tables, self: InstanceId, s: SessionId, r: RunId)
    ensures StartTx(db, self, s, r, RolledBack) == (db, false)
  {
  }

  lemma {:induction false} StartRecords(db: Tables, self: InstanceId, s: SessionId, r: RunId, log: seq<Event>, outcome: TxOutcome)
    requires Stands(db, s, r, Queued, log) && r !in db.hazards && outcome != RolledBack
    ensures var (after, ok) := StartTx(db, self, s, r, outcome);
      && Stands(after, s, r, Running, Extended(log, r, [RunRunning, RunProgressed])) && OnlyRun(db, after, s, r)
      && r in after.hazards && after.hazards[r] == OwnedBy(self) && ok == (outcome == Durable)
  {
    StartRowExtends(db.sessions[s], r);
    hide StartRow, Extended;
  }

  /** A run that is no longer queued, or already has a hazard, is not started. */
  lemma {:induction false} OthersDoNotStart(w: World, i: InstanceId, r: RunId, c: RunContext, outcome: TxOutcome)
    requires GoesAt(w, i, r, Probed, c) && r in w.db.runs && (w.db.runs[r].state != Queued || r in w.db.hazards)
    ensures var w' := Do(w, StartCommit(i, r, outcome));
      w'.db == w.db && w'.started == w.started && GoesAt(w', i, r, Settling(Failed, OtherCode, true), c)
  {
  }

  /** The probe before a start: passed by an owning instance; with the connection dead or silent ownership is
      lost, every context ends, and the run is settled as failed. */
  lemma {:induction false} ProbeDecides(w: World, i: InstanceId, r: RunId, c: RunContext, answered: bool)
    requires GoesAt(w, i, r, Starting, c)
    ensures var w' := Do(w, StartProbe(i, r, answered));
      && w'.db == w.db && w'.calls == w.calls && w'.live == w.live
      && (Owns(w, i) && answered ==> Owns(w', i) && GoesAt(w', i, r, Probed, c))
      && (w.instances[i].ownershipLost || w.instances[i].closed ==> GoesAt(w', i, r, Settling(Failed, OtherCode, true), c))
      && (!w.instances[i].ownershipLost && !w.instances[i].closed && !(answered && w.instances[i].lockAlive) ==>
            && w'.instances[i].ownershipLost
            && GoesAt(w', i, r, Settling(Failed, OtherCode, true), if c == Live then ContextCancelled else c))
  {
  }

  /** Process is called with a live context and only then; without one the run is settled at once. */
  lemma {:induction false} DispatchDecides(w: World, i: InstanceId, r: RunId, c: RunContext)
    requires GoesAt(w, i, r, Dispatching, c)
    ensures var called, skipped := Do(w, CallProcess(i, r)), Do(w, SkipProcess(i, r));
      && called.db == w.db && skipped.db == w.db
      && (c == Live ==> called.calls == w.calls + [r] && called.live == w.live + {r} && GoesAt(called, i, r, Executing, Live) && skipped == w)
      && (c != Live ==>
            && called == w && skipped.calls == w.calls
            && GoesAt(skipped, i, r, Settling(if c == ContextCancelled then Cancelled else Failed, OtherCode, false), c))
  {
  }

  /** What Process hands back: with a live context its verdict, else what ended the context; only a successful
      completion shows that the execution is over. */
  lemma {:induction false} ResultDecides(w: World, i: InstanceId, r: RunId, c: RunContext, result: ProcessResult)
    requires GoesAt(w, i, r, Executing, c)
    ensures var w' := Do(w, ProcessReturns(i, r, result));
      && w'.db == w.db && w'.calls == w.calls && w'.live == (if result.completed then w.live - {r} else w.live)
      && (c == Live && result.completed ==> GoesAt(w', i, r, Settling(Completed, result.code, false), c))
      && (c == Live && !result.completed ==> GoesAt(w', i, r, Settling(Failed, result.code, false), c))
      && (c == ContextCancelled ==> GoesAt(w', i, r, Settling(Cancelled, OtherCode, false), c))
      && (c == DeadlineExceeded ==> GoesAt(w', i, r, Settling(Failed, OtherCode, false), c))
  {
  }

  // ---- settling ----

  lemma {:induction false} FinishRecords(db: Tables, s: SessionId, r: RunId, state: RunState, asked: RunState, code: FinishCode, outcome: TxOutcome, log: seq<Event>)
    requires Stands(db, s, r, state, log) && outcome != RolledBack && (asked == Completed || asked == Failed || asked == Cancelled)
    ensures var (after, reply) := FinishTx(db, s, r, asked, code, outcome);
      && (state == Queued || state == Running ==>
            && Stands(after, s, r, asked, Extended(log, r, EndEvents(asked)))
            && reply == (if outcome == Durable then Recorded(asked) else FinishError))
      && (state == CancelRequested && code == OtherCode ==>
            && Stands(after, s, r, Cancelled, Extended(log, r, [RunCancelled]))
            && reply == (if outcome == Durable then Recorded(Cancelled) else FinishError))
      && (state == Completed || state == Failed || state == Cancelled ==> after == db && reply == NothingToDo)
      && OnlyRun(db, after, s, r) && after.hazards == db.hazards && after.cancels == db.cancels
  {
    FinishRowExtends(db.sessions[s], r, asked);
    FinishRowExtends(db.sessions[s], r, Cancelled);
    hide FinishRow, Extended;
  }

  /** Settling records what was asked: in every reachable world a finish that is not rolled back leaves a
      queued or running run in the asked state, its log longer by exactly the events of that end; a run with a
      cancellation on record becomes cancelled; one that has ended is left alone. Nothing else changes. */
  lemma {:induction false} SettlingRecords(steps: seq<Step>, i: InstanceId, r: RunId, asked: RunState, code: FinishCode, last: bool, outcome: TxOutcome)
    requires var w := After(steps); i < |w.instances| && r in w.instances[i].stage && w.instances[i].stage[r] == Settling(asked, code, last)
    ensures var w, w' := After(steps), Do(After(steps), FinishCommit(i, r, outcome));
      && r in w.db.runs && w.db.runs[r].session in w.db.sessions
      && var s := w.db.runs[r].session; var state, log := w.db.runs[r].state, w.db.sessions[s].log;
         && (outcome == RolledBack ==> w'.db == w.db)
         && (outcome != RolledBack && (state == Queued || state == Running) ==>
               Stands(w'.db, s, r, asked, Extended(log, r, EndEvents(asked))) && OnlyRun(w.db, w'.db, s, r) && w'.db.hazards == w.db.hazards)
         && (outcome != RolledBack && state == CancelRequested && code == OtherCode ==>
               Stands(w'.db, s, r, Cancelled, Extended(log, r, [RunCancelled])) && OnlyRun(w.db, w'.db, s, r) && w'.db.hazards == w.db.hazards)
         && (state == Completed || state == Failed || state == Cancelled ==> w'.db == w.db)
  {
    var w := After(steps);
    hide After, Inv, Do, Extended, FinishRow, FinishTx, Stands, OnlyRun;
    RunKeeps(steps);
    assert r in w.db.runs && (asked == Completed || asked == Failed || asked == Cancelled) by { SettlingFact(w, i, r); }
    SessionOfRun(w, r);
    DoFinishIs(w, i, r, outcome);
    var s, state := w.db.runs[r].session, w.db.runs[r].state;
    if outcome == RolledBack {
      FinishLeaves(w.db, s, r, asked, code, outcome);
    } else if IsActive(state) {
      ActiveStands(w, r);
      FinishRecords(w.db, s, r, state, asked, code, outcome, w.db.sessions[s].log);
    } else {
      FinishLeaves(w.db, s, r, asked, code, outcome);
    }
  }

  lemma {:induction false} FinishLeaves(db: Tables, s: SessionId, r: RunId, asked: RunState, code: FinishCode, outcome: TxOutcome)
    requires r in db.runs && (outcome == RolledBack || !IsActive(db.runs[r].state))
    ensures FinishTx(db, s, r, asked, code, outcome).0 == db
  {
  }

  lemma {:induction false} DoFinishIs(w: World, i: InstanceId, r: RunId, outcome: TxOutcome)
    requires i < |w.instances| && r in w.instances[i].stage && w.instances[i].stage[r].Settling? && r in w.db.runs
    ensures var at := w.instances[i].stage[r];
      Do(w, FinishCommit(i, r, outcome)).db == FinishTx(w.db, w.db.runs[r].session, r, at.asked, at.code, outcome).0
  {
    hide FinishTx;
  }

  // An active run and its session tell the same state.
  lemma {:induction false} ActiveStands(w: World, r: RunId)
    requires Inv(w) && r in w.db.runs && IsActive(w.db.runs[r].state)
    ensures w.db.runs[r].session in w.db.sessions
    ensures Stands(w.db, w.db.runs[r].session, r, w.db.runs[r].state, w.db.sessions[w.db.runs[r].session].log)
  {
    InvParts(w);
    SessionOfRun(w, r);
    RowCounts(w, w.db.runs[r].session);
    ActiveIsLast(w.db, w.started, r);
    var s := w.db.runs[r].session;
    assert Faithful(w.db.sessions[s]);
    hide Inv, Sound, Write, WordsOf, GoroutinesOk, InstancesOk;
  }

  /** Where the goroutine goes after a finish that the store reports: away, or, after a completion under
      ownership, to clearing the hazard. After an error the first attempt is followed by one as failed. */
  lemma {:induction false} FinishMovesOn(w: World, i: InstanceId, r: RunId, asked: RunState, code: FinishCode, last: bool, c: RunContext, outcome: TxOutcome)
    requires GoesAt(w, i, r, Settling(asked, code, last), c) && r in w.db.runs && w.db.runs[r].session in w.db.sessions
    requires asked == Completed || asked == Failed || asked == Cancelled
    ensures var w' := Do(w, FinishCommit(i, r, outcome)); var state := w.db.runs[r].state;
      && w'.calls == w.calls && w'.live == w.live && (Owns(w, i) ==> Owns(w', i))
      && (outcome == Durable && (state == Queued || state == Running) ==>
            if asked == Completed && !w.instances[i].ownershipLost && !w.instances[i].closed then GoesAt(w', i, r, Clearing, c) else Gone(w', i, r))
      && (outcome == Durable && state == CancelRequested && code == OtherCode ==> Gone(w', i, r))
      && (outcome != RolledBack && (state == Completed || state == Failed || state == Cancelled) ==> Gone(w', i, r))
      && (outcome == RolledBack || (outcome == Unreported && (state == Queued || state == Running || state == CancelRequested)) ==>
            if last then Gone(w', i, r) else GoesAt(w', i, r, Settling(Failed, OtherCode, true), c))
  {
    hide FinishRow;
  }

  /** Clearing the hazard: gone with the goroutine if the delete is reported on a living connection. If not,
      ownership is lost, every context ends, and a second finish follows. */
  lemma {:induction false} ClearingDecides(w: World, i: InstanceId, r: RunId, c: RunContext, outcome: TxOutcome)
    requires GoesAt(w, i, r, Clearing, c) && r in w.db.hazards && w.db.hazards[r] == OwnedBy(i)
    ensures var w' := Do(w, ClearHazard(i, r, outcome));
      && w'.db == (if outcome == RolledBack || !w.instances[i].lockAlive then w.db else w.db.(hazards := w.db.hazards - {r}))
      && w'.calls == w.calls
      && (outcome == Durable && w.instances[i].lockAlive ==> Gone(w', i, r) && (Owns(w, i) ==> Owns(w', i)))
      && (outcome != Durable || !w.instances[i].lockAlive ==>
            && w'.instances[i].ownershipLost
            && GoesAt(w', i, r, Settling(Failed, OtherCode, true), if c == Live then ContextCancelled else c))
  {
  }

  // ---- cancellation ----

  // The key is new, or was used for this run.
  predicate KeyFor(db: Tables, s: SessionId, r: RunId, key: RequestKey) {
    (s, key) in db.cancels ==> db.cancels[(s, key)] == r
  }

  lemma {:induction false} CancelRecords(db: Tables, owner: OwnerHash, s: SessionId, r: RunId, key: RequestKey, hasContext: bool, state: RunState, log: seq<Event>, outcome: TxOutcome)
    requires r in db.runs && db.runs[r].session == s && db.runs[r].state == state && s in db.sessions && db.sessions[s].log == log
    requires db.sessions[s].eventSeq == |log| && db.sessions[s].owner == owner && KeyFor(db, s, r, key) && outcome != RolledBack
    ensures var (after, reply) := CancelTx(db, owner, s, r, key, hasContext, outcome);
      && ((state == Queued || state == Running) && hasContext ==>
            && Stands(after, s, r, CancelRequested, Extended(log, r, [RunCancelRequested]))
            && reply == (if outcome == Durable then CancelAnswered(CancelRequested) else CancelUnconfirmed))
      && ((state == Queued || state == Running) && !hasContext ==> after == db && reply == NoExecutionContext)
      && (state == CancelRequested || state == Completed || state == Failed || state == Cancelled ==>
            && after == db.(cancels := after.cancels)
            && reply == (if outcome == Durable then CancelAnswered(state) else CancelUnconfirmed))
      && (((state == Queued || state == Running) && !hasContext) || ((s, key) in after.cancels && after.cancels[(s, key)] == r))
      && (forall q :: q in db.cancels ==> q in after.cancels && after.cancels[q] == db.cancels[q])
      && OnlyRun(db, after, s, r) && after.hazards == db.hazards
  {
    CancelRowExtends(db.sessions[s], r);
    hide CancelRow, Extended;
    CancelTouchesOnly(db, owner, s, r, key, hasContext, outcome);
    hide OnlyRun;
  }

  lemma {:induction false} CancelTouchesOnly(db: Tables, owner: OwnerHash, s: SessionId, r: RunId, key: RequestKey, hasContext: bool, outcome: TxOutcome)
    requires s in db.sessions && r in db.runs
    ensures var after := CancelTx(db, owner, s, r, key, hasContext, outcome).0; OnlyRun(db, after, s, r) && after.hazards == db.hazards
  {
    CancelledTouchesOnly(db, s, r, key);
    assert OnlyRun(db, db, s, r);
    hide CancelledTables, OnlyRun;
  }

  lemma {:induction false} CancelledTouchesOnly(db: Tables, s: SessionId, r: RunId, key: RequestKey)
    requires s in db.sessions && r in db.runs
    ensures var after := CancelledTables(db, s, r, key); OnlyRun(db, after, s, r) && after.hazards == db.hazards
  {
    hide CancelRow;
    if db.runs[r].state.Queued? || db.runs[r].state.Running? {
      var after := CancelledTables(db, s, r, key);
      assert after.sessions == db.sessions[s := CancelRow(db.sessions[s], r)];
      assert after.runs == db.runs[r := db.runs[r].(state := CancelRequested)];
    }
  }

  /** A cancel by the owner on a serving instance, reported. A queued or running run with a context here
      becomes cancel_requested, with exactly one event, and its context is not live any more; a run already
      cancel_requested is answered so and nothing is added; a run that has ended answers its end. */
  lemma {:induction false} CancelDoes(w: World, i: InstanceId, s: SessionId, r: RunId, key: RequestKey)
    requires Inv(w) && i < |w.instances| && w.instances[i].phase == Serving
    requires r in w.db.runs && w.db.runs[r].session == s && s in w.db.sessions && KeyFor(w.db, s, r, key)
    ensures var owner, state, log := w.db.sessions[s].owner, w.db.runs[r].state, w.db.sessions[s].log;
      var hasContext := r in w.instances[i].active;
      var w', reply := Do(w, RequestCancel(i, owner, s, r, key, Durable)), CancelTx(w.db, owner, s, r, key, hasContext, Durable).1;
      && i < |w'.instances| && w'.instances[i].stage == w.instances[i].stage && w'.calls == w.calls && w'.live == w.live
      && ((state == Queued || state == Running) && hasContext ==>
            && reply == CancelAnswered(CancelRequested)
            && Stands(w'.db, s, r, CancelRequested, Extended(log, r, [RunCancelRequested])) && OnlyRun(w.db, w'.db, s, r)
            && r in w'.instances[i].active && w'.instances[i].active[r] != Live && (w.instances[i].active[r] == Live ==> w'.instances[i].active[r] == ContextCancelled))
      && ((state == Queued || state == Running) && !hasContext ==> reply == NoExecutionContext && w' == w)
      && (state == CancelRequested ==>
            && reply == CancelAnswered(CancelRequested) && w'.db == w.db.(cancels := w'.db.cancels)
            && (hasContext ==> r in w'.instances[i].active && w'.instances[i].active[r] != Live))
      && (state == Completed || state == Failed || state == Cancelled ==>
            reply == CancelAnswered(state) && w'.db == w.db.(cancels := w'.db.cancels) && w'.instances == w.instances)
  {
    hide CancelTx, Inv, Extended, OnlyRun, Do, Stands;
    var owner, hasContext := w.db.sessions[s].owner, r in w.instances[i].active;
    RowCounts(w, s);
    CancelRecords(w.db, owner, s, r, key, hasContext, w.db.runs[r].state, w.db.sessions[s].log, Durable);
    RunStates(w, r);
    CancelMoves(w, i, owner, s, r, key);
  }

  // The context of the run ends exactly when the reply says that a cancellation is on record.
  lemma {:induction false} CancelMoves(w: World, i: InstanceId, owner: OwnerHash, s: SessionId, r: RunId, key: RequestKey)
    requires i < |w.instances| && w.instances[i].phase == Serving
    ensures var (db, reply) := CancelTx(w.db, owner, s, r, key, r in w.instances[i].active, Durable);
      var w' := Do(w, RequestCancel(i, owner, s, r, key, Durable));
      && w'.db == db && |w'.instances| == |w.instances| && w'.instances[i].stage == w.instances[i].stage
      && w'.calls == w.calls && w'.live == w.live && w'.launched == w.launched && w'.started == w.started
      && (reply == CancelAnswered(CancelRequested) && r in w.instances[i].active ==>
            && r in w'.instances[i].active
            && w'.instances[i].active[r] == if w.instances[i].active[r] == Live then ContextCancelled else w.instances[i].active[r])
      && (reply != CancelAnswered(CancelRequested) ==> w'.instances == w.instances)
  {
    hide CancelTx;
  }

  lemma {:induction false} RunStates(w: World, r: RunId)
    requires Inv(w) && r in w.db.runs
    ensures w.db.runs[r].state != Idle
  {
    assert WordsSound(w.db, w.started) && RunsSound(w.db) by { hide GoroutinesOk, InstancesOk, FenceOk, ExclusiveOk, HistoryOk, HazardsOk; }
    hide Inv;
    RunStatesOf(w.db, w.started, r);
  }

  lemma {:induction false} RunStatesOf(db: Tables, started: set<RunId>, r: RunId)
    requires WordsSound(db, started) && RunsSound(db) && r in db.runs
    ensures db.runs[r].state != Idle
  {
    hide WordsOf;
    var s := db.runs[r].session;
    var k :| 0 <= k < |Words(db, s)| && Words(db, s)[k].run == r;
    assert Agrees(db, started, s, Words(db, s)[k]);
  }

  /** Cancels that do nothing: another owner, an unknown session or run, a key of another run. */
  lemma {:induction false} CancelRefuses(db: Tables, owner: OwnerHash, s: SessionId, r: RunId, key: RequestKey, hasContext: bool, outcome: TxOutcome)
    requires outcome != RolledBack
    ensures s !in db.sessions || db.sessions[s].owner != owner || r !in db.runs || db.runs[r].session != s ==>
      CancelTx(db, owner, s, r, key, hasContext, outcome) == (db, CancelNotFound)
    ensures s in db.sessions && db.sessions[s].owner == owner && r in db.runs && db.runs[r].session == s && (s, key) in db.cancels && db.cancels[(s, key)] != r ==>
      CancelTx(db, owner, s, r, key, hasContext, outcome) == (db, CancelKeyConflict)
  {
  }

  /** Messages that are not accepted, each for its reason, and change nothing. */
  lemma {:induction false} AcceptRefuses(db: Tables, self: InstanceId, m: Message, run: RunId, outcome: TxOutcome)
    requires outcome != RolledBack
    ensures m.session !in db.sessions || db.sessions[m.session].owner != m.owner ==> AcceptTx(db, self, m, run, outcome) == (db, SessionNotFound)
    ensures m.session in db.sessions && db.sessions[m.session].owner == m.owner && (m.session, m.key) !in db.requests ==>
      var foreign := exists h :: h in db.hazards && h in db.runs && db.hazards[h] != OwnedBy(self);
      var left := exists h :: h in db.hazards && h in db.runs && db.runs[h].session == m.session
                              && db.runs[h].state != Queued && db.runs[h].state != Running && db.runs[h].state != CancelRequested;
      var busy := exists r :: r in db.runs && db.runs[r].session == m.session
                              && (db.runs[r].state == Queued || db.runs[r].state == Running || db.runs[r].state == CancelRequested);
      && (foreign || left ==> AcceptTx(db, self, m, run, outcome) == (db, RecoveryRequired))
      && (!foreign && !left && busy ==> AcceptTx(db, self, m, run, outcome) == (db, Busy))
  {
    hide AcceptedTables, HasRun;
    assert NeedsRecovery(db, self, m.session) <==>
      (exists h :: h in db.hazards && h in db.runs && db.hazards[h] != OwnedBy(self))
      || (exists h :: h in db.hazards && h in db.runs && db.runs[h].session == m.session
                      && db.runs[h].state != Queued && db.runs[h].state != Running && db.runs[h].state != CancelRequested) by {
      RecoveryReasons(db, self, m.session);
    }
    hide NeedsRecovery;
  }

  lemma {:induction false} RecoveryReasons(db: Tables, self: InstanceId, s: SessionId)
    ensures NeedsRecovery(db, self, s) <==>
      (exists h :: h in db.hazards && h in db.runs && db.hazards[h] != OwnedBy(self))
      || (exists h :: h in db.hazards && h in db.runs && db.runs[h].session == s
                      && db.runs[h].state != Queued && db.runs[h].state != Running && db.runs[h].state != CancelRequested)
  {
    if h :| h in db.hazards && h in db.runs && (db.hazards[h] != OwnedBy(self) || (db.runs[h].session == s && !IsActive(db.runs[h].state))) {
      assert db.hazards[h] != OwnedBy(self) || (db.runs[h].session == s && db.runs[h].state != Queued && db.runs[h].state != Running && db.runs[h].state != CancelRequested);
    }
  }

  /** A new creation key makes an empty, idle session of its owner, and nothing else changes. */
  lemma {:induction false} NewKeyCreates(db: Tables, owner: OwnerHash, key: RequestKey, title: Digest, id: SessionId, outcome: TxOutcome)
    requires (owner, key) !in db.createKeys && id !in db.sessions
    ensures var (after, reply) := CreateTx(db, owner, key, title, id, outcome);
      if outcome == RolledBack then after == db && reply == CreateFailed
      else
        && after.sessions == db.sessions[id := Session(owner, title, 0, Idle, [])] && after.createKeys == db.createKeys[(owner, key) := id]
        && after.runs == db.runs && after.requests == db.requests && after.cancels == db.cancels && after.hazards == db.hazards
        && reply == if outcome == Unreported then CreateFailed else Created(id)
  {
  }

  /** Closing ends when no execution is left: the instance stops and its lock is free; a crash frees it too,
      and leaves no goroutine. */
  lemma {:induction false} StoppingFreesLock(w: World, i: InstanceId)
    requires i < |w.instances|
    ensures w.instances[i].closed && w.instances[i].stage == map[] && !w.instances[i].accepting ==>
      Do(w, EndClose(i)) == Put(w, i, w.instances[i].(phase := Stopped, lockAlive := false))
    ensures w.instances[i].stage != map[] ==> Do(w, EndClose(i)) == w
    ensures var w' := Do(w, Crash(i));
      w'.db == w.db && w'.live == w.live && !w'.instances[i].lockAlive && w'.instances[i].stage == map[] && w'.instances[i].phase == Stopped
  {
  }
}
