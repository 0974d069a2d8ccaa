/** What no step ever takes back: rows, receipts, request keys, and every event already logged. */
module JournalGrowth {
  import opened JournalTables
  import opened JournalWords
  import opened JournalProtocol

  predicate SessionGrows(row: Session, later: Session) {
    && later.owner == row.owner && later.title == row.title
    && row.log <= later.log
  }

  predicate RunGrows(run: Run, later: Run) {
    && later.session == run.session && later.key == run.key
    && later.digest == run.digest && later.receipt == run.receipt
    && (!IsActive(run.state) ==> later.state == run.state)
    && (run.state == CancelRequested ==> later.state != Queued && later.state != Running)
  }

  predicate Grows(db: Tables, later: Tables) {
    && (forall s :: s in db.sessions ==> s in later.sessions && SessionGrows(db.sessions[s], later.sessions[s]))
    && (forall r :: r in db.runs ==> r in later.runs && RunGrows(db.runs[r], later.runs[r]))
    && (forall q :: q in db.requests ==> q in later.requests && later.requests[q] == db.requests[q])
    && (forall q :: q in db.createKeys ==> q in later.createKeys && later.createKeys[q] == db.createKeys[q])
    && (forall q :: q in db.cancels ==> q in later.cancels && later.cancels[q] == db.cancels[q])
  }

  lemma {:induction false} GrowsTransitive(a: Tables, b: Tables, c: Tables)
    requires Grows(a, b) && Grows(b, c)
    ensures Grows(a, c)
  {
    forall s | s in a.sessions ensures s in c.sessions && SessionGrows(a.sessions[s], c.sessions[s]) {
      assert SessionGrows(a.sessions[s], b.sessions[s]) && SessionGrows(b.sessions[s], c.sessions[s]);
    }
    forall r | r in a.runs ensures r in c.runs && RunGrows(a.runs[r], c.runs[r]) {
      assert RunGrows(a.runs[r], b.runs[r]) && RunGrows(b.runs[r], c.runs[r]);
    }
  }

  lemma {:induction false} GrowsReflexive(db: Tables, later: Tables)
    requires later == db.(hazards := later.hazards)
    ensures Grows(db, later)
  {
  }

  // The steps whose transaction may write a session's log.
  predicate Writes(step: Step) {
    step.Reconcile? || step.CreateSession? || step.AcceptCommit? || step.StartCommit? || step.FinishCommit? || step.RequestCancel?
  }

  lemma {:induction false} OtherStepsKeepLogs(w: World, step: Step)
    requires !Writes(step)
    ensures Do(w, step).db == w.db.(hazards := Do(w, step).db.hazards)
  {
    hide HasGoroutine, CancelAll, IsAt, IsActive, Verdict;
  }

  lemma {:induction false} RowsGrow(row: Session, run: RunId, state: RunState)
    ensures SessionGrows(row, AcceptRow(row, run)) && SessionGrows(row, StartRow(row, run))
    ensures SessionGrows(row, CancelRow(row, run)) && SessionGrows(row, FinishRow(row, run, state))
  {
  }

  lemma {:induction false} AcceptGrows(db: Tables, self: InstanceId, m: Message, run: RunId, outcome: TxOutcome)
    ensures Grows(db, AcceptTx(db, self, m, run, outcome).0)
  {
    hide AcceptRow, NeedsRecovery, HasActiveRun, HasRun, SessionGrows;
    if m.session in db.sessions {
      RowsGrow(db.sessions[m.session], run, Queued);
    }
    SessionsReflexive();
  }

  lemma {:induction false} SessionsReflexive()
    ensures forall row :: SessionGrows(row, row)
  {
  }

  lemma {:induction false} StartGrows(db: Tables, self: InstanceId, s: SessionId, r: RunId, outcome: TxOutcome)
    ensures Grows(db, StartTx(db, self, s, r, outcome).0)
  {
    hide StartRow;
    if s in db.sessions {
      RowsGrow(db.sessions[s], r, Running);
    }
  }

  lemma {:induction false} FinishGrows(db: Tables, s: SessionId, r: RunId, asked: RunState, code: FinishCode, outcome: TxOutcome)
    requires asked == Completed || asked == Failed || asked == Cancelled
    ensures Grows(db, FinishTx(db, s, r, asked, code, outcome).0)
  {
    hide FinishRow;
    if s in db.sessions && r in db.runs {
      RowsGrow(db.sessions[s], r, SettledState(db.runs[r].state, asked, code));
    }
  }

  lemma {:induction false} CancelledGrows(db: Tables, s: SessionId, r: RunId, key: RequestKey)
    requires s in db.sessions && r in db.runs
    ensures Grows(db, CancelledTables(db, s, r, key))
  {
    hide CancelRow;
    RowsGrow(db.sessions[s], r, CancelRequested);
    if db.runs[r].state.Queued? || db.runs[r].state.Running? {
      var after := CancelledTables(db, s, r, key);
      assert after.sessions == db.sessions[s := CancelRow(db.sessions[s], r)];
      assert after.runs == db.runs[r := db.runs[r].(state := CancelRequested)];
    }
  }

  lemma {:induction false} CancelGrows(db: Tables, owner: OwnerHash, s: SessionId, r: RunId, key: RequestKey, hasContext: bool, outcome: TxOutcome)
    ensures Grows(db, CancelTx(db, owner, s, r, key, hasContext, outcome).0)
  {
    hide CancelledTables;
    if s in db.sessions && r in db.runs {
      CancelledGrows(db, s, r, key);
    }
  }

  lemma {:induction false} CreateGrows(db: Tables, owner: OwnerHash, key: RequestKey, title: Digest, id: SessionId, outcome: TxOutcome)
    requires (owner, key) in db.createKeys ==> db.createKeys[(owner, key)] in db.sessions
    ensures Grows(db, CreateTx(db, owner, key, title, id, outcome).0)
  {
  }

  // ---- hazards and requested cancellations ----

  // The hazard of x and a requested cancellation of x are still there.
  predicate Holds(db: Tables, later: Tables, x: RunId) {
    && (x in db.hazards ==> x in later.hazards)
    && (x in db.runs && db.runs[x].state == CancelRequested ==> x in later.runs && later.runs[x].state == CancelRequested)
  }

  lemma {:induction false} AcceptHolds(db: Tables, self: InstanceId, m: Message, run: RunId, outcome: TxOutcome, x: RunId)
    ensures Holds(db, AcceptTx(db, self, m, run, outcome).0, x)
  {
    hide AcceptRow, NeedsRecovery, HasActiveRun, HasRun;
  }

  lemma {:induction false} StartHolds(db: Tables, self: InstanceId, s: SessionId, r: RunId, outcome: TxOutcome, x: RunId)
    ensures Holds(db, StartTx(db, self, s, r, outcome).0, x)
  {
    hide StartRow;
  }

  lemma {:induction false} CancelHolds(db: Tables, owner: OwnerHash, s: SessionId, r: RunId, key: RequestKey, hasContext: bool, outcome: TxOutcome, x: RunId)
    ensures Holds(db, CancelTx(db, owner, s, r, key, hasContext, outcome).0, x)
  {
    hide CancelRow;
  }

  lemma {:induction false} CreateHolds(db: Tables, owner: OwnerHash, key: RequestKey, title: Digest, id: SessionId, outcome: TxOutcome, x: RunId)
    ensures Holds(db, CreateTx(db, owner, key, title, id, outcome).0, x)
  {
  }

  lemma {:induction false} FenceHolds(db: Tables, outcome: TxOutcome, x: RunId)
    ensures Holds(db, FenceTx(db, outcome), x)
  {
  }

  // Settling one run leaves every other run and every hazard alone.
  lemma {:induction false} FinishHolds(db: Tables, s: SessionId, r: RunId, asked: RunState, code: FinishCode, outcome: TxOutcome, x: RunId)
    ensures var later := FinishTx(db, s, r, asked, code, outcome).0;
      && later.hazards == db.hazards
      && (x in db.runs && db.runs[x].state == CancelRequested ==>
            && x in later.runs
            && (later.runs[x].state == CancelRequested
                || (x == r && later.runs[x].state == (if code == BridgeRestartInterrupted then asked else Cancelled))))
  {
    hide FinishRow;
  }
}
