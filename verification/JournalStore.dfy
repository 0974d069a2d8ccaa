/** localSessionStore as an object that updates its fields and the tables statement by statement.

    A transaction works on a local copy of the tables and publishes it at commit; an early return is the
    deferred rollback. What the environment decides (does the probe answer, how does the commit end, is
    the lock connection alive) is a parameter. Each method is proved to do what the transaction functions
    of JournalTables say; the protocol runs on those same functions. */
module JournalStore {
  import opened JournalTables
  import opened JournalWords
  import opened JournalSoundness
  import opened JournalProtocol

  class Database {
    var tables: Tables

    constructor ()
      ensures tables == EmptyTables
    {
      tables := EmptyTables;
    }
  }

  datatype Submission = OwnershipLost | StoreClosed | Answered(reply: AcceptReply)

  // The tables and success of settling each run of todo in turn; the first error stops the loop.
  function RecoverAll(db: Tables, todo: seq<RunId>, outcomes: seq<TxOutcome>): (Tables, bool)
    requires |todo| == |outcomes|
    decreases |todo|
  {
    if todo == [] then (db, true)
    else if todo[0] !in db.runs then (db, false)
    else
      var (db', reply) := FinishTx(db, db.runs[todo[0]].session, todo[0], Failed, BridgeRestartInterrupted, outcomes[0]);
      if reply == FinishError then (db', false) else RecoverAll(db', todo[1..], outcomes[1..])
  }

  // The answer of finish: the transaction, then the hazard delete on the lock connection.
  function FinishAndClear(db: Tables, self: InstanceId, session: SessionId, run: RunId, asked: RunState, code: FinishCode,
                          owned: bool, outcome: TxOutcome, clearing: TxOutcome): (Tables, FinishReply) {
    var (db', reply) := FinishTx(db, session, run, asked, code, outcome);
    if reply == Recorded(Completed) && owned then
      (ClearHazardTx(db', self, run, clearing), if clearing == Durable then reply else FinishError)
    else (db', reply)
  }

  class LocalSessionStore {
    const db: Database
    const self: InstanceId
    var closed: bool
    var ownershipLost: bool
    var active: map<RunId, RunContext>

    constructor (db: Database, self: InstanceId)
      ensures this.db == db && this.self == self
      ensures !closed && !ownershipLost && active == map[]
    {
      this.db, this.self := db, self;
      closed, ownershipLost, active := false, false, map[];
    }

    method CancelContexts()
      modifies this`active
      ensures active == CancelAll(old(active))
    {
      var todo := active.Keys;
      while todo != {}
        invariant todo <= active.Keys == old(active).Keys
        invariant forall r :: r in active ==> active[r] == if r in todo then old(active)[r] else Cancel(old(active)[r])
        decreases todo
      {
        var r :| r in todo;
        active := active[r := Cancel(active[r])];
        todo := todo - {r};
      }
    }

    // Loss is sticky.
    method LoseOwnershipLocked()
      modifies this`ownershipLost, this`active
      ensures ownershipLost && active == CancelAll(old(active))
    {
      ownershipLost := true;
      CancelContexts();
    }

    method BeginClose()
      modifies this`closed, this`active
      ensures closed && active == CancelAll(old(active))
    {
      closed := true;
      CancelContexts();
    }

    // UPDATE ... event_seq+1 RETURNING event_seq, then INSERT the event under that number.
    static method AppendEvent(tx: Tables, session: SessionId, run: RunId, kind: EventKind) returns (next: Tables, number: nat)
      requires session in tx.sessions
      ensures next == tx.(sessions := tx.sessions[session := AppendToRow(tx.sessions[session], run, kind)])
      ensures number == tx.sessions[session].eventSeq + 1
    {
      var row := tx.sessions[session];
      number := row.eventSeq + 1;
      row := row.(eventSeq := number);
      row := row.(log := row.log + [Event(number, run, kind)]);
      next := tx.(sessions := tx.sessions[session := row]);
    }

    method CreateSession(owner: OwnerHash, key: RequestKey, title: Digest, id: SessionId, outcome: TxOutcome) returns (reply: CreateReply)
      modifies db
      ensures (db.tables, reply) == CreateTx(old(db.tables), owner, key, title, id, outcome)
    {
      if outcome == RolledBack {
        return CreateFailed;
      }
      var tx := db.tables;
      var stored := id;
      if (owner, key) in tx.createKeys && tx.createKeys[(owner, key)] in tx.sessions {
        stored := tx.createKeys[(owner, key)];
      } else if id in tx.sessions {
        return CreateFailed;
      } else {
        tx := tx.(sessions := tx.sessions[id := Session(owner, title, 0, Idle, [])]);
        tx := tx.(createKeys := tx.createKeys[(owner, key) := id]);
      }
      db.tables := tx;
      if outcome == Unreported {
        return CreateFailed;
      }
      if tx.sessions[stored].title != title {
        return CreateConflict;
      }
      reply := Created(stored);
    }

    method AcceptMessage(m: Message, run: RunId, probeAnswered: bool, outcome: TxOutcome) returns (reply: Submission)
      modifies this`ownershipLost, this`active, db
      ensures old(ownershipLost) ==> reply == OwnershipLost && ownershipLost && active == old(active) && db.tables == old(db.tables)
      ensures !old(ownershipLost) && old(closed) ==> reply == StoreClosed && !ownershipLost && active == old(active) && db.tables == old(db.tables)
      ensures !old(ownershipLost) && !old(closed) && !probeAnswered ==>
        reply == OwnershipLost && ownershipLost && active == CancelAll(old(active)) && db.tables == old(db.tables)
      ensures !old(ownershipLost) && !old(closed) && probeAnswered ==>
        var (tables, answer) := AcceptTx(old(db.tables), self, m, run, outcome);
        && db.tables == tables && reply == Answered(answer) && !ownershipLost
        && active == if answer.Accepted? then old(active)[run := Live] else old(active)
    {
      if ownershipLost {
        return OwnershipLost;
      }
      if closed {
        return StoreClosed;
      }
      if !probeAnswered {
        LoseOwnershipLocked();
        return OwnershipLost;
      }
      if outcome == RolledBack {
        return Answered(Unavailable);
      }
      var tx := db.tables;
      if m.session !in tx.sessions || tx.sessions[m.session].owner != m.owner {
        return Answered(SessionNotFound);
      }
      if (m.session, m.key) in tx.requests && tx.requests[(m.session, m.key)] in tx.runs {
        var earlier := tx.runs[tx.requests[(m.session, m.key)]];
        if earlier.digest != m.digest {
          return Answered(KeyConflict);
        }
        return Answered(Replayed(earlier.receipt));
      }
      if NeedsRecovery(tx, self, m.session) {
        return Answered(RecoveryRequired);
      }
      if HasActiveRun(tx, m.session) {
        return Answered(Busy);
      }
      var previous := HasRun(tx, m.session);
      if run in tx.runs || (m.session, m.key) in tx.requests {
        return Answered(Unavailable);
      }
      var blank := Receipt(m.session, run, 0, 0);
      tx := tx.(runs := tx.runs[run := Run(m.session, m.key, m.digest, blank, Queued)],
                requests := tx.requests[(m.session, m.key) := run]);
      var message, queued: nat;
      tx, message := AppendEvent(tx, m.session, run, MessageCreated);
      tx, queued := AppendEvent(tx, m.session, run, RunQueued);
      var receipt := Receipt(m.session, run, message, queued + 1);
      tx := tx.(runs := tx.runs[run := tx.runs[run].(receipt := receipt)]);
      tx := tx.(sessions := tx.sessions[m.session := tx.sessions[m.session].(runState := Queued)]);
      db.tables := tx;
      assert tx == AcceptedTables(old(db.tables), m, run);
      if outcome == Unreported {
        return Answered(Unconfirmed);
      }
      active := active[run := Live];
      reply := Answered(Accepted(receipt, if previous then SessionMessage else SessionStart));
    }

    // First half of transition: under the mutex.
    method TransitionProbe(probeAnswered: bool) returns (ok: bool)
      modifies this`ownershipLost, this`active
      ensures ok == (!old(closed) && !old(ownershipLost) && probeAnswered)
      ensures ok || old(closed) || old(ownershipLost) ==> ownershipLost == old(ownershipLost) && active == old(active)
      ensures !old(closed) && !old(ownershipLost) && !probeAnswered ==> ownershipLost && active == CancelAll(old(active))
    {
      if closed || ownershipLost {
        return false;
      }
      if !probeAnswered {
        LoseOwnershipLocked();
        return false;
      }
      ok := true;
    }

    // Second half of transition: the mutex is no longer held.
    method TransitionCommit(session: SessionId, run: RunId, outcome: TxOutcome) returns (ok: bool)
      modifies db
      ensures (db.tables, ok) == StartTx(old(db.tables), self, session, run, outcome)
    {
      var tx := db.tables;
      if outcome == RolledBack || session !in tx.sessions || run !in tx.runs || tx.runs[run].session != session {
        return false;
      }
      if tx.runs[run].state != Queued {
        return false;
      }
      if run in tx.hazards {
        return false;
      }
      tx := tx.(hazards := tx.hazards[run := OwnedBy(self)]);
      tx := tx.(runs := tx.runs[run := tx.runs[run].(state := Running)]);
      tx := tx.(sessions := tx.sessions[session := tx.sessions[session].(runState := Running)]);
      var number: nat;
      tx, number := AppendEvent(tx, session, run, RunRunning);
      tx, number := AppendEvent(tx, session, run, RunProgressed);
      db.tables := tx;
      assert tx == StartedTables(old(db.tables), self, session, run);
      ok := outcome == Durable;
    }

    // The statements of finish between reading the old state and the commit.
    static method RecordTerminal(tx: Tables, session: SessionId, run: RunId, state: RunState) returns (next: Tables)
      requires CanFinish(tx, session, run)
      ensures next == FinishedTables(tx, session, run, state)
    {
      next := tx;
      var number: nat;
      if state == Completed {
        next, number := AppendEvent(next, session, run, AssistantMessageCreated);
      }
      next, number := AppendEvent(next, session, run, TerminalKind(state));
      next := next.(runs := next.runs[run := next.runs[run].(state := state)]);
      next := next.(sessions := next.sessions[session := next.sessions[session].(runState := state)]);
    }

    method Finish(session: SessionId, run: RunId, asked: RunState, code: FinishCode, outcome: TxOutcome, clearing: TxOutcome) returns (reply: FinishReply)
      modifies this`ownershipLost, this`active, db
      ensures (db.tables, reply)
           == FinishAndClear(old(db.tables), self, session, run, asked, code, !old(ownershipLost) && !old(closed), outcome, clearing)
      ensures var cleared := FinishTx(old(db.tables), session, run, asked, code, outcome).1 == Recorded(Completed)
                             && !old(ownershipLost) && !old(closed);
        if cleared && clearing != Durable then ownershipLost && active == CancelAll(old(active))
        else ownershipLost == old(ownershipLost) && active == old(active)
    {
      hide FinishedTables;
      var tx := db.tables;
      if outcome == RolledBack || session !in tx.sessions || run !in tx.runs || tx.runs[run].session != session {
        return FinishError;
      }
      var current := tx.runs[run].state;
      if current != Queued && current != Running && current != CancelRequested {
        return NothingToDo;
      }
      var state := asked;
      if current == CancelRequested && code != BridgeRestartInterrupted {
        state := Cancelled;
      }
      tx := RecordTerminal(tx, session, run, state);
      db.tables := tx;
      if outcome == Unreported {
        return FinishError;
      }
      if state == Completed && !ownershipLost && !closed {
        if clearing != RolledBack && run in tx.hazards && tx.hazards[run] == OwnedBy(self) {
          db.tables := tx.(hazards := tx.hazards - {run});
        }
        if clearing != Durable {
          LoseOwnershipLocked();
          return FinishError;
        }
      }
      reply := Recorded(state);
    }

    method CancelRun(owner: OwnerHash, session: SessionId, run: RunId, key: RequestKey, outcome: TxOutcome) returns (reply: CancelReply, contextCancelled: bool)
      modifies this`active, db
      ensures (db.tables, reply) == CancelTx(old(db.tables), owner, session, run, key, run in old(active), outcome)
      ensures contextCancelled <==> reply == CancelAnswered(CancelRequested) && run in old(active)
      ensures active == if contextCancelled then old(active)[run := Cancel(old(active)[run])] else old(active)
    {
      contextCancelled := false;
      if outcome == RolledBack {
        return CancelUnavailable, false;
      }
      var tx := db.tables;
      if session !in tx.sessions || tx.sessions[session].owner != owner {
        return CancelNotFound, false;
      }
      if run !in tx.runs || tx.runs[run].session != session {
        return CancelNotFound, false;
      }
      if (session, key) in tx.cancels && tx.cancels[(session, key)] != run {
        return CancelKeyConflict, false;
      }
      var state := tx.runs[run].state;
      if state == Queued || state == Running {
        if run !in active {
          return NoExecutionContext, false;
        }
        var number: nat;
        tx, number := AppendEvent(tx, session, run, RunCancelRequested);
        tx := tx.(runs := tx.runs[run := tx.runs[run].(state := CancelRequested)]);
        tx := tx.(sessions := tx.sessions[session := tx.sessions[session].(runState := CancelRequested)]);
        state := CancelRequested;
      }
      if (session, key) !in tx.cancels {
        tx := tx.(cancels := tx.cancels[(session, key) := run]);
      }
      db.tables := tx;
      assert tx == CancelledTables(old(db.tables), session, run, key);
      if outcome == Unreported {
        return CancelUnconfirmed, false;
      }
      if state == CancelRequested && run in active {
        active := active[run := Cancel(active[run])];
        contextCancelled := true;
      }
      reply := CancelAnswered(state);
    }

    // Fence every run that looks active, then settle the scanned runs one by one.
    method InitializeRuns(todo: seq<RunId>, fence: TxOutcome, outcomes: seq<TxOutcome>) returns (ok: bool)
      requires |todo| == |outcomes|
      requires forall k :: 0 <= k < |todo| ==> todo[k] in db.tables.runs
      modifies this`ownershipLost, this`active, db
      ensures fence != Durable ==> !ok && db.tables == FenceTx(old(db.tables), fence)
      ensures fence == Durable ==> (db.tables, ok) == RecoverAll(FenceTx(old(db.tables), fence), todo, outcomes)
      ensures ownershipLost == old(ownershipLost) && active == old(active)
    {
      db.tables := FenceTx(db.tables, fence);
      if fence != Durable {
        return false;
      }
      ghost var fenced := db.tables;
      var k := 0;
      while k < |todo|
        invariant 0 <= k <= |todo|
        invariant forall j :: 0 <= j < |todo| ==> todo[j] in db.tables.runs
        invariant RecoverAll(fenced, todo, outcomes) == RecoverAll(db.tables, todo[k..], outcomes[k..])
        invariant ownershipLost == old(ownershipLost) && active == old(active)
      {
        var reply := Finish(db.tables.runs[todo[k]].session, todo[k], Failed, BridgeRestartInterrupted, outcomes[k], RolledBack);
        if reply == FinishError {
          return false;
        }
        k := k + 1;
      }
      ok := true;
    }
  }

  // ---- what an undisturbed restart achieves ----

  lemma {:induction false} RecoverAllSettles(db: Tables, todo: seq<RunId>, outcomes: seq<TxOutcome>, r: RunId)
    requires |todo| == |outcomes| && forall k :: 0 <= k < |todo| ==> outcomes[k] == Durable && todo[k] in db.runs
    requires forall x :: x in db.runs ==> db.runs[x].session in db.sessions
    requires r in db.runs
    ensures var (after, ok) := RecoverAll(db, todo, outcomes);
      && ok && r in after.runs && after.hazards == db.hazards
      && after.runs[r].state == (if r in todo && IsActive(db.runs[r].state) then Failed else db.runs[r].state)
    decreases |todo|
  {
    if todo != [] {
      hide FinishRow;
      var db' := FinishTx(db, db.runs[todo[0]].session, todo[0], Failed, BridgeRestartInterrupted, Durable).0;
      RecoverAllSettles(db', todo[1..], outcomes[1..], r);
    }
  }

  /** An undisturbed initializeRuns leaves no active run: every run that was active is failed, never
      re-executed, and carries a hazard, so this instance admits nothing until those are cleared. */
  lemma {:induction false} RestartSettlesEverything(db: Tables, started: set<RunId>, todo: seq<RunId>, outcomes: seq<TxOutcome>, r: RunId, self: InstanceId, m: Message, run: RunId)
    requires Sound(db, started) && r in db.runs && IsActive(db.runs[r].state)
    requires |todo| == |outcomes| && forall k :: 0 <= k < |todo| ==> outcomes[k] == Durable && todo[k] in db.runs
    requires forall x :: x in db.runs && IsActive(db.runs[x].state) ==> x in todo
    requires r in db.hazards ==> db.hazards[r] != OwnedBy(self)
    ensures var (after, ok) := RecoverAll(FenceTx(db, Durable), todo, outcomes);
      && ok && r in after.runs && after.runs[r].state == Failed
      && (forall x :: x in db.runs ==> x in after.runs && !IsActive(after.runs[x].state))
      && r in after.hazards && !Admits(after, self, m, run)
  {
    hide RowsSound, WordsSound, ReceiptsSound, RequestsSound, CreateKeysSound, CancelsSound, HazardsSound, WordsOf, Mentions, RecoverAll, AcceptRow;
    var fenced := FenceTx(db, Durable);
    forall x | x in db.runs ensures x in RecoverAll(fenced, todo, outcomes).0.runs && !IsActive(RecoverAll(fenced, todo, outcomes).0.runs[x].state) {
      RecoverAllSettles(fenced, todo, outcomes, x);
    }
    RecoverAllSettles(fenced, todo, outcomes, r);
  }
}
