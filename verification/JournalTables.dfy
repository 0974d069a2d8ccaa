/** The durable tables of the local session journal, and what each SQL transaction does to them.

    Identifiers, request keys and digests are opaque tokens: the source only ever compares them.
    A transaction that takes the session row FOR UPDATE is one atomic function on the tables. */
module JournalTables {

  type SessionId = nat
  type RunId = nat
  type RequestKey = nat
  type Digest = nat
  type OwnerHash = nat
  type InstanceId = nat

  datatype RunState = Idle | Queued | Running | CancelRequested | Completed | Failed | Cancelled

  // The states named by the partial unique index on active runs.
  predicate IsActive(state: RunState) {
    state.Queued? || state.Running? || state.CancelRequested?
  }

  datatype EventKind =
    | MessageCreated | RunQueued
    | RunRunning | RunProgressed
    | RunCancelRequested
    | AssistantMessageCreated
    | RunCompleted | RunFailed | RunCancelled

  datatype Event = Event(number: nat, run: RunId, kind: EventKind)

  // The receipt body stored with a run and returned to every resubmission.
  datatype Receipt = Receipt(session: SessionId, run: RunId, messageNumber: nat, snapshotVersion: nat)

  datatype Session = Session(owner: OwnerHash, title: Digest, eventSeq: nat, runState: RunState, log: seq<Event>)

  datatype Run = Run(session: SessionId, key: RequestKey, digest: Digest, receipt: Receipt, state: RunState)

  datatype HazardOwner = LegacyUnfenced | OwnedBy(instance: InstanceId)

  // createKeys and requests are the unique indexes on (owner, create_key) and (session_id, request_key).
  datatype Tables = Tables(
    sessions: map<SessionId, Session>,
    createKeys: map<(OwnerHash, RequestKey), SessionId>,
    runs: map<RunId, Run>,
    requests: map<(SessionId, RequestKey), RunId>,
    cancels: map<(SessionId, RequestKey), RunId>,
    hazards: map<RunId, HazardOwner>)

  // How a transaction ends: committed, rolled back (any statement or body write failed),
  // or committed although the client was told of an error.
  datatype TxOutcome = Durable | RolledBack | Unreported

  // finish compares the payload code with one constant only.
  datatype FinishCode = BridgeRestartInterrupted | OtherCode

  // ---- events ----

  function AppendToRow(row: Session, run: RunId, kind: EventKind): Session {
    row.(eventSeq := row.eventSeq + 1, log := row.log + [Event(row.eventSeq + 1, run, kind)])
  }

  function TerminalKind(state: RunState): EventKind {
    match state
    case Completed => RunCompleted
    case Cancelled => RunCancelled
    case _ => RunFailed
  }

  // ---- what each transaction does to the session row it locks ----

  function AcceptRow(row: Session, run: RunId): Session {
    AppendToRow(AppendToRow(row, run, MessageCreated), run, RunQueued).(runState := Queued)
  }

  function StartRow(row: Session, run: RunId): Session {
    AppendToRow(AppendToRow(row.(runState := Running), run, RunRunning), run, RunProgressed)
  }

  function CancelRow(row: Session, run: RunId): Session {
    AppendToRow(row, run, RunCancelRequested).(runState := CancelRequested)
  }

  function FinishRow(row: Session, run: RunId, state: RunState): Session {
    var answered := if state == Completed then AppendToRow(row, run, AssistantMessageCreated) else row;
    AppendToRow(answered, run, TerminalKind(state)).(runState := state)
  }

  // ---- session creation ----

  datatype CreateReply = Created(session: SessionId) | CreateConflict | CreateFailed

  function CreateTx(db: Tables, owner: OwnerHash, key: RequestKey, title: Digest, id: SessionId, outcome: TxOutcome): (Tables, CreateReply) {
    if outcome == RolledBack then (db, CreateFailed)
    else if (owner, key) in db.createKeys && db.createKeys[(owner, key)] in db.sessions then
      var known := db.createKeys[(owner, key)];
      (db, if outcome == Unreported then CreateFailed
           else if db.sessions[known].title != title then CreateConflict else Created(known))
    else if id in db.sessions then (db, CreateFailed)
    else
      (db.(sessions := db.sessions[id := Session(owner, title, 0, Idle, [])],
           createKeys := db.createKeys[(owner, key) := id]),
       if outcome == Unreported then CreateFailed else Created(id))
  }

  // ---- message acceptance ----

  datatype Message = Message(owner: OwnerHash, session: SessionId, key: RequestKey, digest: Digest)

  datatype TurnKind = SessionStart | SessionMessage

  datatype AcceptReply =
    | SessionNotFound
    | KeyConflict
    | Replayed(receipt: Receipt)
    | RecoveryRequired
    | Busy
    | Unavailable
    | Unconfirmed
    | Accepted(receipt: Receipt, kind: TurnKind)

  // Some hazard is foreign, or belongs to a settled run of this very session.
  predicate NeedsRecovery(db: Tables, self: InstanceId, session: SessionId) {
    exists h :: h in db.hazards && h in db.runs &&
      (db.hazards[h] != OwnedBy(self) || (db.runs[h].session == session && !IsActive(db.runs[h].state)))
  }

  predicate HasActiveRun(db: Tables, session: SessionId) {
    exists r :: r in db.runs && db.runs[r].session == session && IsActive(db.runs[r].state)
  }

  predicate HasRun(db: Tables, session: SessionId) {
    exists r :: r in db.runs && db.runs[r].session == session
  }

  function NewReceipt(db: Tables, session: SessionId, run: RunId): Receipt
    requires session in db.sessions
  {
    var seqNo := db.sessions[session].eventSeq;
    Receipt(session, run, seqNo + 1, seqNo + 3)
  }

  function AcceptedTables(db: Tables, m: Message, run: RunId): Tables
    requires m.session in db.sessions
  {
    db.(sessions := db.sessions[m.session := AcceptRow(db.sessions[m.session], run)],
        runs := db.runs[run := Run(m.session, m.key, m.digest, NewReceipt(db, m.session, run), Queued)],
        requests := db.requests[(m.session, m.key) := run])
  }

  // Would this message create a new run on these tables?
  predicate Admits(db: Tables, self: InstanceId, m: Message, run: RunId) {
    && m.session in db.sessions && db.sessions[m.session].owner == m.owner
    && (m.session, m.key) !in db.requests
    && !NeedsRecovery(db, self, m.session)
    && !HasActiveRun(db, m.session)
    && run !in db.runs
  }

  function AcceptTx(db: Tables, self: InstanceId, m: Message, run: RunId, outcome: TxOutcome): (Tables, AcceptReply) {
    if outcome == RolledBack then (db, Unavailable)
    else if m.session !in db.sessions || db.sessions[m.session].owner != m.owner then (db, SessionNotFound)
    else if (m.session, m.key) in db.requests && db.requests[(m.session, m.key)] in db.runs then
      var earlier := db.runs[db.requests[(m.session, m.key)]];
      (db, if earlier.digest != m.digest then KeyConflict else Replayed(earlier.receipt))
    else if NeedsRecovery(db, self, m.session) then (db, RecoveryRequired)
    else if HasActiveRun(db, m.session) then (db, Busy)
    else if run in db.runs || (m.session, m.key) in db.requests then (db, Unavailable)
    else
      (AcceptedTables(db, m, run),
       if outcome == Unreported then Unconfirmed
       else Accepted(NewReceipt(db, m.session, run), if HasRun(db, m.session) then SessionMessage else SessionStart))
  }

  // ---- queued to running ----

  predicate CanStart(db: Tables, session: SessionId, run: RunId) {
    && session in db.sessions
    && run in db.runs && db.runs[run].session == session
    && db.runs[run].state == Queued
    && run !in db.hazards
  }

  function StartedTables(db: Tables, self: InstanceId, session: SessionId, run: RunId): Tables
    requires CanStart(db, session, run)
  {
    db.(hazards := db.hazards[run := OwnedBy(self)],
        runs := db.runs[run := db.runs[run].(state := Running)],
        sessions := db.sessions[session := StartRow(db.sessions[session], run)])
  }

  function StartTx(db: Tables, self: InstanceId, session: SessionId, run: RunId, outcome: TxOutcome): (Tables, bool) {
    if outcome == RolledBack || !CanStart(db, session, run) then (db, false)
    else (StartedTables(db, self, session, run), outcome == Durable)
  }

  // ---- settling a run ----

  // The state finish records: a requested cancellation wins over everything but the restart code.
  function SettledState(current: RunState, asked: RunState, code: FinishCode): RunState {
    if current == CancelRequested && code != BridgeRestartInterrupted then Cancelled else asked
  }

  datatype FinishReply = FinishError | NothingToDo | Recorded(state: RunState)

  predicate CanFinish(db: Tables, session: SessionId, run: RunId) {
    && session in db.sessions
    && run in db.runs && db.runs[run].session == session
    && IsActive(db.runs[run].state)
  }

  function FinishedTables(db: Tables, session: SessionId, run: RunId, state: RunState): Tables
    requires CanFinish(db, session, run)
  {
    db.(runs := db.runs[run := db.runs[run].(state := state)],
        sessions := db.sessions[session := FinishRow(db.sessions[session], run, state)])
  }

  function FinishTx(db: Tables, session: SessionId, run: RunId, asked: RunState, code: FinishCode, outcome: TxOutcome): (Tables, FinishReply) {
    if outcome == RolledBack || session !in db.sessions || run !in db.runs || db.runs[run].session != session then
      (db, FinishError)
    else if !IsActive(db.runs[run].state) then (db, NothingToDo)
    else
      var state := SettledState(db.runs[run].state, asked, code);
      (FinishedTables(db, session, run, state), if outcome == Unreported then FinishError else Recorded(state))
  }

  // ---- cancellation ----

  datatype CancelReply =
    | CancelNotFound
    | CancelKeyConflict
    | NoExecutionContext
    | CancelUnavailable
    | CancelUnconfirmed
    | CancelAnswered(state: RunState)

  predicate CancelRefused(db: Tables, owner: OwnerHash, session: SessionId, run: RunId, key: RequestKey, hasContext: bool) {
    || session !in db.sessions || db.sessions[session].owner != owner
    || run !in db.runs || db.runs[run].session != session
    || ((session, key) in db.cancels && db.cancels[(session, key)] != run)
    || ((db.runs[run].state.Queued? || db.runs[run].state.Running?) && !hasContext)
  }

  function CancelledTables(db: Tables, session: SessionId, run: RunId, key: RequestKey): Tables
    requires session in db.sessions && run in db.runs
  {
    var requested :=
      if db.runs[run].state.Queued? || db.runs[run].state.Running? then
        db.(runs := db.runs[run := db.runs[run].(state := CancelRequested)],
            sessions := db.sessions[session := CancelRow(db.sessions[session], run)])
      else db;
    if (session, key) in requested.cancels then requested
    else requested.(cancels := requested.cancels[(session, key) := run])
  }

  function CancelTx(db: Tables, owner: OwnerHash, session: SessionId, run: RunId, key: RequestKey, hasContext: bool, outcome: TxOutcome): (Tables, CancelReply) {
    if outcome == RolledBack then (db, CancelUnavailable)
    else if session !in db.sessions || db.sessions[session].owner != owner then (db, CancelNotFound)
    else if run !in db.runs || db.runs[run].session != session then (db, CancelNotFound)
    else if (session, key) in db.cancels && db.cancels[(session, key)] != run then (db, CancelKeyConflict)
    else if CancelRefused(db, owner, session, run, key, hasContext) then (db, NoExecutionContext)
    else
      var after := CancelledTables(db, session, run, key);
      (after, if outcome == Unreported then CancelUnconfirmed else CancelAnswered(after.runs[run].state))
  }

  // ---- start-up and hazards ----

  // Every run that still looks active gets a hazard; existing hazards keep their owner.
  function FenceTx(db: Tables, outcome: TxOutcome): Tables {
    if outcome == RolledBack then db
    else
      var active := map r | r in db.runs && IsActive(db.runs[r].state) :: LegacyUnfenced;
      db.(hazards := active + db.hazards)
  }

  function ClearHazardTx(db: Tables, self: InstanceId, run: RunId, outcome: TxOutcome): Tables {
    if outcome == RolledBack || run !in db.hazards || db.hazards[run] != OwnedBy(self) then db
    else db.(hazards := db.hazards - {run})
  }

  function AdminClearTx(db: Tables, run: RunId): Tables {
    db.(hazards := db.hazards - {run})
  }
}
