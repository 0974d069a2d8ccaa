/** The per-session record of an OpenClaw run: which answer its lookups get, when that answer is final, and
    when a cancellation may be confirmed.

    Every function below is one critical section under the session's mutex; the gateway's replies and the
    clock are parameters. */
module RunRegistry {
  import opened Text
  import opened Delivery

  datatype TaskState = Running | Completed | Failed | Cancelled

  datatype Task = Task(runId: string, sessionKey: string, provider: string, artifactScope: string, artifactDirectory: string,
                       deadlineAt: Option<int>, state: TaskState, progressTerminal: bool, progressStage: string)

  // waitRunId, waitKey: the run whose native execution was last seen ended with artifacts still syncing.
  datatype Session = Session(task: Task, lastResult: Option<Payload>, record: Option<Record>, waitRunId: string, waitKey: string)

  const NO_TASK := Task("", "", "", "", "", None, Running, false, "")
  const NEW_SESSION := Session(NO_TASK, None, None, "", "")

  predicate IsTerminal(p: Payload) {
    StatusOf(p) in {"completed", "failed", "cancelled", "interrupted", "partially_delivered"}
  }

  function AskedRun(params: Lookup): string {
    Or(Trim(params.runId), Trim(params.taskId))
  }

  function AskedKey(params: Lookup): string {
    Or(Trim(params.openclawSessionKey), Trim(params.sessionKey))
  }

  // ---- a turn ----

  // The reset at the start of a turn; the last result, the run record and the artifact wait stay.
  function BeginTurn(s: Session): Session {
    s.(task := NO_TASK)
  }

  function StartRun(s: Session, record: Record, deadline: int): Session {
    var started := record.(runId := Trim(record.runId), deadlineAt := Some(deadline));
    s.(task := Task(started.runId, record.sessionKey, record.provider, Trim(record.artifactScope), Trim(record.artifactDirectory),
                    Some(deadline), Running, false, "running"),
       record := Some(started), lastResult := Some(RunningResult(started)))
  }

  // The running handle on its way to the client; the terminal mark stays as it is.
  function ReturnHandle(s: Session, handle: Payload): Session {
    s.(task := s.task.(state := Running), lastResult := Some(handle))
  }

  // ---- lookups ----

  function Cached(s: Session, params: Lookup): Option<Payload> {
    if !s.task.progressTerminal || s.lastResult.None? || !IsTerminal(s.lastResult.value) then None
    else
      var run := RunOf(s.lastResult.value);
      if AskedRun(params) != "" && run != "" && !EqualFold(run, AskedRun(params)) then None else s.lastResult
  }

  // What a lookup leaves open is taken from the session. The extensions become a typed list.
  function Scoped(s: Session, params: Lookup): Lookup {
    Lookup(
      if Trim(params.runId) == "" then s.task.runId else params.runId,
      if Trim(params.taskId) == "" then s.task.runId else params.taskId,
      if Trim(params.openclawSessionKey) == "" then s.task.sessionKey else params.openclawSessionKey,
      params.sessionKey,
      if Trim(params.provider) == "" then s.task.provider else params.provider,
      if Trim(params.artifactScope) == "" then s.task.artifactScope else params.artifactScope,
      if Trim(params.artifactDirectory) == "" then s.task.artifactDirectory else params.artifactDirectory,
      if params.requiresExport.None? && s.record.Some? && s.record.value.requiresExport then Some(true) else params.requiresExport,
      if params.requiredExts.Absent? && s.record.Some? && s.record.value.requiredExts != []
      then Typed(s.record.value.requiredExts) else params.requiredExts)
  }

  predicate InScope(s: Session, params: Lookup) {
    && (AskedRun(params) == "" || AskedRun(params) == s.task.runId)
    && (AskedKey(params) == "" || AskedKey(params) == s.task.sessionKey)
  }

  predicate NamesTheRun(s: Session, p: Payload) {
    RunOf(p) == "" || RunOf(p) == s.task.runId
  }

  // The native run ended, only its artifacts are still syncing.
  predicate ShowsWait(s: Session, p: Payload) {
    && RunOf(p) != "" && p.status == "running" && p.taskStatus == "completed"
    && p.success == Some(true) && p.terminal && p.pending
    && p.terminalSource == "agent_end" && p.artifactSyncStatus == "syncing"
    && KeyOf(p) == s.task.sessionKey && s.task.sessionKey != ""
  }

  // A recorded artifact-wait cancellation turns native answers away.
  predicate TurnedAway(s: Session, params: Lookup) {
    Cached(s, params).Some? && Cached(s, params).value.cancellationScope == "artifact-wait"
  }

  predicate Heeded(s: Session, params: Lookup, p: Payload) {
    InScope(s, params) && NamesTheRun(s, p) && !TurnedAway(s, params)
  }

  function StateFor(p: Payload): TaskState {
    if StatusOf(p) == "failed" then Failed else if StatusOf(p) == "cancelled" then Cancelled else Completed
  }

  function Store(s: Session, params: Lookup, payload: Option<Payload>): Session {
    if payload.None? || !Heeded(s, params, payload.value) then s
    else
      var p := payload.value;
      var heard := if ShowsWait(s, p) then s.(waitRunId := RunOf(p), waitKey := s.task.sessionKey) else s.(waitRunId := "", waitKey := "");
      if !IsTerminal(p) then heard
      else heard.(task := s.task.(state := StateFor(p), progressTerminal := true, progressStage := StatusOf(p)), lastResult := payload)
  }

  function NotFound(code: string, message: string): Payload {
    BLANK.(status := "not_found", code := Or(Trim(code), "TASK_LOOKUP_FAILED"),
           message := Or(Trim(message), "openclaw native task lookup failed"))
  }

  function Interrupted(record: Record): Payload {
    BLANK.(success := Some(false), status := "interrupted", event := "interrupted", artifactSyncStatus := "interrupted",
           code := "OPENCLAW_RUN_DEADLINE_EXCEEDED", runId := record.runId, taskId := record.runId,
           openclawSessionKey := record.sessionKey, provider := record.provider)
  }

  predicate PastDeadline(task: Task, now: int) {
    task.deadlineAt.Some? && now > task.deadlineAt.value
  }

  // The answer when the gateway cannot confirm the run.
  function Fallback(s: Session, params: Lookup, code: string, message: string, now: int): (Payload, Session) {
    if Cached(s, params).Some? then (Cached(s, params).value, s)
    else if s.record.None? then (NotFound(code, message), s)
    else if PastDeadline(s.task, now) then
      var result := Interrupted(s.record.value);
      (result, s.(task := s.task.(state := Failed, progressTerminal := true, progressStage := "interrupted"), lastResult := Some(result)))
    else
      var handle := RunningResult(s.record.value);
      (handle, s.(lastResult := Some(handle)))
  }

  // The gateway cannot be reached, refuses, or sends a payload (None when it is empty).
  datatype Reply = Unreachable(message: string) | Refused(code: string, message: string) | Answered(payload: Option<Payload>)

  function ActiveRecord(s: Session): Option<Record> {
    if s.task.state == Running then s.record else None
  }

  function Provider(params: Lookup): string {
    Or(Trim(params.provider), "openclaw")
  }

  // One lookup, with no other step of the session in between.
  function TaskGet(s: Session, asked: Lookup, reply: Reply, now: int): (Option<Payload>, Session) {
    var params := Scoped(s, asked);
    if Cached(s, params).Some? then (Cached(s, params), s)
    else
      match reply
      case Unreachable(message) =>
        var (answer, after) := Fallback(s, params, "GATEWAY_UNAVAILABLE", message, now);
        (Some(answer), after)
      case Refused(code, message) =>
        var (answer, after) := Fallback(s, params, code, message, now);
        (Some(answer), after)
      case Answered(payload) =>
        var answer := Normalized(params, payload, Provider(params), ActiveRecord(s), now);
        (answer, Store(s, params, answer))
  }

  // ---- cancellation ----

  datatype CancelAnswer = CancelAnswer(accepted: bool, cancelled: bool, aborted: bool, scope: string, code: string, runId: string)

  // The gateway's reply to an abort: no reply, or what it claims to have aborted.
  datatype AbortReply = NoReply | AbortReply(ok: bool, aborted: Option<bool>, runIds: Option<seq<string>>)

  function WaitCancelled(runId: string, key: string): Payload {
    BLANK.(status := "cancelled", success := Some(false), terminal := true, terminalSource := "bridge_artifact_wait_cancel",
           cancellationScope := "artifact-wait", runId := runId, openclawSessionKey := key, code := "ARTIFACT_WAIT_CANCELLED")
  }

  predicate CancelInScope(s: Session, params: Lookup) {
    && Or(Trim(params.runId), s.task.runId) == s.task.runId
    && (AskedKey(params) == "" || AskedKey(params) == s.task.sessionKey)
    && (s.task.provider == "" || Or(Trim(params.provider), s.task.provider) == s.task.provider)
  }

  // The cancel ends the artifact wait of this run, on the evidence of the recorded wait.
  predicate RecordsWaitCancel(s: Session, params: Lookup) {
    && CancelInScope(s, params) && Cached(s, params).None?
    && s.waitRunId == s.task.runId && s.waitKey == s.task.sessionKey
  }

  function RecordCancel(s: Session, params: Lookup): Session {
    if !CancelInScope(s, params) || Cached(s, params).Some? then s
    else if RecordsWaitCancel(s, params) then
      s.(task := s.task.(state := Cancelled, progressTerminal := true, progressStage := "cancelled"),
         lastResult := Some(WaitCancelled(s.task.runId, s.task.sessionKey)))
    else s.(task := s.task.(progressStage := "cancel-requested"))
  }

  function Unconfirmed(runId: string): CancelAnswer {
    CancelAnswer(false, false, false, "", "NATIVE_CANCEL_UNCONFIRMED", runId)
  }

  function NativeAnswer(s: Session, reply: AbortReply): CancelAnswer {
    var runId := s.task.runId;
    if runId == "" || s.task.sessionKey == "" || reply.NoReply? then Unconfirmed(runId)
    else if !reply.ok || reply.aborted.None? || reply.runIds.None?
            || reply.runIds.value != (if reply.aborted.value then [runId] else []) then Unconfirmed(runId)
    else CancelAnswer(true, false, reply.aborted.value, "", "", runId)
  }

  function CancelReply(s: Session, params: Lookup, reply: AbortReply): CancelAnswer {
    var runId := Or(Trim(params.runId), s.task.runId);
    if !CancelInScope(s, params) then CancelAnswer(false, false, false, "", "RUN_SCOPE_MISMATCH", runId)
    else if Cached(s, params).Some? then
      if Cached(s, params).value.cancellationScope == "artifact-wait" then CancelAnswer(true, true, false, "artifact-wait", "", runId)
      else CancelAnswer(false, false, false, "", "TASK_ALREADY_TERMINAL", runId)
    else if RecordsWaitCancel(s, params) then CancelAnswer(true, true, false, "artifact-wait", "", runId)
    else NativeAnswer(s, reply)
  }

  // ---- the session object ----

  class TaskSession {
    var task: Task
    var lastResult: Option<Payload>
    var openClaw: Option<Record>
    var artifactWaitTerminalRunID: string
    var artifactWaitTerminalSessionKey: string

    constructor ()
      ensures View() == NEW_SESSION
    {
      task, lastResult, openClaw := NO_TASK, None, None;
      artifactWaitTerminalRunID, artifactWaitTerminalSessionKey := "", "";
    }

    function View(): Session
      reads this
    {
      Session(task, lastResult, openClaw, artifactWaitTerminalRunID, artifactWaitTerminalSessionKey)
    }

    method Reset()
      modifies this
      ensures View() == BeginTurn(old(View()))
    {
      task := NO_TASK;
    }

    method Start(record: Record, deadline: int) returns (handle: Payload)
      modifies this
      ensures View() == StartRun(old(View()), record, deadline) && lastResult == Some(handle)
    {
      var started := record.(runId := Trim(record.runId), deadlineAt := Some(deadline));
      task := task.(runId := started.runId, sessionKey := record.sessionKey, provider := record.provider);
      task := task.(artifactScope := Trim(record.artifactScope), artifactDirectory := Trim(record.artifactDirectory));
      task := task.(deadlineAt := Some(deadline), progressStage := "running", state := Running, progressTerminal := false);
      openClaw := Some(started);
      handle := RunningResult(started);
      lastResult := Some(handle);
    }

    method KeepHandle(handle: Payload)
      modifies this
      ensures View() == ReturnHandle(old(View()), handle)
    {
      task := task.(state := Running);
      lastResult := Some(handle);
    }

    method CacheIfTerminal(params: Lookup, payload: Option<Payload>)
      modifies this
      ensures View() == Store(old(View()), params, payload)
    {
      if payload.None? {
        return;
      }
      var p := payload.value;
      if !InScope(View(), params) || (RunOf(p) != "" && RunOf(p) != task.runId) {
        return;
      }
      var cached := Cached(View(), params);
      if cached.Some? && cached.value.cancellationScope == "artifact-wait" {
        return;
      }
      var shows := ShowsWait(View(), p);
      artifactWaitTerminalRunID, artifactWaitTerminalSessionKey := "", "";
      if shows {
        artifactWaitTerminalRunID, artifactWaitTerminalSessionKey := RunOf(p), task.sessionKey;
      }
      if !IsTerminal(p) {
        return;
      }
      task := task.(state := StateFor(p), progressTerminal := true, progressStage := StatusOf(p));
      lastResult := payload;
    }

    method GatewayUnconfirmedFallback(params: Lookup, code: string, message: string, now: int) returns (answer: Payload)
      modifies this
      ensures (answer, View()) == Fallback(old(View()), params, code, message, now)
    {
      var cached := Cached(View(), params);
      if cached.Some? {
        return cached.value;
      }
      if openClaw.None? {
        return NotFound(code, message);
      }
      if PastDeadline(task, now) {
        task := task.(state := Failed, progressTerminal := true, progressStage := "interrupted");
        answer := Interrupted(openClaw.value);
      } else {
        answer := RunningResult(openClaw.value);
      }
      lastResult := Some(answer);
    }

    method HandleTaskGet(asked: Lookup, reply: Reply, now: int) returns (answer: Option<Payload>)
      modifies this
      ensures (answer, View()) == TaskGet(old(View()), asked, reply, now)
    {
      hide Normalized, Scoped, Cached, Store, Fallback;
      var params := Scoped(View(), asked);
      if Cached(View(), params).Some? {
        return Cached(View(), params);
      }
      match reply
      case Unreachable(message) =>
        var handle := GatewayUnconfirmedFallback(params, "GATEWAY_UNAVAILABLE", message, now);
        answer := Some(handle);
      case Refused(code, message) =>
        var handle := GatewayUnconfirmedFallback(params, code, message, now);
        answer := Some(handle);
      case Answered(payload) =>
        answer := Normalized(params, payload, Provider(params), ActiveRecord(View()), now);
        CacheIfTerminal(params, answer);
    }

    method HandleTaskCancel(params: Lookup, reply: AbortReply) returns (answer: CancelAnswer)
      modifies this
      ensures View() == RecordCancel(old(View()), params) && answer == CancelReply(old(View()), params, reply)
    {
      hide Cached, Trim, AskedKey;
      var runId := Or(Trim(params.runId), task.runId);
      if !CancelInScope(View(), params) {
        return CancelAnswer(false, false, false, "", "RUN_SCOPE_MISMATCH", runId);
      }
      var cached := Cached(View(), params);
      if cached.Some? {
        if cached.value.cancellationScope == "artifact-wait" {
          return CancelAnswer(true, true, false, "artifact-wait", "", runId);
        }
        return CancelAnswer(false, false, false, "", "TASK_ALREADY_TERMINAL", runId);
      }
      if artifactWaitTerminalRunID == runId && artifactWaitTerminalSessionKey == task.sessionKey {
        task := task.(state := Cancelled, progressTerminal := true, progressStage := "cancelled");
        lastResult := Some(WaitCancelled(runId, task.sessionKey));
        return CancelAnswer(true, true, false, "artifact-wait", "", runId);
      }
      task := task.(progressStage := "cancel-requested");
      answer := NativeAnswer(View(), reply);
    }
  }

  // ---- all the steps of a session, in any order ----

  datatype Step =
    | Begin
    | Start(record: Record, deadline: int)
    | Return(result: Payload, state: TaskState)
    | Native(params: Lookup, payload: Option<Payload>)
    | GatewaySilent(params: Lookup, code: string, message: string, now: int)
    | Cancel(params: Lookup)

  function Take(s: Session, step: Step): Session {
    match step
    case Begin => BeginTurn(s)
    case Start(record, deadline) => StartRun(s, record, deadline)
    case Return(result, state) => ReturnHandle(s, result).(task := s.task.(state := state))
    case Native(params, payload) => Store(s, params, payload)
    case GatewaySilent(params, code, message, now) => Fallback(s, params, code, message, now).1
    case Cancel(params) => RecordCancel(s, params)
  }

  function TakeAll(s: Session, steps: seq<Step>): Session {
    if steps == [] then s else Take(TakeAll(s, steps[..|steps| - 1]), steps[|steps| - 1])
  }

  // The runs started so far.
  function Runs(steps: seq<Step>): set<string> {
    if steps == [] then {}
    else
      var before, last := Runs(steps[..|steps| - 1]), steps[|steps| - 1];
      if last.Start? then before + {Trim(last.record.runId)} else before
  }

  // Run ids are not empty and never used again.
  predicate FreshRuns(steps: seq<Step>) {
    forall k :: 0 <= k < |steps| && steps[k].Start?
      ==> Trim(steps[k].record.runId) != "" && Trim(steps[k].record.runId) !in Runs(steps[..k])
  }

  function HeardAfter(s: Session, step: Step, heard: Option<Payload>): Option<Payload> {
    if step.Begin? || step.Start? then None
    else if step.Native? && step.payload.Some? && Heeded(s, step.params, step.payload.value) then step.payload
    else heard
  }

  // The latest native answer heeded since the run was started.
  function LatestHeard(s: Session, steps: seq<Step>): Option<Payload> {
    if steps == [] then None
    else
      var front := steps[..|steps| - 1];
      HeardAfter(TakeAll(s, front), steps[|steps| - 1], LatestHeard(s, front))
  }

  // The latest native answer heeded in the whole session, whatever its run, showed such a wait.
  function LatestShows(s: Session, steps: seq<Step>): bool {
    if steps == [] then false
    else
      var front, last := steps[..|steps| - 1], steps[|steps| - 1];
      if last.Native? && last.payload.Some? && Heeded(TakeAll(s, front), last.params, last.payload.value)
      then ShowsWait(TakeAll(s, front), last.payload.value)
      else LatestShows(s, front)
  }

  predicate WaitIsHeard(s: Session, heard: Option<Payload>) {
    s.task.runId != "" ==>
      && (s.waitRunId == s.task.runId <==> heard.Some? && ShowsWait(s, heard.value))
      && (s.waitRunId == s.task.runId ==> s.waitKey == s.task.sessionKey)
      && (heard.Some? ==> NamesTheRun(s, heard.value))
  }

  predicate RunsKnown(s: Session, runs: set<string>) {
    && (s.waitRunId != "" ==> s.waitRunId in runs)
    && (s.task.runId != "" ==> s.task.runId in runs)
    && Trim(s.task.runId) == s.task.runId
    && (s.task.deadlineAt.Some? ==> s.record.Some? && s.record.value.runId == s.task.runId)
  }

  lemma {:induction false} SessionFacts(steps: seq<Step>)
    requires FreshRuns(steps)
    ensures var s := TakeAll(NEW_SESSION, steps);
      RunsKnown(s, Runs(steps)) && WaitIsHeard(s, LatestHeard(NEW_SESSION, steps))
  {
    hide Take, HeardAfter, RunsKnown, WaitIsHeard, Trim;
    if steps == [] {
      NewSessionFacts();
    } else {
      var front, last := steps[..|steps| - 1], steps[|steps| - 1];
      assert forall k :: 0 <= k < |front| ==> front[k] == steps[k] && front[..k] == steps[..k];
      SessionFacts(front);
      StepFacts(TakeAll(NEW_SESSION, front), last, Runs(front), LatestHeard(NEW_SESSION, front));
    }
  }

  lemma {:induction false} NewSessionFacts()
    ensures RunsKnown(NEW_SESSION, {}) && WaitIsHeard(NEW_SESSION, None)
  {
    TrimmedStays("");
  }

  lemma {:induction false} StepFacts(s: Session, step: Step, runs: set<string>, heard: Option<Payload>)
    requires RunsKnown(s, runs) && WaitIsHeard(s, heard)
    requires step.Start? ==> Trim(step.record.runId) != "" && Trim(step.record.runId) !in runs
    ensures RunsKnown(Take(s, step), if step.Start? then runs + {Trim(step.record.runId)} else runs)
    ensures WaitIsHeard(Take(s, step), HeardAfter(s, step, heard))
  {
    hide Cached, InScope, Trim, CancelInScope, IsTerminal, TurnedAway, RunningResult, WaitCancelled, Interrupted, NotFound, StatusOf, KeyOf, RunOf, StateFor;
    match step
    case Begin =>
      assert Trim("") == "" by { TrimmedStays(""); }
    case Start(record, deadline) =>
      TrimTwice(record.runId);
    case _ =>
  }

  predicate WaitIsShown(s: Session, shown: bool) {
    (shown <==> s.waitRunId != "") && (s.waitRunId == "" ==> s.waitKey == "")
  }

  lemma {:induction false} ShownFacts(steps: seq<Step>)
    ensures WaitIsShown(TakeAll(NEW_SESSION, steps), LatestShows(NEW_SESSION, steps))
  {
    hide Take, WaitIsShown, Heeded, ShowsWait;
    if steps == [] {
      assert WaitIsShown(NEW_SESSION, false) by { NothingShown(); }
    } else {
      var front, last := steps[..|steps| - 1], steps[|steps| - 1];
      ShownFacts(front);
      StepShows(TakeAll(NEW_SESSION, front), last, LatestShows(NEW_SESSION, front));
    }
  }

  lemma {:induction false} NothingShown()
    ensures WaitIsShown(NEW_SESSION, false)
  {
  }

  lemma {:induction false} StepShows(s: Session, step: Step, shown: bool)
    requires WaitIsShown(s, shown)
    ensures WaitIsShown(Take(s, step),
              if step.Native? && step.payload.Some? && Heeded(s, step.params, step.payload.value)
              then ShowsWait(s, step.payload.value) else shown)
  {
    hide Cached, InScope, Trim, CancelInScope, IsTerminal, TurnedAway, RunningResult, WaitCancelled, Interrupted, NotFound, StatusOf, KeyOf, StateFor;
  }

  // What a cancel needs: for a run with an id, that the latest native answer heeded for it showed the wait;
  // without an id, that the latest one heeded in the session did not, and that there is no session key.
  predicate WaitEvidence(steps: seq<Step>) {
    var s, heard := TakeAll(NEW_SESSION, steps), LatestHeard(NEW_SESSION, steps);
    if s.task.runId != "" then heard.Some? && ShowsWait(s, heard.value) && RunOf(heard.value) == s.task.runId
    else !LatestShows(NEW_SESSION, steps) && s.task.sessionKey == ""
  }

  /** Artifact-wait cancellation, exactly. In a session whose run ids are never reused, a cancel of a run
      without a final answer records the end of its artifact wait if and only if the latest native answer
      heeded for this run said that it had ended and its artifacts were still syncing. Without a run id it
      is the other way round: it is recorded if and only if the latest answer heeded showed no wait. */
  lemma {:induction false} WaitCancelExactly(steps: seq<Step>, params: Lookup)
    requires FreshRuns(steps) || TakeAll(NEW_SESSION, steps).task.runId == ""
    ensures var s := TakeAll(NEW_SESSION, steps);
      var after, answer := RecordCancel(s, params), CancelReply(s, params, NoReply);
      CancelInScope(s, params) && Cached(s, params).None? ==>
        if WaitEvidence(steps) then
          answer.cancelled && after.task.progressTerminal && after.lastResult == Some(WaitCancelled(s.task.runId, s.task.sessionKey))
        else !answer.cancelled && after.lastResult == s.lastResult && after.task.progressTerminal == s.task.progressTerminal
  {
    if FreshRuns(steps) {
      SessionFacts(steps);
    }
    ShownFacts(steps);
    hide Cached, CancelInScope, TakeAll, LatestHeard, LatestShows, Trim, FreshRuns;
  }

  /** Without a run id no evidence is needed: right after a turn began, a cancel that names no run is
      confirmed as an artifact-wait cancellation although nothing was ever looked up. */
  lemma {:induction false} EmptyRunNeedsNoEvidence()
    ensures var s, params := TakeAll(NEW_SESSION, [Begin]), Lookup("", "", "", "", "", "", "", None, Absent);
      && FreshRuns([Begin]) && LatestHeard(NEW_SESSION, [Begin]) == None
      && RecordsWaitCancel(s, params) && CancelReply(s, params, NoReply).cancelled
  {
    TrimmedStays("");
    hide Trim;
    assert [Begin][..0] == [];
    assert TakeAll(NEW_SESSION, []) == NEW_SESSION;
    assert TakeAll(NEW_SESSION, [Begin]) == BeginTurn(NEW_SESSION);
  }

  lemma {:induction false} FixedStatuses()
    ensures forall runId, key :: IsTerminal(WaitCancelled(runId, key))
    ensures forall record :: IsTerminal(Interrupted(record)) && !IsTerminal(RunningResult(record))
    ensures forall code, message :: !IsTerminal(NotFound(code, message))
  {
    hide Trim, Lower;
    PlainWord("cancelled");
    PlainWord("interrupted");
    PlainWord("running");
    PlainWord("not_found");
  }

  // ---- an artifact-wait cancellation stands ----

  predicate WaitSettled(s: Session) {
    && s.task.progressTerminal && s.task.runId != "" && Trim(s.task.runId) == s.task.runId
    && s.lastResult == Some(WaitCancelled(s.task.runId, s.task.sessionKey))
  }

  // The recorded cancellation and the run it belongs to are as in s.
  predicate SameWait(s: Session, t: Session) {
    && WaitSettled(t) && t.lastResult == s.lastResult && t.record == s.record
    && t.task.runId == s.task.runId && t.task.sessionKey == s.task.sessionKey
  }

  // The steps that overwrite it: a new turn or run, another result handed back to the client, and a lookup
  // that names another run while the gateway is silent.
  predicate DisturbsWait(s: Session, step: Step) {
    || step.Begin? || step.Start?
    || (step.Return? && Some(step.result) != s.lastResult)
    || (step.GatewaySilent? && s.record.Some? && AskedRun(step.params) != "" && !EqualFold(s.task.runId, AskedRun(step.params)))
  }

  lemma {:induction false} WaitStep(s: Session, t: Session, step: Step)
    requires WaitSettled(s) && SameWait(s, t)
    ensures if DisturbsWait(s, step) then !SameWait(s, Take(t, step)) else SameWait(s, Take(t, step))
  {
    FixedStatuses();
    assert forall run :: EqualFold(run, run) by { FoldReflexive(); }
    hide Trim, EqualFold, IsTerminal, CancelInScope, StartRun;
    if step.Start? {
      assert !Take(t, step).task.progressTerminal by { StartIsOpen(t, step.record, step.deadline); }
    }
  }

  lemma {:induction false} StartIsOpen(s: Session, record: Record, deadline: int)
    ensures !StartRun(s, record, deadline).task.progressTerminal
  {
  }

  // It is as in s now and after each of the steps.
  predicate WaitStays(s: Session, steps: seq<Step>) {
    forall k :: 0 <= k <= |steps| ==> SameWait(s, TakeAll(s, steps[..k]))
  }

  predicate NoneDisturbs(s: Session, steps: seq<Step>) {
    forall k :: 0 <= k < |steps| ==> !DisturbsWait(s, steps[k])
  }

  /** A recorded artifact-wait cancellation stays throughout a continuation, in any interleaving, if and only
      if no step disturbs it; native answers and cancels never do. */
  lemma {:induction false} WaitCancelStands(s: Session, steps: seq<Step>)
    requires WaitSettled(s)
    ensures WaitStays(s, steps) <==> NoneDisturbs(s, steps)
  {
    hide DisturbsWait, Take, SameWait, WaitSettled;
    if steps == [] {
      assert SameWait(s, s) by { SameWaitReflexive(s); }
      assert forall k :: 0 <= k <= |steps| ==> steps[..k] == [];
    } else {
      var n := |steps| - 1;
      var front, last := steps[..n], steps[n];
      WaitCancelStands(s, front);
      LongerWait(s, steps);
      if WaitStays(s, front) {
        assert front[..n] == front;
        WaitStep(s, TakeAll(s, front), last);
      }
    }
  }

  lemma {:induction false} LongerWait(s: Session, steps: seq<Step>)
    requires steps != []
    ensures var n := |steps| - 1;
      && (WaitStays(s, steps) <==> WaitStays(s, steps[..n]) && SameWait(s, Take(TakeAll(s, steps[..n]), steps[n])))
      && (NoneDisturbs(s, steps) <==> NoneDisturbs(s, steps[..n]) && !DisturbsWait(s, steps[n]))
  {
    hide DisturbsWait, Take, SameWait;
    var n := |steps| - 1;
    var front := steps[..n];
    assert forall k :: 0 <= k <= n ==> front[..k] == steps[..k];
    assert steps[..n + 1] == steps;
  }

  lemma {:induction false} SameWaitReflexive(s: Session)
    requires WaitSettled(s)
    ensures SameWait(s, s)
  {
  }

  lemma {:induction false} FoldReflexive()
    ensures forall run :: EqualFold(run, run)
  {
  }

  /** A turn starts undecided: whatever was recorded before, no lookup is answered from the record, and with
      the gateway silent none gets a final answer, until a run is started or a new answer recorded. */
  lemma {:induction false} TurnStartsUndecided(s: Session, params: Lookup, code: string, message: string, now: int)
    ensures var t := BeginTurn(s);
      && t.task.runId == "" && t.task.sessionKey == "" && t.task.provider == "" && t.task.artifactScope == "" && t.task.artifactDirectory == ""
      && Cached(t, params) == None && !IsTerminal(Fallback(t, params, code, message, now).0)
      && Fallback(t, params, code, message, now).1.(lastResult := s.lastResult) == t
  {
    FixedStatuses();
    hide IsTerminal, RunningResult, NotFound;
  }

  // ---- the first final answer of a run ----

  predicate Settled(s: Session, answer: Payload) {
    s.task.progressTerminal && s.lastResult == Some(answer) && IsTerminal(answer)
  }

  predicate Covers(answer: Payload, params: Lookup) {
    AskedRun(params) == "" || RunOf(answer) == "" || EqualFold(RunOf(answer), AskedRun(params))
  }

  /** With a settled answer the record decides: a lookup it covers gets that answer and changes nothing. One
      that names another run, while the gateway is silent, replaces the recorded answer by what it gets; the
      two are the same only for the answer `interrupted` past the deadline. */
  lemma {:induction false} RecordDecides(s: Session, answer: Payload, params: Lookup, code: string, message: string, now: int)
    requires Settled(s, answer) && s.record.Some?
    ensures var (got, after) := Fallback(s, params, code, message, now);
      if Covers(answer, params) then got == answer && after == s
      else after.lastResult == Some(got) && (got == answer <==> PastDeadline(s.task, now) && answer == Interrupted(s.record.value))
  {
    FixedStatuses();
    hide Trim, Lower, EqualFold;
  }

  /** One lookup of the session, in scope: a final answer it gives is on record afterwards if it names this
      run or none; a final answer that names another run is given out, but leaves the record as it was. */
  lemma {:induction false} FinalAnswerIsRecorded(s: Session, runs: set<string>, asked: Lookup, reply: Reply, now: int)
    requires RunsKnown(s, runs) && InScope(s, Scoped(s, asked))
    ensures var (answer, after) := TaskGet(s, asked, reply, now);
      answer.Some? && IsTerminal(answer.value) ==>
        if NamesTheRun(s, answer.value) then Settled(after, answer.value) && after.task.runId == s.task.runId
        else after == s
  {
    hide Normalized, Trim, InScope, Scoped, EqualFold;
    FixedStatuses();
    hide IsTerminal;
  }

  // What may come next in a session where lookups and cancels come one at a time: those, the return of the
  // handle (or another result) to the client who began the turn, a new turn, and the start of a run.
  datatype Visit =
    | Ask(asked: Lookup, reply: Reply, now: int)
    | AskCancel(params: Lookup)
    | HandBack(result: Payload, state: TaskState)
    | NextTurn
    | Launch(record: Record, deadline: int)

  function Receive(s: Session, visit: Visit): Session {
    match visit
    case Ask(asked, reply, now) => TaskGet(s, asked, reply, now).1
    case AskCancel(params) => RecordCancel(s, params)
    case HandBack(result, state) => Take(s, Return(result, state))
    case NextTurn => BeginTurn(s)
    case Launch(record, deadline) => StartRun(s, record, deadline)
  }

  function ReceiveAll(s: Session, visits: seq<Visit>): Session {
    if visits == [] then s else Receive(ReceiveAll(s, visits[..|visits| - 1]), visits[|visits| - 1])
  }

  // The visits that replace the recorded answer: a new turn or run; another result handed back; a lookup of
  // another run while the gateway is silent; and a cancel that names another task but ends a recorded wait.
  predicate Replaces(s: Session, answer: Payload, visit: Visit) {
    match visit
    case Ask(asked, reply, now) =>
      && !Covers(answer, Scoped(s, asked)) && !reply.Answered? && s.record.Some?
      && !(PastDeadline(s.task, now) && answer == Interrupted(s.record.value))
    case AskCancel(params) =>
      !Covers(answer, params) && RecordsWaitCancel(s, params) && answer != WaitCancelled(s.task.runId, s.task.sessionKey)
    case HandBack(result, _) => result != answer
    case NextTurn => true
    case Launch(_, _) => true
  }

  // Only the task's state and progress stage may differ.
  predicate SameRecord(s: Session, t: Session) {
    t == s.(task := s.task.(state := t.task.state, progressStage := t.task.progressStage))
  }

  lemma {:induction false} CoveredIsCached(s: Session, answer: Payload, params: Lookup)
    requires Settled(s, answer)
    ensures Cached(s, params) == if Covers(answer, params) then Some(answer) else None
  {
  }

  lemma {:induction false} UncoveredIsOutOfScope(s: Session, answer: Payload, params: Lookup)
    requires NamesTheRun(s, answer) && !Covers(answer, params)
    ensures !InScope(s, params)
  {
    assert EqualFold(s.task.runId, s.task.runId) by { FoldReflexive(); }
    hide EqualFold, Trim;
  }

  lemma {:induction false} AskStep(s: Session, answer: Payload, asked: Lookup, reply: Reply, now: int)
    requires Settled(s, answer) && NamesTheRun(s, answer)
    ensures var after := Receive(s, Ask(asked, reply, now));
      if Replaces(s, answer, Ask(asked, reply, now)) then !Settled(after, answer) else SameRecord(s, after)
  {
    FixedStatuses();
    hide Scoped, IsTerminal, Normalized, Covers, Cached, InScope, TurnedAway, RunningResult, NotFound;
    var params := Scoped(s, asked);
    CoveredIsCached(s, answer, params);
    if !Covers(answer, params) {
      UncoveredIsOutOfScope(s, answer, params);
    }
  }

  lemma {:induction false} OtherStep(s: Session, answer: Payload, visit: Visit)
    requires Settled(s, answer) && !visit.Ask?
    ensures if Replaces(s, answer, visit) then !Settled(Receive(s, visit), answer) else SameRecord(s, Receive(s, visit))
  {
    FixedStatuses();
    hide IsTerminal, Covers, Cached, CancelInScope, RunningResult, Trim;
    if visit.AskCancel? {
      CoveredIsCached(s, answer, visit.params);
    }
  }

  // What a visit does to the record depends on the record alone.
  lemma {:induction false} SameRecordSameVisit(s: Session, t: Session, answer: Payload, visit: Visit)
    requires SameRecord(s, t)
    ensures Replaces(s, answer, visit) == Replaces(t, answer, visit)
    ensures Settled(s, answer) == Settled(t, answer) && NamesTheRun(s, answer) == NamesTheRun(t, answer)
  {
    hide IsTerminal, Trim, Covers, Interrupted, WaitCancelled, EqualFold;
  }

  lemma {:induction false} VisitStep(s: Session, t: Session, answer: Payload, visit: Visit)
    requires Settled(s, answer) && NamesTheRun(s, answer) && SameRecord(s, t)
    ensures if Replaces(s, answer, visit) then !Settled(Receive(t, visit), answer) else SameRecord(s, Receive(t, visit))
  {
    SameRecordSameVisit(s, t, answer, visit);
    hide Settled, NamesTheRun, Replaces, Receive;
    match visit
    case Ask(asked, reply, now) => AskStep(t, answer, asked, reply, now);
    case _ => OtherStep(t, answer, visit);
  }

  // The answer is on record now and after each of the visits.
  predicate StaysOnRecord(s: Session, answer: Payload, visits: seq<Visit>) {
    forall k :: 0 <= k <= |visits| ==> Settled(ReceiveAll(s, visits[..k]), answer)
  }

  predicate NoneReplaces(s: Session, answer: Payload, visits: seq<Visit>) {
    forall k :: 0 <= k < |visits| ==> !Replaces(s, answer, visits[k])
  }

  lemma {:induction false} RecordStaysExactly(s: Session, answer: Payload, visits: seq<Visit>)
    requires Settled(s, answer) && NamesTheRun(s, answer)
    ensures StaysOnRecord(s, answer, visits) <==> NoneReplaces(s, answer, visits)
    ensures NoneReplaces(s, answer, visits) ==> SameRecord(s, ReceiveAll(s, visits))
  {
    hide Settled, NamesTheRun, Replaces, Receive;
    if visits == [] {
      assert forall k :: 0 <= k <= |visits| ==> visits[..k] == [];
    } else {
      var n := |visits| - 1;
      var front, last := visits[..n], visits[n];
      RecordStaysExactly(s, answer, front);
      assert forall k :: 0 <= k <= n ==> front[..k] == visits[..k];
      assert visits[..n + 1] == visits && front[..n] == front;
      if NoneReplaces(s, answer, front) {
        VisitStep(s, ReceiveAll(s, front), answer, last);
        if !Replaces(s, answer, last) {
          SameRecordSameVisit(s, ReceiveAll(s, visits), answer, last);
        }
      }
      assert StaysOnRecord(s, answer, visits) <==> StaysOnRecord(s, answer, front) && Settled(ReceiveAll(s, visits), answer);
      assert NoneReplaces(s, answer, visits) <==> NoneReplaces(s, answer, front) && !Replaces(s, answer, last);
    }
  }

  /** The first final answer of a run, exactly. Whatever happened in the session before: once a lookup in
      scope has given a final answer for this run, that answer stays on record throughout a continuation if
      and only if no visit replaces it; and as long as none does, every lookup the answer covers gets it,
      whatever the gateway says and however late it is. */
  lemma {:induction false} FirstFinalAnswerStands(steps: seq<Step>, asked: Lookup, reply: Reply, now: int, later: seq<Visit>, last: Lookup, lastReply: Reply, lastNow: int)
    requires FreshRuns(steps)
    requires var s := TakeAll(NEW_SESSION, steps);
      var answer := TaskGet(s, asked, reply, now).0;
      InScope(s, Scoped(s, asked)) && answer.Some? && IsTerminal(answer.value) && NamesTheRun(s, answer.value)
    ensures var (answer, after) := TaskGet(TakeAll(NEW_SESSION, steps), asked, reply, now);
      && (StaysOnRecord(after, answer.value, later) <==> NoneReplaces(after, answer.value, later))
      && (NoneReplaces(after, answer.value, later) && Covers(answer.value, Scoped(ReceiveAll(after, later), last))
          ==> TaskGet(ReceiveAll(after, later), last, lastReply, lastNow) == (answer, ReceiveAll(after, later)))
  {
    hide TakeAll, Scoped, IsTerminal, Normalized, Covers, InScope, RunsKnown, Settled, ReceiveAll, Store, Fallback, Cached, Replaces, StaysOnRecord, NoneReplaces;
    var s := TakeAll(NEW_SESSION, steps);
    var (answer, after) := TaskGet(s, asked, reply, now);
    SessionFacts(steps);
    FinalAnswerIsRecorded(s, Runs(steps), asked, reply, now);
    RecordStaysExactly(after, answer.value, later);
    if NoneReplaces(after, answer.value, later) {
      SameRecordSameVisit(after, ReceiveAll(after, later), answer.value, NextTurn);
      CoveredIsCached(ReceiveAll(after, later), answer.value, Scoped(ReceiveAll(after, later), last));
    }
  }

  /** The handle that goes back to the client after the run was started erases a final answer recorded in
      the meantime: with the gateway silent, lookups then get the handle, and past the deadline `interrupted`. */
  lemma {:induction false} HandleErasesAnswer(s: Session, answer: Payload, asked: Lookup, message: string, now: int)
    requires Settled(s, answer) && s.record.Some?
    ensures var t := Receive(s, HandBack(RunningResult(s.record.value), Running));
      && !Settled(t, answer)
      && TaskGet(t, asked, Unreachable(message), now).0
         == Some(if PastDeadline(s.task, now) then Interrupted(s.record.value) else RunningResult(s.record.value))
  {
    FixedStatuses();
    hide IsTerminal, RunningResult, Interrupted, Scoped;
  }

  /** A cancel is only confirmed as cancelled when an artifact-wait cancellation is on record afterwards; a
      native abort is at most accepted, and counts as aborted only when it names exactly this run. */
  lemma {:induction false} ConfirmedCancelIsRecorded(s: Session, params: Lookup, reply: AbortReply)
    ensures var answer, after := CancelReply(s, params, reply), RecordCancel(s, params);
      && (answer.cancelled ==> after.lastResult.Some? && Settled(after, after.lastResult.value)
                               && after.lastResult.value.cancellationScope == "artifact-wait")
      && (answer.aborted ==> reply.AbortReply? && reply.ok && reply.runIds == Some([s.task.runId]) && s.task.runId != "")
  {
    FixedStatuses();
    hide Trim, IsTerminal, CancelInScope;
  }

  // ---- what a lookup may newly call complete ----

  /** A final answer newly put on record that claims success has its required files. */
  lemma {:induction false} NewlyRecordedIsDelivered(s: Session, asked: Lookup, p: Payload, now: int)
    requires var params := Scoped(s, asked);
      (ScopeOf(params, p) != "" || DirectoryOf(params, p) != "") && RequiredExts(params, p) != []
    ensures var params, after := Scoped(s, asked), TaskGet(s, asked, Answered(Some(p)), now).1;
      after.lastResult != s.lastResult && ClaimsSuccess(after.lastResult.value) ==>
        Fulfils(after.lastResult.value.artifacts, RequiredExts(params, p))
  {
    hide Scoped, Normalized, IsTerminal, ClaimsSuccess, Fulfils, RequiredExts, ScopeOf, DirectoryOf, Heeded, Cached;
    var params := Scoped(s, asked);
    CompletedMeansDelivered(params, p, Provider(params), ActiveRecord(s), now);
  }

  /** The extensions a session recorded for its run are filled in as a typed list, which reads as no list:
      they never add to what is required. */
  lemma {:induction false} RecordedExtensionsAreIgnored(s: Session, asked: Lookup, p: Payload)
    ensures RequiredExts(Scoped(s, asked), p) == RequiredExts(asked, p)
  {
    hide Trim, Merged, ExtList;
  }

  // The lookup's answer is p itself.
  predicate Presented(s: Session, asked: Lookup, p: Payload, now: int) {
    var params := Scoped(s, asked);
    Normalized(params, Some(p), Provider(params), ActiveRecord(s), now) == Some(p)
  }

  /** The session's recorded extensions, exactly: every payload completed with success that a lookup presents
      has their files if and only if each of them that asks for a file is implied by one that the lookup or
      the payload itself names. */
  lemma {:induction false} RecordedExtensionsExactly(s: Session, asked: Lookup, p: Payload, now: int)
    requires s.record.Some? && (ScopeOf(Scoped(s, asked), p) != "" || DirectoryOf(Scoped(s, asked), p) != "")
    requires p.status == "completed" && p.success == Some(true) && p.constraintSatisfied != Some(false)
    ensures var recorded := s.record.value.requiredExts;
      (forall artifacts :: Presented(s, asked, p.(artifacts := artifacts), now) ==> Fulfils(artifacts, recorded))
      <==> Implies(RequiredExts(asked, p), recorded)
  {
    hide Scoped, Normalized, Fulfils, Implies, RequiredExts, ScopeOf, DirectoryOf, Files;
    var recorded, required := s.record.value.requiredExts, RequiredExts(asked, p);
    forall artifacts
      ensures Presented(s, asked, p.(artifacts := artifacts), now) ==> Fulfils(artifacts, required)
      ensures artifacts != [] && Fulfils(artifacts, required) ==> Presented(s, asked, p.(artifacts := artifacts), now)
    {
      var params, q := Scoped(s, asked), p.(artifacts := artifacts);
      RecordedExtensionsAreIgnored(s, asked, q);
      SameScope(params, asked, p, artifacts);
      CompletedIsKept(params, q, Provider(params), ActiveRecord(s), now);
    }
    ImpliedExactly(required, recorded);
    if Implies(required, recorded) {
      forall artifacts | Presented(s, asked, p.(artifacts := artifacts), now) ensures Fulfils(artifacts, recorded) {
        assert Fulfils(artifacts, required);
      }
    } else {
      assert Presented(s, asked, p.(artifacts := Files(required)), now) && !Fulfils(Files(required), recorded);
    }
  }

  lemma {:induction false} SameScope(params: Lookup, asked: Lookup, p: Payload, artifacts: seq<string>)
    ensures var q := p.(artifacts := artifacts);
      && ScopeOf(params, q) == ScopeOf(params, p) && DirectoryOf(params, q) == DirectoryOf(params, p)
      && RequiredExts(asked, q) == RequiredExts(asked, p)
  {
  }

  const PDF_RUN := Record("r", "k", "openclaw", None, "s", "", true, ["pdf"])
  const ANY_RUN := Lookup("", "", "", "", "", "", "", None, Absent)
  const ONLY_NOTES := BLANK.(status := "completed", success := Some(true), runId := "r", artifacts := ["a.md"])

  /** So a run whose session requires a PDF is recorded as completed with a single Markdown file. */
  lemma {:induction false} RecordedPdfIsNotDemanded()
    ensures var s := StartRun(NEW_SESSION, PDF_RUN, 100);
      && Settled(TaskGet(s, ANY_RUN, Answered(Some(ONLY_NOTES)), 0).1, ONLY_NOTES)
      && ClaimsSuccess(ONLY_NOTES) && !Fulfils(ONLY_NOTES.artifacts, PDF_RUN.requiredExts)
  {
    var s := StartRun(NEW_SESSION, PDF_RUN, 100);
    var params := Scoped(s, ANY_RUN);
    PdfIsMissing();
    hide Trim, Lower, Fulfils, EqualFold, Normalized, ScopeOf, DirectoryOf, RequiredExts;
    PlainWord("");
    PlainWord("r");
    PlainWord("k");
    PlainWord("completed");
    PlainWord("partially_delivered");
    RecordedExtensionsAreIgnored(s, ANY_RUN, ONLY_NOTES);
    NothingRequired();
    assert params.artifactScope == "s" by { PlainWord("s"); }
    NotesPass(params, ActiveRecord(s));
    assert Cached(s, params) == None;
    assert Heeded(s, params, ONLY_NOTES);
  }

  lemma {:induction false} NothingRequired()
    ensures RequiredExts(ANY_RUN, ONLY_NOTES) == []
  {
  }

  lemma {:induction false} NotesPass(params: Lookup, active: Option<Record>)
    requires params.artifactScope == "s" && RequiredExts(params, ONLY_NOTES) == []
    ensures Normalized(params, Some(ONLY_NOTES), Provider(params), active, 0) == Some(ONLY_NOTES)
  {
    hide Trim, Lower, RequiredExts;
    PlainWord("");
    PlainWord("s");
    PlainWord("completed");
  }

  lemma {:induction false} PdfIsMissing()
    ensures !Fulfils(["a.md"], ["pdf"])
  {
    PlainWord("pdf");
    TrimmedStays("a.md");
    assert Lower("a.md")[3] == 'd';
    assert AsksFor(["pdf"][0]);
  }

  // ---- concrete runs in which a final answer is lost ----

  const PDF_STEPS := [Begin, Start(PDF_RUN, 100)]
  const STARTED := PDF_RUN.(deadlineAt := Some(100))
  const OTHER_RUN := ANY_RUN.(runId := "x")

  // The session after its run was started and answered with ONLY_NOTES.
  function AnsweredSession(): Session {
    TaskGet(TakeAll(NEW_SESSION, PDF_STEPS), ANY_RUN, Answered(Some(ONLY_NOTES)), 0).1
  }

  lemma {:induction false} AnsweredSessionIs()
    ensures FreshRuns(PDF_STEPS) && TakeAll(NEW_SESSION, PDF_STEPS) == StartRun(NEW_SESSION, PDF_RUN, 100)
    ensures var s := AnsweredSession();
      && Settled(s, ONLY_NOTES) && NamesTheRun(s, ONLY_NOTES)
      && s.record == Some(STARTED) && s.task.runId == "r" && s.task.sessionKey == "k" && s.task.deadlineAt == Some(100)
  {
    RecordedPdfIsNotDemanded();
    hide TaskGet, Settled, Trim;
    PlainWord("r");
    var start := Start(PDF_RUN, 100);
    assert PDF_STEPS[..1] == [Begin] && [Begin][..0] == [];
    assert Runs([]) == {} && Runs([Begin]) == {};
    assert TakeAll(NEW_SESSION, []) == NEW_SESSION;
    assert TakeAll(NEW_SESSION, [Begin]) == NEW_SESSION;
    assert TakeAll(NEW_SESSION, PDF_STEPS) == Take(NEW_SESSION, start);
    LookupKeepsRun(TakeAll(NEW_SESSION, PDF_STEPS), ANY_RUN, ONLY_NOTES, 0);
  }

  lemma {:induction false} LookupKeepsRun(s: Session, asked: Lookup, p: Payload, now: int)
    ensures var t := TaskGet(s, asked, Answered(Some(p)), now).1;
      t.record == s.record && t.task.runId == s.task.runId && t.task.sessionKey == s.task.sessionKey && t.task.deadlineAt == s.task.deadlineAt
  {
    hide Normalized, Scoped, Cached, Heeded, ShowsWait, IsTerminal;
  }

  /** Begin, start, a lookup that records a final answer, then the handle goes back: the next lookup gets the
      running handle again, and one past the deadline gets `interrupted`. */
  lemma {:induction false} HandBackLosesAnswer()
    ensures var t := Receive(AnsweredSession(), HandBack(RunningResult(STARTED), Running));
      && FreshRuns(PDF_STEPS) && Settled(AnsweredSession(), ONLY_NOTES) && !Settled(t, ONLY_NOTES)
      && TaskGet(t, ANY_RUN, Unreachable(""), 50).0 == Some(RunningResult(STARTED))
      && TaskGet(t, ANY_RUN, Unreachable(""), 101).0 == Some(Interrupted(STARTED))
  {
    AnsweredSessionIs();
    hide AnsweredSession, TaskGet, Settled, Receive, RunningResult, Interrupted, FreshRuns;
    HandleErasesAnswer(AnsweredSession(), ONLY_NOTES, ANY_RUN, "", 50);
    HandleErasesAnswer(AnsweredSession(), ONLY_NOTES, ANY_RUN, "", 101);
  }

  /** The same session, and a lookup that names run x while the gateway is silent: it gets the handle of run
      r, which replaces the final answer on record. */
  lemma {:induction false} OtherRunLosesAnswer()
    ensures Settled(AnsweredSession(), ONLY_NOTES)
    ensures var (got, after) := TaskGet(AnsweredSession(), OTHER_RUN, Unreachable(""), 50);
      got == Some(RunningResult(STARTED)) && after.lastResult == got
  {
    var s := AnsweredSession();
    AnsweredSessionIs();
    hide AnsweredSession, Settled, Trim, RunningResult, EqualFold;
    PlainWord("");
    PlainWord("r");
    PlainWord("x");
    var params := Scoped(s, OTHER_RUN);
    assert !EqualFold("r", "x") by { DifferentLetters(); }
    assert !Covers(ONLY_NOTES, params);
    CoveredIsCached(s, ONLY_NOTES, params);
    hide Cached, Scoped;
  }

  lemma {:induction false} DifferentLetters()
    ensures !EqualFold("r", "x")
  {
    assert Lower("r")[0] == 'r' && Lower("x")[0] == 'x';
  }

  // The run's native execution has ended, its artifacts are still syncing.
  const WAITING := BLANK.(status := "running", taskStatus := "completed", success := Some(true), terminal := true, pending := true,
                          terminalSource := "agent_end", artifactSyncStatus := "syncing", runId := "r", openclawSessionKey := "k")
  const WAIT_STEPS := PDF_STEPS + [Native(ANY_RUN, Some(WAITING)), Cancel(ANY_RUN)]

  lemma {:induction false} WaitIsCancelled()
    ensures var s := TakeAll(NEW_SESSION, WAIT_STEPS);
      FreshRuns(PDF_STEPS) && WaitSettled(s) && s.record == Some(STARTED) && s.task.runId == "r" && s.task.sessionKey == "k"
  {
    AnsweredSessionIs();
    var native, cancel := Native(ANY_RUN, Some(WAITING)), Cancel(ANY_RUN);
    assert WAIT_STEPS[..3] == PDF_STEPS + [native] && (PDF_STEPS + [native])[..2] == PDF_STEPS;
    var s := StartRun(NEW_SESSION, PDF_RUN, 100);
    assert TakeAll(NEW_SESSION, WAIT_STEPS) == Take(Take(s, native), cancel);
    WaitIsRecorded(s);
  }

  lemma {:induction false} WaitIsRecorded(s: Session)
    requires s == StartRun(NEW_SESSION, PDF_RUN, 100)
    ensures var t := Take(Take(s, Native(ANY_RUN, Some(WAITING))), Cancel(ANY_RUN));
      WaitSettled(t) && t.record == s.record && t.task.runId == "r" && t.task.sessionKey == "k"
  {
    hide Trim, Lower, EqualFold;
    PlainWord("");
    PlainWord("r");
    PlainWord("k");
    PlainWord("openclaw");
    PlainWord("running");
    assert Cached(s, ANY_RUN) == None && Heeded(s, ANY_RUN, WAITING) && ShowsWait(s, WAITING) && !IsTerminal(WAITING);
    var heard := s.(waitRunId := "r", waitKey := "k");
    assert Store(s, ANY_RUN, Some(WAITING)) == heard;
    assert CancelInScope(heard, ANY_RUN) && Cached(heard, ANY_RUN) == None;
  }

  /** A recorded artifact-wait cancellation is lost in the same two ways: to the handle that goes back to the
      client, and to a silent lookup of run x. */
  lemma {:induction false} WaitCancelIsLost()
    ensures WaitSettled(TakeAll(NEW_SESSION, WAIT_STEPS))
    ensures !WaitSettled(TakeAll(NEW_SESSION, WAIT_STEPS + [Return(RunningResult(STARTED), Running)]))
    ensures !WaitSettled(TakeAll(NEW_SESSION, WAIT_STEPS + [GatewaySilent(OTHER_RUN, "", "", 50)]))
  {
    WaitIsCancelled();
    OneMoreStep(WAIT_STEPS, Return(RunningResult(STARTED), Running));
    OneMoreStep(WAIT_STEPS, GatewaySilent(OTHER_RUN, "", "", 50));
    hide TakeAll, Take, WaitSettled, FreshRuns, RunningResult;
    HandleDisturbs(TakeAll(NEW_SESSION, WAIT_STEPS));
    OtherRunDisturbs(TakeAll(NEW_SESSION, WAIT_STEPS));
  }

  lemma {:induction false} OneMoreStep(steps: seq<Step>, step: Step)
    ensures TakeAll(NEW_SESSION, steps + [step]) == Take(TakeAll(NEW_SESSION, steps), step)
  {
    assert (steps + [step])[..|steps|] == steps;
  }

  lemma {:induction false} HandleDisturbs(s: Session)
    requires WaitSettled(s)
    ensures !WaitSettled(Take(s, Return(RunningResult(STARTED), Running)))
  {
    SettledIsWait(s);
    LostOrChanged(s, Return(RunningResult(STARTED), Running));
  }

  lemma {:induction false} OtherRunDisturbs(s: Session)
    requires WaitSettled(s) && s.record.Some? && s.task.runId == "r"
    ensures !WaitSettled(Take(s, GatewaySilent(OTHER_RUN, "", "", 50)))
  {
    hide Trim, WaitSettled, Take, EqualFold, AskedRun;
    OtherRunIsX();
    DifferentLetters();
    LostOrChanged(s, GatewaySilent(OTHER_RUN, "", "", 50));
  }

  lemma {:induction false} OtherRunIsX()
    ensures AskedRun(OTHER_RUN) == "x"
  {
    hide Trim;
    PlainWord("x");
  }

  lemma {:induction false} SettledIsWait(s: Session)
    requires WaitSettled(s)
    ensures s.lastResult == Some(WaitCancelled(s.task.runId, s.task.sessionKey))
  {
  }

  // A handed-back handle or a silent lookup changes nothing else that the record depends on.
  lemma {:induction false} LostOrChanged(s: Session, step: Step)
    requires WaitSettled(s) && DisturbsWait(s, step) && (step.Return? || step.GatewaySilent?)
    ensures !WaitSettled(Take(s, step))
  {
    SameWaitReflexive(s);
    WaitStep(s, s, step);
    hide Trim, EqualFold, IsTerminal, RunningResult, Interrupted, NotFound;
  }
}
