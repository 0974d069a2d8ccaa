/** What lookups and cancels of a started run are answered, in plain words: the statuses, codes and records
    are spelled out, not said through the predicates of RunRegistry. */
module RunAnswers {
  import opened Text
  import opened Delivery
  import opened RunRegistry

  // Run `run` under `key` was started and has no final answer yet.
  predicate IsOpen(s: Session, run: string, key: string) {
    && run != "" && Trim(run) == run && key != "" && Trim(key) == key
    && s.task.runId == run && s.task.sessionKey == key && !s.task.progressTerminal
  }

  // The lookup or cancel names this run and key, or leaves them open.
  predicate IsAbout(asked: Lookup, run: string, key: string) {
    && (Trim(asked.runId) == "" || Trim(asked.runId) == run)
    && (Trim(asked.openclawSessionKey) == "" || Trim(asked.openclawSessionKey) == key)
  }

  // The payload names this run, or none.
  predicate SaysRun(p: Payload, run: string) {
    Trim(p.runId) == run || (Trim(p.runId) == "" && (Trim(p.taskId) == run || Trim(p.taskId) == ""))
  }

  /** A started run is open: its handle is on record, whatever was there before. */
  lemma {:induction false} StartedRunIsOpen(s: Session, record: Record, deadline: int)
    requires Trim(record.runId) != "" && record.sessionKey != "" && Trim(record.sessionKey) == record.sessionKey
    ensures var t := StartRun(s, record, deadline); var run := Trim(record.runId);
      && IsOpen(t, run, record.sessionKey) && t.task.deadlineAt == Some(deadline) && t.task.provider == record.provider
      && t.task.artifactScope == Trim(record.artifactScope) && t.task.artifactDirectory == Trim(record.artifactDirectory) && t.task.state == Running
      && t.record == Some(record.(runId := run, deadlineAt := Some(deadline)))
      && t.lastResult.Some? && t.lastResult.value.status == "running" && t.lastResult.value.runId == run && CarriesContract(t.lastResult.value, record)
  {
    TrimTwice(record.runId);
    hide Trim;
  }

  lemma {:induction false} OpenIsUncached(s: Session, run: string, key: string, params: Lookup)
    requires IsOpen(s, run, key)
    ensures Cached(s, params) == None
  {
    hide Trim;
  }

  lemma {:induction false} ScopedIsAbout(s: Session, run: string, key: string, asked: Lookup)
    requires run != "" && Trim(run) == run && key != "" && Trim(key) == key && s.task.runId == run && s.task.sessionKey == key && IsAbout(asked, run, key)
    ensures AskedRun(Scoped(s, asked)) == run && AskedKey(Scoped(s, asked)) == key
  {
    hide Trim;
  }

  // The five words that end a run.
  predicate EndsRun(status: string) {
    status == "completed" || status == "failed" || status == "cancelled" || status == "interrupted" || status == "partially_delivered"
  }

  /** The answer's status decides. With one of the five words that end a run, white space and case aside, it
      goes on record, and every later lookup about the run gets it, whatever the gateway says. With any other
      word the record stays as it was. */
  lemma {:induction false} StatusDecides(s: Session, run: string, key: string, asked: Lookup, p: Payload, now: int, later: Lookup, reply: Reply, laterNow: int)
    requires IsOpen(s, run, key) && IsAbout(asked, run, key) && IsAbout(later, run, key)
    requires var answer := TaskGet(s, asked, Answered(Some(p)), now).0; answer.Some? && SaysRun(answer.value, run)
    ensures var (answer, after) := TaskGet(s, asked, Answered(Some(p)), now);
      var status := Lower(Trim(answer.value.status));
      if EndsRun(status) then
        && after.lastResult == answer && after.task.progressTerminal && after.task.progressStage == status
        && after.task.state == (if status == "failed" then Failed else if status == "cancelled" then Cancelled else Completed)
        && TaskGet(after, later, reply, laterNow) == (answer, after)
      else after.lastResult == s.lastResult && after.task == s.task
  {
    hide Normalized, Trim, Lower, Scoped, EqualFold, ShowsWait, Fallback;
    OpenIsUncached(s, run, key, Scoped(s, asked));
    ScopedIsAbout(s, run, key, asked);
    var (answer, after) := TaskGet(s, asked, Answered(Some(p)), now);
    assert Heeded(s, Scoped(s, asked), answer.value);
    ScopedIsAbout(after, run, key, later);
    assert EqualFold(run, run) by { FoldReflexive(); }
  }

  // A running handle tells the run's scope and what it must deliver.
  predicate CarriesContract(p: Payload, record: Record) {
    && p.artifactScope == record.artifactScope && p.artifactDirectory == record.artifactDirectory && p.requiresExport == record.requiresExport
    && (record.requiredExts == [] ==> p.requiredExts == Absent) && (record.requiredExts != [] ==> p.requiredExts == Typed(record.requiredExts))
    && !p.terminal && !p.pending && p.cancellationScope == "" && p.artifacts == []
  }

  /** With the gateway silent an open run is answered by its deadline: up to it with the running handle, past
      it with `interrupted`, which ends the run. Both are on record afterwards. */
  lemma {:induction false} DeadlineDecides(s: Session, run: string, key: string, asked: Lookup, reply: Reply, now: int, deadline: int)
    requires IsOpen(s, run, key) && s.task.deadlineAt == Some(deadline) && s.record.Some? && s.record.value.runId == run && s.record.value.sessionKey == key
    requires !reply.Answered?
    ensures var (answer, after) := TaskGet(s, asked, reply, now);
      && answer.Some? && after.lastResult == answer && answer.value.runId == run && answer.value.openclawSessionKey == key
      && answer.value.provider == s.record.value.provider
      && (now <= deadline ==> answer.value.status == "running" && answer.value.success == Some(true) && after.task == s.task && CarriesContract(answer.value, s.record.value))
      && (now > deadline ==>
            && answer.value.status == "interrupted" && answer.value.success == Some(false) && !answer.value.pending && answer.value.artifacts == []
            && answer.value.event == "interrupted" && answer.value.artifactSyncStatus == "interrupted" && answer.value.taskId == run
            && answer.value.code == "OPENCLAW_RUN_DEADLINE_EXCEEDED" && after.task.progressTerminal && after.task.state == Failed
            && after.task.progressStage == "interrupted")
  {
    hide Trim, Scoped;
    OpenIsUncached(s, run, key, Scoped(s, asked));
  }

  /** A silent lookup of a session that never started a run is not found; code and message say why. */
  lemma {:induction false} NoRunIsNotFound(s: Session, asked: Lookup, code: string, message: string, now: int)
    requires s.record.None? && !s.task.progressTerminal
    ensures var (answer, after) := TaskGet(s, asked, Refused(code, message), now);
      && after == s && answer.Some? && answer.value.status == "not_found"
      && answer.value.code == (if Trim(code) == "" then "TASK_LOOKUP_FAILED" else Trim(code))
      && answer.value.message == (if Trim(message) == "" then "openclaw native task lookup failed" else Trim(message))
    ensures var (answer, after) := TaskGet(s, asked, Unreachable(message), now);
      after == s && answer.Some? && answer.value.status == "not_found" && answer.value.code == "GATEWAY_UNAVAILABLE"
  {
    assert Trim("GATEWAY_UNAVAILABLE") == "GATEWAY_UNAVAILABLE" by { NoSpaceIsTrimmed("GATEWAY_UNAVAILABLE"); }
    hide Trim, Scoped;
  }

  // ---- cancels ----

  // The cancel is for the session's own provider, or leaves it open.
  predicate SameProvider(s: Session, params: Lookup) {
    s.task.provider == "" || Trim(params.provider) == "" || Trim(params.provider) == s.task.provider
  }

  /** A cancel that names another run, key or provider is refused as out of scope and changes nothing. */
  lemma {:induction false} ForeignCancelIsRefused(s: Session, run: string, key: string, params: Lookup, reply: AbortReply)
    requires IsOpen(s, run, key)
    requires || (Trim(params.runId) != "" && Trim(params.runId) != run)
             || (Trim(params.openclawSessionKey) != "" && Trim(params.openclawSessionKey) != key)
             || (Trim(params.openclawSessionKey) == "" && Trim(params.sessionKey) != "" && Trim(params.sessionKey) != key)
             || !SameProvider(s, params)
    ensures RecordCancel(s, params) == s
    ensures var answer := CancelReply(s, params, reply);
      !answer.accepted && !answer.cancelled && !answer.aborted && answer.code == "RUN_SCOPE_MISMATCH" && answer.scope == ""
  {
    hide Trim;
  }

  /** A cancel in scope, without evidence of an artifact wait, goes to the gateway: accepted exactly when the
      abort is confirmed, for this very run or for none; never cancelled, and the recorded answer stays. */
  lemma {:induction false} NativeCancel(s: Session, run: string, key: string, params: Lookup, reply: AbortReply)
    requires IsOpen(s, run, key) && IsAbout(params, run, key) && SameProvider(s, params) && s.waitRunId != run
    requires Trim(params.openclawSessionKey) == "" ==> Trim(params.sessionKey) == "" || Trim(params.sessionKey) == key
    ensures RecordCancel(s, params) == s.(task := s.task.(progressStage := "cancel-requested"))
    ensures var answer := CancelReply(s, params, reply);
      && !answer.cancelled && answer.runId == run && answer.scope == ""
      && (answer.accepted <==> reply.AbortReply? && reply.ok && reply.aborted.Some? && reply.runIds == Some(if reply.aborted.value then [run] else []))
      && (answer.aborted <==> answer.accepted && reply.aborted.value)
      && answer.code == (if answer.accepted then "" else "NATIVE_CANCEL_UNCONFIRMED")
  {
    hide Trim;
    OpenIsUncached(s, run, key, params);
  }

  /** A cancel after a final answer: confirmed again for a recorded artifact-wait cancellation, refused as
      already terminal for any other; the record stays. */
  lemma {:induction false} CancelAfterEnd(s: Session, run: string, key: string, answer: Payload, reply: AbortReply)
    requires run != "" && Trim(run) == run && s.task.runId == run && s.task.sessionKey == key
    requires s.task.progressTerminal && s.lastResult == Some(answer) && EndsRun(Lower(Trim(answer.status))) && SaysRun(answer, run)
    ensures RecordCancel(s, ANY_RUN) == s && RecordCancel(s, ANY_RUN.(runId := run)) == s
    ensures var confirmed := CancelReply(s, ANY_RUN.(runId := run), reply);
      if answer.cancellationScope == "artifact-wait" then confirmed == CancelAnswer(true, true, false, "artifact-wait", "", run)
      else confirmed == CancelAnswer(false, false, false, "", "TASK_ALREADY_TERMINAL", run)
  {
    hide Cached, Trim, Lower, IsTerminal, EqualFold, Covers;
    assert Settled(s, answer) by { EndIsTerminal(answer); }
    CoversBlank(answer, run);
    CoveredIsCached(s, answer, ANY_RUN);
    CoveredIsCached(s, answer, ANY_RUN.(runId := run));
    assert Trim("") == "" by { PlainWord(""); }
  }

  lemma {:induction false} EndIsTerminal(answer: Payload)
    ensures IsTerminal(answer) <==> EndsRun(Lower(Trim(answer.status)))
  {
    hide Trim, Lower;
  }

  lemma {:induction false} CoversBlank(answer: Payload, run: string)
    requires run != "" && Trim(run) == run && SaysRun(answer, run)
    ensures Covers(answer, ANY_RUN) && Covers(answer, ANY_RUN.(runId := run))
  {
    hide Trim, EqualFold;
    assert EqualFold(run, run) by { FoldReflexive(); }
    assert Trim("") == "" by { PlainWord(""); }
  }

  // The answer says that the native run ended by itself and its artifacts are still syncing.
  predicate SaysWaiting(p: Payload, run: string, key: string) {
    && (Trim(p.runId) == run || (Trim(p.runId) == "" && Trim(p.taskId) == run))
    && (Trim(p.openclawSessionKey) == key || (Trim(p.openclawSessionKey) == "" && Trim(p.sessionKey) == key))
    && p.status == "running" && p.taskStatus == "completed" && p.success == Some(true) && p.terminal && p.pending
    && p.terminalSource == "agent_end" && p.artifactSyncStatus == "syncing"
  }

  /** A cancel right after a lookup of an open run: if the answer said that the run had ended and its artifacts
      were syncing, the wait is cancelled, confirmed and on record; after any other answer that does not end
      the run it is not, and the record stays. */
  lemma {:induction false} LookupDecidesCancel(s: Session, run: string, key: string, asked: Lookup, p: Payload, now: int, reply: AbortReply)
    requires IsOpen(s, run, key) && IsAbout(asked, run, key)
    requires var answer := TaskGet(s, asked, Answered(Some(p)), now).0;
      answer.Some? && SaysRun(answer.value, run) && !EndsRun(Lower(Trim(answer.value.status)))
    ensures var (answer, heard) := TaskGet(s, asked, Answered(Some(p)), now);
      var cancelled, confirmed := RecordCancel(heard, ANY_RUN), CancelReply(heard, ANY_RUN, reply);
      if SaysWaiting(answer.value, run, key) then
        && confirmed.accepted && confirmed.cancelled && confirmed.scope == "artifact-wait" && confirmed.runId == run
        && cancelled.task.progressTerminal && cancelled.task.state == Cancelled && cancelled.task.progressStage == "cancelled" && cancelled.lastResult.Some?
        && (var r := cancelled.lastResult.value;
            r.status == "cancelled" && r.success == Some(false) && r.cancellationScope == "artifact-wait" && r.runId == run
            && r.openclawSessionKey == key && r.code == "ARTIFACT_WAIT_CANCELLED" && r.terminal && !r.pending
            && r.terminalSource == "bridge_artifact_wait_cancel")
      else !confirmed.cancelled && cancelled.lastResult == s.lastResult && !cancelled.task.progressTerminal
  {
    hide Normalized, Trim, Lower, Scoped, EqualFold, Fallback;
    OpenIsUncached(s, run, key, Scoped(s, asked));
    ScopedIsAbout(s, run, key, asked);
    var (answer, heard) := TaskGet(s, asked, Answered(Some(p)), now);
    assert Heeded(s, Scoped(s, asked), answer.value);
    assert !IsTerminal(answer.value);
    PlainWord("");
    OpenIsUncached(heard, run, key, ANY_RUN);
    assert heard.waitRunId == run <==> SaysWaiting(answer.value, run, key);
  }

  /** An unknown status with artifacts is not yet an end while the session's task is running and within its
      deadline: the running handle is answered. Otherwise it is settled at once. */
  lemma {:induction false} TaskStateDecides(s: Session, run: string, key: string, artifacts: seq<string>, now: int)
    requires IsOpen(s, run, key) && (Trim(s.task.artifactScope) != "" || Trim(s.task.artifactDirectory) != "") && artifacts != []
    requires s.record.Some? && s.record.value.runId == run
    ensures var p := BLANK.(status := "unknown", artifacts := artifacts);
      var answer := TaskGet(s, ANY_RUN, Answered(Some(p)), now).0;
      var within := s.record.value.deadlineAt.None? || now < s.record.value.deadlineAt.value;
      && answer.Some?
      && (s.task.state == Running && within ==> answer.value.status == "running" && answer.value.runId == run)
      && (s.task.state != Running || !within ==> answer.value.status == "completed" || answer.value.status == "failed")
  {
    var p := BLANK.(status := "unknown", artifacts := artifacts);
    var params := Scoped(s, ANY_RUN);
    OpenIsUncached(s, run, key, params);
    ScopedIsKnown(s, p);
    UnknownIsUnsettled(p);
    UncachedAnswer(s, ANY_RUN, Some(p), now);
    hide Trim, Lower, Fulfils, RequiredExts, Missing, KnownScope, Unsettled, Normalized, Cached, TaskGet, Scoped, LabelledLike;
    UnknownStatus(params, p, Provider(params), ActiveRecord(s), now);
  }

  lemma {:induction false} UncachedAnswer(s: Session, asked: Lookup, payload: Option<Payload>, now: int)
    requires Cached(s, Scoped(s, asked)) == None
    ensures var params := Scoped(s, asked);
      TaskGet(s, asked, Answered(payload), now).0 == Normalized(params, payload, Provider(params), ActiveRecord(s), now)
  {
    hide Normalized, Scoped, Cached, Store, Fallback;
  }

  lemma {:induction false} UnknownIsUnsettled(p: Payload)
    requires p.status == "unknown" && p.artifacts != []
    ensures Unsettled(p)
  {
    hide Trim, Lower;
    PlainWord("unknown");
  }

  lemma {:induction false} ScopedIsKnown(s: Session, p: Payload)
    requires Trim(s.task.artifactScope) != "" || Trim(s.task.artifactDirectory) != ""
    ensures KnownScope(Scoped(s, ANY_RUN), p)
  {
    hide Trim;
    assert Trim("") == "" by { PlainWord(""); }
  }

  /** What a lookup leaves open is taken from the session: a blank lookup of a run that must deliver files is
      judged under the session's scope, and a success without any artifact is answered as still syncing, under
      the session's run and key. */
  lemma {:induction false} BlankLookupUsesSession(s: Session, run: string, key: string, p: Payload, now: int)
    requires IsOpen(s, run, key) && (Trim(s.task.artifactScope) != "" || Trim(s.task.artifactDirectory) != "") && s.record.Some? && s.record.value.requiresExport
    requires p == BLANK.(status := "completed", success := Some(true))
    ensures var (answer, after) := TaskGet(s, ANY_RUN, Answered(Some(p)), now);
      && answer.Some? && answer.value.status == "running" && answer.value.artifactSyncStatus == "syncing"
      && answer.value.runId == run && answer.value.openclawSessionKey == key && after.lastResult == s.lastResult
      && answer.value.provider == if Trim(s.task.provider) == "" then "openclaw" else Trim(s.task.provider)
  {
    var params := Scoped(s, ANY_RUN);
    OpenIsUncached(s, run, key, params);
    ScopedIsKnown(s, p);
    CompletedClaims(p);
    assert AsksForExport(params, p);
    hide Trim, Lower, Fulfils, RequiredExts, KnownScope, ClaimsEnd, Violates, AsksForExport, Normalized, Cached;
    ClaimWaitsForArtifacts(params, p, Provider(params), ActiveRecord(s), now);
    LabelsOfBlank(s, run, key, p, TaskGet(s, ANY_RUN, Answered(Some(p)), now).0.value);
    RunningIsNoEnd(TaskGet(s, ANY_RUN, Answered(Some(p)), now).0.value);
  }

  lemma {:induction false} CompletedClaims(p: Payload)
    requires p == BLANK.(status := "completed", success := Some(true))
    ensures ClaimsEnd(p) && !Violates(p) && Trim(p.status) != "partially_delivered" && p.artifacts == []
  {
    hide Trim, Lower;
    PlainWord("completed");
    PlainWord("");
  }

  lemma {:induction false} LabelsOfBlank(s: Session, run: string, key: string, p: Payload, r: Payload)
    requires IsOpen(s, run, key) && p == BLANK.(status := "completed", success := Some(true)) && LabelledLike(Scoped(s, ANY_RUN), p, Provider(Scoped(s, ANY_RUN)), r)
    ensures r.runId == run && r.openclawSessionKey == key && r.provider == if Trim(s.task.provider) == "" then "openclaw" else Trim(s.task.provider)
  {
    hide Trim;
    assert Trim("") == "" by { PlainWord(""); }
  }

  lemma {:induction false} RunningIsNoEnd(r: Payload)
    requires r.status == "running"
    ensures !IsTerminal(r)
  {
    hide Trim, Lower;
    PlainWord("running");
  }

  /** In a session without a run, an answer to a lookup that names a task is passed on but never recorded. */
  lemma {:induction false} NamedTaskIsNotRecorded(s: Session, asked: Lookup, payload: Option<Payload>, now: int)
    requires s.task.runId == "" && !s.task.progressTerminal && Trim(asked.runId) == "" && Trim(asked.taskId) != ""
    ensures TaskGet(s, asked, Answered(payload), now).1 == s
  {
    hide Trim, Normalized, ShowsWait;
    assert Trim("") == "" by { PlainWord(""); }
    assert Cached(s, Scoped(s, asked)) == None;
    assert AskedRun(Scoped(s, asked)) == Trim(asked.taskId);
    hide Scoped, Cached;
  }
}
