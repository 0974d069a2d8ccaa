/** The inductive invariant of the protocol, and the proof that every step keeps it. */
module JournalInvariant {
  import opened JournalTables
  import opened JournalWords
  import opened JournalSoundness
  import opened JournalProtocol

  // ---- the invariant ----

  predicate IsTerminal(state: RunState) {
    state == Completed || state == Failed || state == Cancelled
  }

  // What is known about the goroutine of run r on instance i, by where it stands.
  predicate GoroutineOk(w: World, i: InstanceId, r: RunId, stage: Stage) {
    && r in w.launched && w.launched[r] == i && r in w.db.runs
    && match stage
       case Starting => r !in w.calls
       case Probed => r !in w.calls
       case Dispatching => r !in w.calls && r in w.started && r in w.db.hazards && w.db.hazards[r] == OwnedBy(i)
       case Executing => r in w.started && r in w.live
       case Settling(asked, _, _) => IsTerminal(asked) && (asked == Completed ==> r in w.started && r !in w.live)
       case Clearing => r in w.started && r !in w.live && w.db.runs[r].state == Completed
  }

  predicate GoroutinesOk(w: World) {
    forall i, r :: 0 <= i < |w.instances| && r in w.instances[i].stage ==> GoroutineOk(w, i, r, w.instances[i].stage[r])
  }

  // Only the newest instance can hold the lock; who serves or accepts has laid the legacy fence.
  predicate InstancesOk(w: World) {
    forall i :: 0 <= i < |w.instances| ==>
      && (w.instances[i].lockAlive ==> i == |w.instances| - 1)
      && (w.instances[i].accepting || w.instances[i].phase.Fenced? || w.instances[i].phase.Reconciling? || w.instances[i].phase.Serving?
          ==> w.instances[i].fenced)
  }

  predicate HistoryOk(w: World) {
    && (forall r :: r in w.launched ==> r in w.db.runs && w.launched[r] < |w.instances| && w.instances[w.launched[r]].fenced)
    && w.started <= w.launched.Keys
    && (forall k :: 0 <= k < |w.calls| ==> w.calls[k] in w.started)
    && (forall j, k :: 0 <= j < k < |w.calls| ==> w.calls[j] != w.calls[k])
  }

  // An execution not known to have stopped is covered by its own instance's hazard.
  predicate HazardsOk(w: World) {
    && (forall r :: r in w.live ==> r in w.started && r in w.launched && r in w.db.hazards && w.db.hazards[r] == OwnedBy(w.launched[r]))
    && (forall h :: h in w.db.hazards && w.db.hazards[h].OwnedBy? ==> h in w.launched && w.launched[h] == w.db.hazards[h].instance)
  }

  // Once a successor has laid its fence, a former owner's pending start cannot commit.
  predicate FenceOk(w: World) {
    forall i, j, r :: 0 <= i < j < |w.instances| && w.instances[j].fenced && r in w.instances[i].stage && w.instances[i].stage[r] == Probed
      ==> r in w.db.runs && (w.db.runs[r].state != Queued || r in w.db.hazards)
  }

  // While an execution may be going on, no newer instance has launched anything.
  ghost predicate ExclusiveOk(w: World) {
    forall r, r' :: Hot(w, r) && r' in w.launched ==> r in w.launched && w.launched[r'] <= w.launched[r]
  }

  ghost predicate Inv(w: World) {
    && Sound(w.db, w.started)
    && GoroutinesOk(w)
    && InstancesOk(w)
    && HistoryOk(w)
    && HazardsOk(w)
    && FenceOk(w)
    && ExclusiveOk(w)
  }

  // ---- two step shapes that cover most steps ----

  // Only instance i changes: it gains no rights, and its goroutines move to where they may be.
  predicate InstanceMove(w: World, i: InstanceId, inst: Instance) {
    && i < |w.instances|
    && (inst.lockAlive ==> w.instances[i].lockAlive)
    && inst.fenced == w.instances[i].fenced
    && (inst.accepting || inst.phase.Fenced? || inst.phase.Reconciling? || inst.phase.Serving? ==> inst.fenced)
    && (forall r :: r in inst.stage ==>
          && r in w.instances[i].stage
          && GoroutineOk(w, i, r, inst.stage[r])
          && (inst.stage[r] == Dispatching ==> w.instances[i].stage[r] == Dispatching)
          && (inst.stage[r] == Probed ==> w.instances[i].stage[r] == Probed || w.instances[i].lockAlive))
  }

  lemma {:induction false} InstanceMoveKeepsGoroutines(w: World, i: InstanceId, inst: Instance)
    requires GoroutinesOk(w) && InstanceMove(w, i, inst)
    ensures GoroutinesOk(Put(w, i, inst))
  {
    var w' := Put(w, i, inst);
    forall k, r | 0 <= k < |w'.instances| && r in w'.instances[k].stage
      ensures GoroutineOk(w', k, r, w'.instances[k].stage[r])
    {
      assert GoroutineOk(w, k, r, w'.instances[k].stage[r]);
    }
  }

  lemma {:induction false} InstanceMoveKeepsFence(w: World, i: InstanceId, inst: Instance)
    requires FenceOk(w) && InstancesOk(w) && InstanceMove(w, i, inst)
    ensures FenceOk(Put(w, i, inst)) && InstancesOk(Put(w, i, inst))
  {
    hide GoroutineOk;
  }

  lemma {:induction false} InstanceMoveKeepsHot(w: World, i: InstanceId, inst: Instance, r: RunId)
    requires InstanceMove(w, i, inst) && Hot(Put(w, i, inst), r)
    ensures Hot(w, r)
  {
    hide GoroutineOk;
    var w' := Put(w, i, inst);
    if r !in w.live {
      var k :| 0 <= k < |w'.instances| && IsAt(w', k, r, Dispatching);
      assert IsAt(w, k, r, Dispatching);
    }
  }

  lemma {:induction false} InstanceStep(w: World, i: InstanceId, inst: Instance)
    requires Inv(w) && InstanceMove(w, i, inst)
    ensures Inv(Put(w, i, inst))
  {
    hide Sound, InstanceMove, GoroutinesOk, FenceOk, InstancesOk, Hot;
    InstanceMoveKeepsGoroutines(w, i, inst);
    InstanceMoveKeepsFence(w, i, inst);
    InstanceMoveFacts(w, i, inst);
    assert i < |w.instances| && inst.fenced == w.instances[i].fenced;
    forall r | Hot(Put(w, i, inst), r) ensures Hot(w, r) {
      InstanceMoveKeepsHot(w, i, inst, r);
    }
  }

  lemma {:induction false} InstanceMoveFacts(w: World, i: InstanceId, inst: Instance)
    requires InstanceMove(w, i, inst)
    ensures i < |w.instances| && inst.fenced == w.instances[i].fenced
  {
    hide GoroutineOk;
  }

  // Only the tables change: no run goes back to queued or leaves a settled state, new hazards are legacy ones, and no hazard of
  // a live or pending execution disappears.
  predicate TablesMove(w: World, db: Tables) {
    && w.db.runs.Keys <= db.runs.Keys
    && (forall r :: r in w.db.runs && db.runs[r].state == Queued ==> w.db.runs[r].state == Queued)
    && (forall r :: r in w.db.runs && !IsActive(w.db.runs[r].state) ==> db.runs[r].state == w.db.runs[r].state)
    && (forall h :: h in db.hazards && h !in w.db.hazards ==> db.hazards[h] == LegacyUnfenced)
    && (forall h :: h in w.db.hazards && h in db.hazards ==> db.hazards[h] == w.db.hazards[h])
    && (forall h :: h in w.db.hazards && h !in db.hazards ==> Released(w, h))
  }

  // No execution of h is live, and none of its goroutines is about to start one.
  predicate Released(w: World, h: RunId) {
    && h !in w.live
    && (forall i :: 0 <= i < |w.instances| && h in w.instances[i].stage ==>
          w.instances[i].stage[h] != Probed && w.instances[i].stage[h] != Dispatching)
  }

  lemma {:induction false} TablesMoveKeepsGoroutines(w: World, db: Tables)
    requires GoroutinesOk(w) && TablesMove(w, db)
    ensures GoroutinesOk(w.(db := db))
  {
    var w' := w.(db := db);
    forall i, r | 0 <= i < |w'.instances| && r in w'.instances[i].stage
      ensures GoroutineOk(w', i, r, w'.instances[i].stage[r])
    {
      assert GoroutineOk(w, i, r, w.instances[i].stage[r]);
      assert r in w.db.runs && r in db.runs;
      assert r in w.db.hazards && r !in db.hazards ==> Released(w, r);
    }
  }

  lemma {:induction false} TablesMoveKeepsFence(w: World, db: Tables)
    requires FenceOk(w) && TablesMove(w, db)
    ensures FenceOk(w.(db := db))
  {
    var w' := w.(db := db);
    forall i, j, r | 0 <= i < j < |w'.instances| && w'.instances[j].fenced && r in w'.instances[i].stage && w'.instances[i].stage[r] == Probed
      ensures r in db.runs && (db.runs[r].state != Queued || r in db.hazards)
    {
      assert r in w.db.hazards && r !in db.hazards ==> Released(w, r);
    }
  }

  lemma {:induction false} TablesMoveKeepsHazards(w: World, db: Tables)
    requires HazardsOk(w) && HistoryOk(w) && TablesMove(w, db)
    ensures HazardsOk(w.(db := db)) && HistoryOk(w.(db := db))
  {
  }

  lemma {:induction false} TablesStep(w: World, db: Tables)
    requires Inv(w) && Sound(db, w.started) && TablesMove(w, db)
    ensures Inv(w.(db := db))
  {
    hide Sound, TablesMove, GoroutinesOk, FenceOk, HazardsOk, HistoryOk;
    TablesMoveKeepsGoroutines(w, db);
    TablesMoveKeepsFence(w, db);
    TablesMoveKeepsHazards(w, db);
    forall r | Hot(w.(db := db), r) ensures Hot(w, r) {
      SameStagesSameHot(w, w.(db := db), r);
    }
  }

  // ---- start-up ----

  lemma {:induction false} InitKeeps()
    ensures Inv(Init)
  {
  }

  lemma {:induction false} BootKeeps(w: World)
    requires Inv(w)
    ensures Inv(DoBoot(w))
  {
    hide Sound, GoroutineOk;
    var w' := DoBoot(w);
    if w' != w {
      forall i, r | 0 <= i < |w'.instances| && r in w'.instances[i].stage ensures GoroutineOk(w', i, r, w'.instances[i].stage[r]) {
        assert w'.instances[i] == w.instances[i];
        SameWorldGoroutine(w, w', i, r, w.instances[i].stage[r]);
      }
      forall r | Hot(w', r) ensures Hot(w, r) {
        SameStagesSameHot(w, w', r);
      }
    }
  }

  lemma {:induction false} FenceTxMove(w: World, outcome: TxOutcome)
    requires Inv(w)
    ensures TablesMove(w, FenceTx(w.db, outcome)) && Sound(FenceTx(w.db, outcome), w.started)
    ensures outcome != RolledBack ==> forall r :: r in w.db.runs && IsActive(w.db.runs[r].state) ==> r in FenceTx(w.db, outcome).hazards
  {
    hide Sound, Inv, Released;
    InvParts(w);
    FenceSound(w.db, w.started, outcome);
  }

  // After the legacy fence every queued run carries a hazard, so the flag may be raised.
  lemma {:induction false} RaisedFenceBlocks(w: World, i: InstanceId, inst: Instance)
    requires GoroutinesOk(w) && FenceOk(w) && InstancesOk(w) && i < |w.instances|
    requires inst == w.instances[i].(phase := Fenced, fenced := true)
    requires forall r :: r in w.db.runs && IsActive(w.db.runs[r].state) ==> r in w.db.hazards
    ensures FenceOk(Put(w, i, inst)) && InstancesOk(Put(w, i, inst))
  {
    var w' := Put(w, i, inst);
    forall k, j, r | 0 <= k < j < |w'.instances| && w'.instances[j].fenced && r in w'.instances[k].stage && w'.instances[k].stage[r] == Probed
      ensures r in w'.db.runs && (w'.db.runs[r].state != Queued || r in w'.db.hazards)
    {
      assert GoroutineOk(w, k, r, w.instances[k].stage[r]);
    }
  }

  lemma {:induction false} RaiseFence(w: World, i: InstanceId, inst: Instance)
    requires Inv(w) && i < |w.instances|
    requires inst == w.instances[i].(phase := Fenced, fenced := true)
    requires forall r :: r in w.db.runs && IsActive(w.db.runs[r].state) ==> r in w.db.hazards
    ensures Inv(Put(w, i, inst))
  {
    hide Sound, FenceOk, InstancesOk, GoroutineOk, Hot;
    var w' := Put(w, i, inst);
    RaisedFenceBlocks(w, i, inst);
    forall k, r | 0 <= k < |w'.instances| && r in w'.instances[k].stage
      ensures GoroutineOk(w', k, r, w'.instances[k].stage[r])
    {
      assert GoroutineOk(w, k, r, w.instances[k].stage[r]);
      SameWorldGoroutine(w, w', k, r, w.instances[k].stage[r]);
    }
    forall r | Hot(w', r) ensures Hot(w, r) {
      SameStagesSameHot(w, w', r);
    }
  }

  // GoroutineOk speaks of the tables and the history only.
  lemma {:induction false} SameWorldGoroutine(w: World, w': World, i: InstanceId, r: RunId, stage: Stage)
    requires w' == w.(instances := w'.instances) && GoroutineOk(w, i, r, stage)
    ensures GoroutineOk(w', i, r, stage)
  {
  }

  lemma {:induction false} SameStagesSameHot(w: World, w': World, r: RunId)
    requires |w'.instances| >= |w.instances| && w'.live <= w.live
    requires forall k :: 0 <= k < |w'.instances| ==>
               w'.instances[k].stage == if k < |w.instances| then w.instances[k].stage else map[]
    requires Hot(w', r)
    ensures Hot(w, r)
  {
    if r !in w.live {
      var k :| 0 <= k < |w'.instances| && IsAt(w', k, r, Dispatching);
      assert IsAt(w, k, r, Dispatching);
    }
  }

  lemma {:induction false} LegacyFenceKeeps(w: World, i: InstanceId, outcome: TxOutcome)
    requires Inv(w)
    ensures Inv(DoLegacyFence(w, i, outcome))
  {
    hide Inv, InstanceMove, TablesMove, FenceTx, Sound;
    if i < |w.instances| && w.instances[i].phase == Booting {
      FenceTxMove(w, outcome);
      var w1 := w.(db := FenceTx(w.db, outcome));
      TablesStep(w, w1.db);
      if outcome == Durable {
        assert FenceTx(w.db, outcome).runs == w.db.runs by { FenceTxRuns(w.db, outcome); }
        RaiseFence(w1, i, w1.instances[i].(phase := Fenced, fenced := true));
      } else {
        InvParts(w1);
        MayStay(w1, i, w1.instances[i].(phase := Stopped));
        InstanceStep(w1, i, w1.instances[i].(phase := Stopped));
      }
    }
  }

  lemma {:induction false} FenceTxRuns(db: Tables, outcome: TxOutcome)
    ensures FenceTx(db, outcome).runs == db.runs
  {
  }

  // What an instance may always do: stand still, stop, lose its lock, forget goroutines.
  lemma {:induction false} MayStay(w: World, i: InstanceId, inst: Instance)
    requires GoroutinesOk(w) && InstancesOk(w) && i < |w.instances|
    requires inst.stage.Keys <= w.instances[i].stage.Keys
    requires forall r :: r in inst.stage ==> inst.stage[r] == w.instances[i].stage[r]
    requires inst.lockAlive ==> w.instances[i].lockAlive
    requires inst.fenced == w.instances[i].fenced
    requires inst.accepting || inst.phase.Fenced? || inst.phase.Reconciling? || inst.phase.Serving? ==> inst.fenced
    ensures InstanceMove(w, i, inst)
  {
    hide GoroutineOk;
  }

  // One goroutine moves on; the instance may lose ownership in the same step.
  lemma {:induction false} MayGo(w: World, i: InstanceId, r: RunId, stage: Stage, lost: bool)
    requires GoroutinesOk(w) && InstancesOk(w) && i < |w.instances|
    requires r in w.instances[i].stage && GoroutineOk(w, i, r, stage) && stage != Dispatching
    requires stage == Probed ==> w.instances[i].lockAlive
    ensures InstanceMove(w, i, Goto(if lost then LoseOwnership(w.instances[i]) else w.instances[i], r, stage))
  {
    hide GoroutineOk;
  }

  lemma {:induction false} InvParts(w: World)
    requires Inv(w)
    ensures Sound(w.db, w.started) && GoroutinesOk(w) && InstancesOk(w)
  {
    hide Sound, GoroutinesOk, InstancesOk, HistoryOk, HazardsOk, FenceOk, ExclusiveOk;
  }

  // ---- steps that touch one instance only ----

  lemma {:induction false} InstanceOnlyKeeps(w: World, step: Step)
    requires Inv(w)
    requires step.ScanActive? || step.Serve? || step.LoseLock? || step.NoticeLoss? || step.AcceptProbe? || step.Deadline?
          || step.BeginClose? || step.EndClose? || step.Crash?
    ensures Inv(Do(w, step))
  {
    hide Inv, InstanceMove, Sound;
    InvParts(w);
    var w' := Do(w, step);
    if w' != w {
      MayStay(w, step.i, w'.instances[step.i]);
      InstanceStep(w, step.i, w'.instances[step.i]);
    }
  }

  lemma {:induction false} StartProbeKeeps(w: World, i: InstanceId, r: RunId, answered: bool)
    requires Inv(w)
    ensures Inv(DoStartProbe(w, i, r, answered))
  {
    hide Inv, InstanceMove, Sound;
    InvParts(w);
    if IsAt(w, i, r, Starting) {
      var inst := w.instances[i];
      assert GoroutineOk(w, i, r, Starting);
      if inst.closed || inst.ownershipLost {
        MayGo(w, i, r, Settling(Failed, OtherCode, true), false);
        InstanceStep(w, i, StartFailed(inst, r));
      } else if answered && inst.lockAlive {
        MayGo(w, i, r, Probed, false);
        InstanceStep(w, i, Goto(inst, r, Probed));
      } else {
        MayGo(w, i, r, Settling(Failed, OtherCode, true), true);
        InstanceStep(w, i, StartFailed(LoseOwnership(inst), r));
      }
    }
  }

  lemma {:induction false} SkipProcessKeeps(w: World, i: InstanceId, r: RunId)
    requires Inv(w)
    ensures Inv(DoSkipProcess(w, i, r))
  {
    hide Inv, InstanceMove, Sound;
    InvParts(w);
    if IsAt(w, i, r, Dispatching) && r in w.instances[i].active && w.instances[i].active[r] != Live {
      var (state, code) := Verdict(w.instances[i].active[r], ProcessResult(false, OtherCode));
      assert GoroutineOk(w, i, r, Dispatching);
      MayGo(w, i, r, Settling(state, code, false), false);
      InstanceStep(w, i, Goto(w.instances[i], r, Settling(state, code, false)));
    }
  }

  // ---- steps that run a transaction ----

  lemma {:induction false} FinishTxMove(w: World, s: SessionId, r: RunId, asked: RunState, code: FinishCode, outcome: TxOutcome)
    requires Sound(w.db, w.started) && IsTerminal(asked) && (asked == Completed ==> r in w.started)
    ensures var (db, reply) := FinishTx(w.db, s, r, asked, code, outcome);
      TablesMove(w, db) && Sound(db, w.started)
      && (reply.Recorded? ==> r in db.runs && db.runs[r].state == reply.state)
  {
    hide Sound, Released, FinishRow;
    if outcome != RolledBack && CanFinish(w.db, s, r) {
      FinishSound(w.db, w.started, s, r, SettledState(w.db.runs[r].state, asked, code));
    }
  }

  lemma {:induction false} ReconcileKeeps(w: World, i: InstanceId, outcome: TxOutcome)
    requires Inv(w)
    ensures Inv(DoReconcile(w, i, outcome))
  {
    hide Inv, InstanceMove, TablesMove, FinishTx, Sound;
    var w' := DoReconcile(w, i, outcome);
    if w' != w {
      InvParts(w);
      var r := w.instances[i].phase.todo[0];
      FinishTxMove(w, w.db.runs[r].session, r, Failed, BridgeRestartInterrupted, outcome);
      TablesStep(w, w'.db);
      var w1 := w.(db := w'.db);
      InvParts(w1);
      MayStay(w1, i, w'.instances[i]);
      InstanceStep(w1, i, w'.instances[i]);
      assert w' == Put(w1, i, w'.instances[i]);
    }
  }

  lemma {:induction false} FinishCommitKeeps(w: World, i: InstanceId, r: RunId, outcome: TxOutcome)
    requires Inv(w)
    ensures Inv(DoFinishCommit(w, i, r, outcome))
  {
    hide Inv, InstanceMove, TablesMove, Sound, FinishedTables;
    var w' := DoFinishCommit(w, i, r, outcome);
    if i < |w.instances| && r in w.instances[i].stage && w.instances[i].stage[r].Settling? && r in w.db.runs {
      InvParts(w);
      var inst, at := w.instances[i], w.instances[i].stage[r];
      assert GoroutineOk(w, i, r, at);
      FinishTxMove(w, w.db.runs[r].session, r, at.asked, at.code, outcome);
      TablesStep(w, w'.db);
      var w1 := w.(db := w'.db);
      InvParts(w1);
      assert GoroutineOk(w1, i, r, at);
      if r !in w'.instances[i].stage {
        MayStay(w1, i, w'.instances[i]);
      } else {
        MayGo(w1, i, r, w'.instances[i].stage[r], false);
      }
      InstanceStep(w1, i, w'.instances[i]);
      assert w' == Put(w1, i, w'.instances[i]);
    }
  }

  lemma {:induction false} ClearTxMove(w: World, i: InstanceId, r: RunId, reached: TxOutcome)
    requires Inv(w) && IsAt(w, i, r, Clearing)
    ensures var db := ClearHazardTx(w.db, i, r, reached); TablesMove(w, db) && Sound(db, w.started)
  {
    hide Sound, FenceOk, InstancesOk, ExclusiveOk, HazardsOk;
    ClearSound(w.db, ClearHazardTx(w.db, i, r, reached), w.started);
    assert GoroutineOk(w, i, r, Clearing);
    forall k | 0 <= k < |w.instances| && r in w.instances[k].stage ensures k == i {
      assert GoroutineOk(w, k, r, w.instances[k].stage[r]);
    }
    assert Released(w, r);
  }

  lemma {:induction false} ClearHazardKeeps(w: World, i: InstanceId, r: RunId, outcome: TxOutcome)
    requires Inv(w)
    ensures Inv(DoClearHazard(w, i, r, outcome))
  {
    hide Inv, InstanceMove, TablesMove, Sound, ClearHazardTx;
    if IsAt(w, i, r, Clearing) {
      var w', inst := DoClearHazard(w, i, r, outcome), w.instances[i];
      ClearTxMove(w, i, r, if inst.lockAlive then outcome else RolledBack);
      TablesStep(w, w'.db);
      var w1 := w.(db := w'.db);
      InvParts(w1);
      assert GoroutineOk(w1, i, r, Clearing);
      if r !in w'.instances[i].stage {
        MayStay(w1, i, w'.instances[i]);
      } else {
        MayGo(w1, i, r, Settling(Failed, OtherCode, true), true);
      }
      InstanceStep(w1, i, w'.instances[i]);
    }
  }

  lemma {:induction false} RequestCancelKeeps(w: World, i: InstanceId, owner: OwnerHash, s: SessionId, r: RunId, key: RequestKey, outcome: TxOutcome)
    requires Inv(w)
    ensures Inv(DoRequestCancel(w, i, owner, s, r, key, outcome))
  {
    hide Inv, InstanceMove, TablesMove, Sound, CancelTx;
    if i < |w.instances| && w.instances[i].phase == Serving {
      var w', inst := DoRequestCancel(w, i, owner, s, r, key, outcome), w.instances[i];
      CancelTxMove(w, owner, s, r, key, r in inst.active, outcome);
      TablesStep(w, w'.db);
      var w1 := w.(db := w'.db);
      InvParts(w1);
      MayStay(w1, i, w'.instances[i]);
      InstanceStep(w1, i, w'.instances[i]);
      assert w' == Put(w1, i, w'.instances[i]);
    }
  }

  lemma {:induction false} CancelTxMove(w: World, owner: OwnerHash, s: SessionId, r: RunId, key: RequestKey, hasContext: bool, outcome: TxOutcome)
    requires Inv(w)
    ensures var db := CancelTx(w.db, owner, s, r, key, hasContext, outcome).0; TablesMove(w, db) && Sound(db, w.started)
  {
    hide Inv, Sound, Released, CancelRow;
    InvParts(w);
    if outcome != RolledBack && !CancelRefused(w.db, owner, s, r, key, hasContext) {
      CancelSound(w.db, w.started, owner, s, r, key, hasContext);
    }
  }

  lemma {:induction false} CreateSessionKeeps(w: World, i: InstanceId, owner: OwnerHash, key: RequestKey, title: Digest, id: SessionId, outcome: TxOutcome)
    requires Inv(w)
    ensures Inv(DoCreateSession(w, i, owner, key, title, id, outcome))
  {
    hide Inv, Sound, Released;
    InvParts(w);
    CreateSound(w.db, w.started, owner, key, title, id, outcome);
    TablesStep(w, CreateTx(w.db, owner, key, title, id, outcome).0);
  }

  lemma {:induction false} AdminClearsKeeps(w: World, r: RunId)
    requires Inv(w)
    ensures Inv(DoAdminClears(w, r))
  {
    hide Inv, Sound;
    if r !in w.live && !HasGoroutine(w, r) {
      InvParts(w);
      ClearSound(w.db, AdminClearTx(w.db, r), w.started);
      assert Released(w, r);
      TablesStep(w, AdminClearTx(w.db, r));
    }
  }

  // ---- steps that change the history ----

  lemma {:induction false} AcceptCommitKeeps(w: World, i: InstanceId, m: Message, run: RunId, outcome: TxOutcome)
    requires Inv(w)
    ensures Inv(DoAcceptCommit(w, i, m, run, outcome))
  {
    hide Inv, InstanceMove, TablesMove, Sound, AcceptedTables, Admits;
    if i < |w.instances| && w.instances[i].accepting {
      InvParts(w);
      var w', inst := DoAcceptCommit(w, i, m, run, outcome), w.instances[i].(accepting := false);
      AcceptTxCases(w.db, i, m, run, outcome);
      if w'.db == w.db && !AcceptTx(w.db, i, m, run, outcome).1.Accepted? {
        MayStay(w, i, inst);
        InstanceStep(w, i, inst);
      } else {
        AcceptTxMove(w, i, m, run);
        var w1 := w.(db := AcceptedTables(w.db, m, run));
        TablesStep(w, w1.db);
        InvParts(w1);
        MayStay(w1, i, inst);
        InstanceStep(w1, i, inst);
        if outcome == Durable {
          LaunchKeeps(Put(w1, i, inst), i, run);
          assert w'.instances == Put(w1, i, inst).instances[i := w'.instances[i]];
        }
      }
    }
  }

  lemma {:induction false} AcceptTxCases(db: Tables, self: InstanceId, m: Message, run: RunId, outcome: TxOutcome)
    ensures var (db', reply) := AcceptTx(db, self, m, run, outcome);
      || (db' == db && !reply.Accepted?)
      || (Admits(db, self, m, run) && db' == AcceptedTables(db, m, run) && (reply.Accepted? <==> outcome == Durable))
  {
    hide AcceptRow;
  }

  lemma {:induction false} AcceptTxMove(w: World, i: InstanceId, m: Message, run: RunId)
    requires Inv(w) && Admits(w.db, i, m, run)
    ensures var db := AcceptedTables(w.db, m, run);
      TablesMove(w, db) && Sound(db, w.started) && run in db.runs && db.hazards == w.db.hazards
    ensures forall h :: h in w.db.hazards ==> w.db.hazards[h] == OwnedBy(i)
    ensures run !in w.launched
  {
    hide Sound, AcceptRow, Released, FenceOk, ExclusiveOk, InstancesOk, GoroutinesOk;
    AcceptSound(w.db, w.started, i, m, run);
    AllHazardsOwn(w.db, w.started, i, m, run);
  }

  lemma {:induction false} AllHazardsOwn(db: Tables, started: set<RunId>, self: InstanceId, m: Message, run: RunId)
    requires Sound(db, started) && Admits(db, self, m, run)
    ensures forall h :: h in db.hazards ==> h in db.runs && db.hazards[h] == OwnedBy(self) && db.runs[h].session != m.session
  {
    hide RowsSound, WordsSound, RunsSound, ReceiptsSound, RequestsSound, CreateKeysSound, CancelsSound, HazardsSound, Admits;
    AdmitsMeansNoHazard(db, self, m, run);
  }

  // The goroutine of r on instance i is now at `stage`, which is neither a pending nor a committed start.
  predicate Moved(w: World, w': World, i: InstanceId, r: RunId, stage: Stage) {
    && w'.db == w.db && i < |w.instances| && |w'.instances| == |w.instances|
    && stage != Probed && stage != Dispatching
    && w'.instances[i].stage == w.instances[i].stage[r := stage]
    && w'.instances[i].lockAlive == w.instances[i].lockAlive && w'.instances[i].fenced == w.instances[i].fenced
    && w'.instances[i].phase == w.instances[i].phase && w'.instances[i].accepting == w.instances[i].accepting
    && (forall k :: 0 <= k < |w.instances| && k != i ==> w'.instances[k] == w.instances[k])
  }

  lemma {:induction false} MovedKeepsFence(w: World, w': World, i: InstanceId, r: RunId, stage: Stage)
    requires FenceOk(w) && InstancesOk(w) && Moved(w, w', i, r, stage)
    ensures FenceOk(w') && InstancesOk(w')
  {
  }

  lemma {:induction false} MovedKeepsHot(w: World, w': World, i: InstanceId, r: RunId, stage: Stage, x: RunId)
    requires Moved(w, w', i, r, stage) && Hot(w', x)
    ensures Hot(w, x) || x in w'.live
  {
    if x !in w'.live {
      var k :| 0 <= k < |w'.instances| && IsAt(w', k, x, Dispatching);
      assert IsAt(w, k, x, Dispatching);
    }
  }

  // The history may grow at r only; everyone else's goroutine is as before.
  lemma {:induction false} MovedKeepsGoroutines(w: World, w': World, i: InstanceId, r: RunId, stage: Stage)
    requires GoroutinesOk(w) && Moved(w, w', i, r, stage) && GoroutineOk(w', i, r, stage)
    requires forall x :: x in w.launched && x != r ==> x in w'.launched && w'.launched[x] == w.launched[x]
    requires forall x :: x != r ==> (x in w'.calls <==> x in w.calls) && (x in w'.live <==> x in w.live)
    requires w'.started == w.started
    requires forall k :: 0 <= k < |w.instances| && k != i ==> r !in w.instances[k].stage
    ensures GoroutinesOk(w')
  {
    forall k, x | 0 <= k < |w'.instances| && x in w'.instances[k].stage
      ensures GoroutineOk(w', k, x, w'.instances[k].stage[x])
    {
      if k != i || x != r {
        assert x != r;
        assert GoroutineOk(w, k, x, w.instances[k].stage[x]);
      }
    }
  }

  lemma {:induction false} OneGoroutinePerRun(w: World, r: RunId)
    requires GoroutinesOk(w)
    ensures forall k :: 0 <= k < |w.instances| && r in w.instances[k].stage ==> r in w.launched && w.launched[r] == k
  {
    forall k | 0 <= k < |w.instances| && r in w.instances[k].stage ensures r in w.launched && w.launched[r] == k {
      assert GoroutineOk(w, k, r, w.instances[k].stage[r]);
    }
  }

  lemma {:induction false} LaunchKeepsHistory(w: World, w': World, i: InstanceId, run: RunId)
    requires HistoryOk(w) && HazardsOk(w) && i < |w.instances| && w.instances[i].fenced
    requires run in w.db.runs && run !in w.launched
    requires w' == w.(launched := w.launched[run := i], instances := w'.instances)
    requires |w'.instances| == |w.instances|
    requires forall k :: 0 <= k < |w.instances| ==> w'.instances[k].fenced == w.instances[k].fenced
    ensures HistoryOk(w') && HazardsOk(w') && run !in w.calls
  {
  }

  // All hazards are the launcher's own, so a launch by it is exclusive.
  lemma {:induction false} LaunchKeeps(w: World, i: InstanceId, run: RunId)
    requires Inv(w) && i < |w.instances| && w.instances[i].fenced
    requires run in w.db.runs && run !in w.launched
    requires forall h :: h in w.db.hazards ==> w.db.hazards[h] == OwnedBy(i)
    ensures var inst := w.instances[i];
      Inv(Put(w.(launched := w.launched[run := i]), i,
              inst.(active := inst.active[run := Live], stage := inst.stage[run := Starting])))
  {
    hide Sound, FenceOk, InstancesOk, Hot, GoroutinesOk, HistoryOk, HazardsOk;
    var inst := w.instances[i];
    var w' := Put(w.(launched := w.launched[run := i]), i,
                  inst.(active := inst.active[run := Live], stage := inst.stage[run := Starting]));
    OneGoroutinePerRun(w, run);
    LaunchKeepsHistory(w, w', i, run);
    MovedKeepsFence(w, w', i, run, Starting);
    MovedKeepsGoroutines(w, w', i, run, Starting);
    forall r, r' | Hot(w', r) && r' in w'.launched ensures r in w'.launched && w'.launched[r'] <= w'.launched[r] {
      MovedKeepsHot(w, w', i, run, Starting, r);
      LiveIsHot(w, r);
      HotIsHazard(w, r);
    }
  }

  lemma {:induction false} LiveIsHot(w: World, r: RunId)
    ensures r in w.live ==> Hot(w, r)
  {
  }

  // Every hot run carries its own launcher's hazard.
  lemma {:induction false} HotIsHazard(w: World, r: RunId)
    requires GoroutinesOk(w) && HazardsOk(w) && Hot(w, r)
    ensures r in w.launched && r in w.db.hazards && w.db.hazards[r] == OwnedBy(w.launched[r])
    ensures r in w.started
  {
    if r !in w.live {
      var k :| 0 <= k < |w.instances| && IsAt(w, k, r, Dispatching);
      assert GoroutineOk(w, k, r, Dispatching);
    }
  }

  lemma {:induction false} StartTxSound(w: World, i: InstanceId, r: RunId)
    requires Inv(w) && r in w.db.runs && CanStart(w.db, w.db.runs[r].session, r)
    ensures Sound(StartedTables(w.db, i, w.db.runs[r].session, r), w.started + {r})
  {
    hide Inv, Sound;
    InvParts(w);
    StartSound(w.db, w.started, i, w.db.runs[r].session, r);
  }

  // A start that commits is by the newest launcher: everyone older is fenced off.
  lemma {:induction false} StarterIsNewest(w: World, i: InstanceId, r: RunId, r': RunId)
    requires Inv(w) && IsAt(w, i, r, Probed) && r in w.db.runs && CanStart(w.db, w.db.runs[r].session, r) && r' in w.launched
    ensures w.launched[r'] <= i
  {
    hide Sound, GoroutinesOk, InstancesOk, HazardsOk, ExclusiveOk;
    var j := w.launched[r'];
    assert j < |w.instances| && w.instances[j].fenced;
  }

  lemma {:induction false} StartCommitKeeps(w: World, i: InstanceId, r: RunId, outcome: TxOutcome)
    requires Inv(w)
    ensures Inv(DoStartCommit(w, i, r, outcome))
  {
    hide Inv, InstanceMove, Sound, StartRow;
    if IsAt(w, i, r, Probed) && r in w.db.runs {
      InvParts(w);
      var s, inst := w.db.runs[r].session, w.instances[i];
      assert GoroutineOk(w, i, r, Probed);
      if outcome != RolledBack && CanStart(w.db, s, r) {
        StartTxSound(w, i, r);
        StartedKeeps(w, i, r, if outcome == Durable then Dispatching else Settling(Failed, OtherCode, true));
      } else {
        MayGo(w, i, r, Settling(Failed, OtherCode, true), false);
        InstanceStep(w, i, StartFailed(inst, r));
      }
    }
  }

  // The world after the start of r by i is in the tables, with its goroutine at `stage`.
  function StartedWorld(w: World, i: InstanceId, r: RunId, stage: Stage): World
    requires i < |w.instances| && r in w.db.runs && CanStart(w.db, w.db.runs[r].session, r)
  {
    Put(w.(db := StartedTables(w.db, i, w.db.runs[r].session, r), started := w.started + {r}), i, Goto(w.instances[i], r, stage))
  }

  lemma {:induction false} StartedKeepsGoroutines(w: World, i: InstanceId, r: RunId, stage: Stage)
    requires GoroutinesOk(w) && IsAt(w, i, r, Probed) && r in w.db.runs && CanStart(w.db, w.db.runs[r].session, r)
    requires stage == Dispatching || stage == Settling(Failed, OtherCode, true)
    ensures GoroutinesOk(StartedWorld(w, i, r, stage))
  {
    hide StartRow;
    var w' := StartedWorld(w, i, r, stage);
    assert GoroutineOk(w, i, r, Probed);
    forall k, x | 0 <= k < |w'.instances| && x in w'.instances[k].stage
      ensures GoroutineOk(w', k, x, w'.instances[k].stage[x])
    {
      if k != i || x != r {
        assert GoroutineOk(w, k, x, w.instances[k].stage[x]);
      }
    }
  }

  lemma {:induction false} StartedKeepsFence(w: World, i: InstanceId, r: RunId, stage: Stage)
    requires FenceOk(w) && InstancesOk(w)
    requires IsAt(w, i, r, Probed) && r in w.db.runs && CanStart(w.db, w.db.runs[r].session, r)
    requires stage == Dispatching || stage == Settling(Failed, OtherCode, true)
    ensures var w' := StartedWorld(w, i, r, stage); FenceOk(w') && InstancesOk(w')
  {
    hide StartRow;
  }

  lemma {:induction false} StartedKeepsHistory(w: World, i: InstanceId, r: RunId, stage: Stage)
    requires HistoryOk(w) && HazardsOk(w)
    requires IsAt(w, i, r, Probed) && r in w.db.runs && CanStart(w.db, w.db.runs[r].session, r)
    requires r in w.launched && w.launched[r] == i
    ensures var w' := StartedWorld(w, i, r, stage); HistoryOk(w') && HazardsOk(w')
  {
    hide StartRow;
  }

  lemma {:induction false} StartedKeepsExclusive(w: World, i: InstanceId, r: RunId, stage: Stage)
    requires Inv(w) && IsAt(w, i, r, Probed) && r in w.db.runs && CanStart(w.db, w.db.runs[r].session, r)
    requires r in w.launched && w.launched[r] == i
    ensures ExclusiveOk(StartedWorld(w, i, r, stage))
  {
    hide Sound, GoroutinesOk, InstancesOk, HistoryOk, HazardsOk, FenceOk, StartRow;
    var w' := StartedWorld(w, i, r, stage);
    forall x, r' | Hot(w', x) && r' in w'.launched ensures x in w'.launched && w'.launched[r'] <= w'.launched[x] {
      if x == r {
        StarterIsNewest(w, i, r, r');
      } else {
        assert Hot(w, x) by {
          if x !in w.live {
            var k :| 0 <= k < |w'.instances| && IsAt(w', k, x, Dispatching);
            assert IsAt(w, k, x, Dispatching);
          }
        }
      }
    }
  }

  lemma {:induction false} StartedKeeps(w: World, i: InstanceId, r: RunId, stage: Stage)
    requires Inv(w) && IsAt(w, i, r, Probed) && r in w.db.runs && CanStart(w.db, w.db.runs[r].session, r)
    requires Sound(StartedTables(w.db, i, w.db.runs[r].session, r), w.started + {r})
    requires stage == Dispatching || stage == Settling(Failed, OtherCode, true)
    ensures Inv(StartedWorld(w, i, r, stage))
  {
    hide Sound, InstancesOk, HistoryOk, HazardsOk, FenceOk, ExclusiveOk, StartedTables;
    assert GoroutineOk(w, i, r, Probed);
    StartedKeepsGoroutines(w, i, r, stage);
    StartedKeepsFence(w, i, r, stage);
    StartedKeepsHistory(w, i, r, stage);
    StartedKeepsExclusive(w, i, r, stage);
  }

  lemma {:induction false} CallProcessKeeps(w: World, i: InstanceId, r: RunId)
    requires Inv(w)
    ensures Inv(DoCallProcess(w, i, r))
  {
    hide Sound, FenceOk, InstancesOk, Hot, GoroutinesOk;
    var w' := DoCallProcess(w, i, r);
    if IsAt(w, i, r, Dispatching) && r in w.instances[i].active && w.instances[i].active[r] == Live {
      DispatchingFacts(w, i, r);
      OneGoroutinePerRun(w, r);
      MovedKeepsFence(w, w', i, r, Executing);
      MovedKeepsGoroutines(w, w', i, r, Executing);
      forall x | Hot(w', x) ensures Hot(w, x) {
        MovedKeepsHot(w, w', i, r, Executing, x);
        LiveIsHot(w, x);
      }
    }
  }

  lemma {:induction false} DispatchingFacts(w: World, i: InstanceId, r: RunId)
    requires GoroutinesOk(w) && IsAt(w, i, r, Dispatching)
    ensures GoroutineOk(w, i, r, Dispatching) && Hot(w, r)
  {
  }

  lemma {:induction false} ProcessReturnsKeeps(w: World, i: InstanceId, r: RunId, result: ProcessResult)
    requires Inv(w)
    ensures Inv(DoProcessReturns(w, i, r, result))
  {
    hide Sound, FenceOk, InstancesOk, Hot, GoroutinesOk;
    var w' := DoProcessReturns(w, i, r, result);
    if IsAt(w, i, r, Executing) && r in w.instances[i].active {
      var (state, code) := Verdict(w.instances[i].active[r], result);
      var stage := Settling(state, code, false);
      assert GoroutineOk(w, i, r, Executing) by { ExecutingFacts(w, i, r); }
      OneGoroutinePerRun(w, r);
      MovedKeepsFence(w, w', i, r, stage);
      MovedKeepsGoroutines(w, w', i, r, stage);
      forall x | Hot(w', x) ensures Hot(w, x) {
        MovedKeepsHot(w, w', i, r, stage, x);
        LiveIsHot(w, x);
      }
    }
  }

  lemma {:induction false} ExecutingFacts(w: World, i: InstanceId, r: RunId)
    requires GoroutinesOk(w) && IsAt(w, i, r, Executing)
    ensures GoroutineOk(w, i, r, Executing)
  {
  }

  lemma {:induction false} ExecutionStopsKeeps(w: World, r: RunId)
    requires Inv(w)
    ensures Inv(DoExecutionStops(w, r))
  {
    hide Sound, FenceOk, InstancesOk, Hot, GoroutinesOk;
    var w' := DoExecutionStops(w, r);
    if w' != w {
      StoppedKeepsGoroutines(w, r);
      StoppedKeepsFence(w, w');
      forall x | Hot(w', x) ensures Hot(w, x) {
        SameStagesSameHot(w, w', x);
      }
    }
  }

  lemma {:induction false} StoppedKeepsGoroutines(w: World, r: RunId)
    requires GoroutinesOk(w)
    ensures GoroutinesOk(DoExecutionStops(w, r))
  {
    var w' := DoExecutionStops(w, r);
    forall k, x | 0 <= k < |w'.instances| && x in w'.instances[k].stage
      ensures GoroutineOk(w', k, x, w'.instances[k].stage[x])
    {
      assert GoroutineOk(w, k, x, w.instances[k].stage[x]);
      assert w' != w && x == r ==> !IsAt(w, k, x, Executing);
    }
  }

  lemma {:induction false} StoppedKeepsFence(w: World, w': World)
    requires FenceOk(w) && InstancesOk(w) && w' == w.(live := w'.live)
    ensures FenceOk(w') && InstancesOk(w')
  {
  }

  // ---- all steps, all runs ----

  lemma {:induction false} StepKeeps(w: World, step: Step)
    requires Inv(w)
    ensures Inv(Do(w, step))
  {
    hide Inv;
    match step
    case Boot => BootKeeps(w);
    case LegacyFence(i, outcome) => LegacyFenceKeeps(w, i, outcome);
    case Reconcile(i, outcome) => ReconcileKeeps(w, i, outcome);
    case CreateSession(i, owner, key, title, id, outcome) => CreateSessionKeeps(w, i, owner, key, title, id, outcome);
    case AcceptCommit(i, message, run, outcome) => AcceptCommitKeeps(w, i, message, run, outcome);
    case StartProbe(i, run, answered) => StartProbeKeeps(w, i, run, answered);
    case StartCommit(i, run, outcome) => StartCommitKeeps(w, i, run, outcome);
    case CallProcess(i, run) => CallProcessKeeps(w, i, run);
    case SkipProcess(i, run) => SkipProcessKeeps(w, i, run);
    case ProcessReturns(i, run, result) => ProcessReturnsKeeps(w, i, run, result);
    case FinishCommit(i, run, outcome) => FinishCommitKeeps(w, i, run, outcome);
    case ClearHazard(i, run, outcome) => ClearHazardKeeps(w, i, run, outcome);
    case RequestCancel(i, owner, session, run, key, outcome) => RequestCancelKeeps(w, i, owner, session, run, key, outcome);
    case ExecutionStops(run) => ExecutionStopsKeeps(w, run);
    case AdminClears(run) => AdminClearsKeeps(w, run);
    case _ => InstanceOnlyKeeps(w, step);
  }

  lemma {:induction false} RunKeeps(steps: seq<Step>)
    ensures Inv(After(steps))
  {
    hide Inv, Do;
    if steps == [] {
      InitKeeps();
    } else {
      RunKeeps(steps[..|steps| - 1]);
      StepKeeps(After(steps[..|steps| - 1]), steps[|steps| - 1]);
    }
  }
}
