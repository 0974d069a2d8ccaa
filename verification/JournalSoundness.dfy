/** What every transaction keeps true of the tables: rows follow their log, the run table is the
    reading of the logs, receipts point at their own message, hazards sit on the latest run. */
module JournalSoundness {
  import opened JournalTables
  import opened JournalWords

  function Words(db: Tables, s: SessionId): seq<Word>
    requires s in db.sessions
  {
    WordsOf(db.sessions[s].log)
  }

  predicate Mentions(words: seq<Word>, run: RunId) {
    exists k :: 0 <= k < |words| && words[k].run == run
  }

  predicate RowsSound(db: Tables) {
    forall s :: s in db.sessions ==> Faithful(db.sessions[s])
  }

  // A word and the run row it tells of agree; `started` is the set of runs that ever reached running.
  predicate Agrees(db: Tables, started: set<RunId>, s: SessionId, w: Word) {
    && w.run in db.runs
    && db.runs[w.run].session == s
    && db.runs[w.run].state == StateOf(w)
    && (w.started <==> w.run in started)
  }

  predicate WordsSound(db: Tables, started: set<RunId>) {
    forall s, k :: s in db.sessions && 0 <= k < |Words(db, s)| ==> Agrees(db, started, s, Words(db, s)[k])
  }

  predicate RunsSound(db: Tables) {
    forall r :: r in db.runs ==> db.runs[r].session in db.sessions && Mentions(Words(db, db.runs[r].session), r)
  }

  predicate ReceiptSound(db: Tables, r: RunId)
    requires r in db.runs && db.runs[r].session in db.sessions
  {
    var receipt, log := db.runs[r].receipt, db.sessions[db.runs[r].session].log;
    && receipt.session == db.runs[r].session && receipt.run == r
    && 1 <= receipt.messageNumber <= |log|
    && log[receipt.messageNumber - 1] == Event(receipt.messageNumber, r, MessageCreated)
    && receipt.snapshotVersion == receipt.messageNumber + 2
  }

  predicate ReceiptsSound(db: Tables) {
    forall r :: r in db.runs ==> db.runs[r].session in db.sessions && ReceiptSound(db, r)
  }

  // requests is exactly the unique index of the run table.
  predicate RequestsSound(db: Tables) {
    && (forall r :: r in db.runs ==> (db.runs[r].session, db.runs[r].key) in db.requests
                                     && db.requests[(db.runs[r].session, db.runs[r].key)] == r)
    && (forall q :: q in db.requests ==> db.requests[q] in db.runs
                                         && db.runs[db.requests[q]].session == q.0 && db.runs[db.requests[q]].key == q.1)
  }

  predicate CreateKeysSound(db: Tables) {
    forall q :: q in db.createKeys ==> db.createKeys[q] in db.sessions && db.sessions[db.createKeys[q]].owner == q.0
  }

  predicate CancelsSound(db: Tables) {
    forall q :: q in db.cancels ==> db.cancels[q] in db.runs && db.runs[db.cancels[q]].session == q.0
  }

  predicate OnLatestRun(db: Tables, h: RunId) {
    && h in db.runs && db.runs[h].session in db.sessions
    && Words(db, db.runs[h].session) != []
    && Last(Words(db, db.runs[h].session)).run == h
  }

  predicate HazardsSound(db: Tables) {
    forall h :: h in db.hazards ==> OnLatestRun(db, h)
  }

  predicate Sound(db: Tables, started: set<RunId>) {
    && RowsSound(db)
    && WordsSound(db, started)
    && RunsSound(db)
    && ReceiptsSound(db)
    && RequestsSound(db)
    && CreateKeysSound(db)
    && CancelsSound(db)
    && HazardsSound(db)
  }

  // ---- consequences ----

  lemma {:induction false} EarlierWords(row: Session, k: nat)
    requires Faithful(row) && k < |WordsOf(row.log)| - 1
    ensures WordsOf(row.log)[k].ending != StillOpen
    ensures WordsOf(row.log)[k].run != Last(WordsOf(row.log)).run
  {
    hide Write, WordsOf;
  }

  // An active run is the last word of its session's log.
  lemma ActiveIsLast(db: Tables, started: set<RunId>, r: RunId)
    requires RowsSound(db) && WordsSound(db, started) && RunsSound(db)
    requires r in db.runs && IsActive(db.runs[r].state)
    ensures db.runs[r].session in db.sessions
    ensures OpenFor(db.sessions[db.runs[r].session], r)
    ensures StateOf(Last(Words(db, db.runs[r].session))) == db.runs[r].state
    ensures Agrees(db, started, db.runs[r].session, Last(Words(db, db.runs[r].session)))
  {
    hide Write, WordsOf, Faithful;
    var s := db.runs[r].session;
    assert Mentions(Words(db, s), r);
    var words := Words(db, s);
    var k :| 0 <= k < |words| && words[k].run == r;
    assert Agrees(db, started, s, words[k]);
    if k < |words| - 1 {
      EarlierWords(db.sessions[s], k);
    }
  }

  lemma NoActiveMeansClosed(db: Tables, started: set<RunId>, s: SessionId, k: nat)
    requires WordsSound(db, started) && s in db.sessions && !HasActiveRun(db, s) && k < |Words(db, s)|
    ensures Words(db, s)[k].ending != StillOpen
  {
    hide WordsOf;
    var w := Words(db, s)[k];
    assert Agrees(db, started, s, w);
    assert !IsActive(db.runs[w.run].state);
  }

  // ---- one session row and one run row change: the shape of start, cancel and finish ----

  // after differs from db in session s (whose last word became w) and in the row of that word's run.
  predicate Touches(db: Tables, after: Tables, s: SessionId, w: Word)
    requires s in db.sessions && Words(db, s) != []
  {
    && s in after.sessions && after.sessions == db.sessions[s := after.sessions[s]]
    && w.run in db.runs && w.run in after.runs
    && after.runs == db.runs[w.run := db.runs[w.run].(state := StateOf(w))]
    && after.requests == db.requests && after.createKeys == db.createKeys
    && db.sessions[s].log <= after.sessions[s].log
    && after.sessions[s].owner == db.sessions[s].owner
    && Faithful(after.sessions[s])
    && w.run == Last(Words(db, s)).run
    && Words(after, s) == WithLast(Words(db, s), w)
  }

  lemma {:induction false} MentionsKept(words: seq<Word>, w: Word, r: RunId)
    requires words != [] && w.run == Last(words).run
    ensures Mentions(WithLast(words, w), r) <==> Mentions(words, r)
  {
    var after := WithLast(words, w);
    assert |after| == |words| && forall k :: 0 <= k < |words| ==> after[k].run == words[k].run;
    if Mentions(words, r) {
      var k :| 0 <= k < |words| && words[k].run == r;
      assert after[k].run == r;
    }
  }

  lemma {:induction false} TouchKeepsWords(db: Tables, after: Tables, s: SessionId, w: Word, started: set<RunId>, started': set<RunId>)
    requires WordsSound(db, started)
    requires s in db.sessions && Faithful(db.sessions[s]) && Words(db, s) != [] && Touches(db, after, s, w)
    requires started <= started' <= started + {w.run} && (w.started <==> w.run in started')
    ensures WordsSound(after, started')
  {
    hide Write, WordsOf, Faithful;
    forall t, k | t in after.sessions && 0 <= k < |Words(after, t)|
      ensures Agrees(after, started', t, Words(after, t)[k])
    {
      assert Agrees(db, started, s, Last(Words(db, s)));
      if t != s {
        assert Agrees(db, started, t, Words(db, t)[k]);
      } else if k < |Words(db, s)| - 1 {
        assert Agrees(db, started, s, Words(db, s)[k]);
        EarlierWords(db.sessions[s], k);
      }
    }
  }

  lemma {:induction false} TouchKeepsRuns(db: Tables, after: Tables, s: SessionId, w: Word)
    requires RowsSound(db) && RunsSound(db) && ReceiptsSound(db)
    requires s in db.sessions && Words(db, s) != [] && Touches(db, after, s, w)
    ensures RowsSound(after) && RunsSound(after) && ReceiptsSound(after)
  {
    hide Write, WordsOf, Faithful, Mentions;
    forall r | r in after.runs
      ensures after.runs[r].session in after.sessions && Mentions(Words(after, after.runs[r].session), r) && ReceiptSound(after, r)
    {
      assert ReceiptSound(db, r);
      if db.runs[r].session == s {
        MentionsKept(Words(db, s), w, r);
      }
    }
  }

  lemma {:induction false} TouchKeepsKeys(db: Tables, after: Tables, s: SessionId, w: Word)
    requires RequestsSound(db) && CreateKeysSound(db)
    requires s in db.sessions && Words(db, s) != [] && Touches(db, after, s, w)
    requires CancelsSound(db.(cancels := after.cancels))
    ensures RequestsSound(after) && CreateKeysSound(after) && CancelsSound(after)
  {
    hide Write, WordsOf, Faithful;
  }

  lemma {:induction false} TouchKeepsHazards(db: Tables, after: Tables, s: SessionId, w: Word, started: set<RunId>)
    requires HazardsSound(db) && WordsSound(db, started)
    requires s in db.sessions && Words(db, s) != [] && Touches(db, after, s, w)
    requires after.hazards.Keys <= db.hazards.Keys + {w.run}
    ensures HazardsSound(after)
  {
    hide Write, WordsOf, Faithful;
    assert Agrees(db, started, s, Last(Words(db, s)));
    forall h | h in after.hazards ensures OnLatestRun(after, h) {
      assert h in db.hazards ==> OnLatestRun(db, h);
    }
  }

  // ---- the transactions ----

  lemma {:induction false} StartSound(db: Tables, started: set<RunId>, self: InstanceId, s: SessionId, r: RunId)
    requires Sound(db, started) && CanStart(db, s, r)
    ensures Sound(StartedTables(db, self, s, r), started + {r})
    ensures Words(StartedTables(db, self, s, r), s) == WithLast(Words(db, s), Word(r, true, false, StillOpen))
  {
    hide Write, WordsOf, Faithful, WellFormed, HazardsSound, ReceiptsSound, RequestsSound, CreateKeysSound, RunsSound, WordsSound;
    ActiveIsLast(db, started, r);
    StartKeepsFaithful(db.sessions[s], r);
    var after, w := StartedTables(db, self, s, r), Word(r, true, false, StillOpen);
    assert Touches(db, after, s, w);
    TouchKeepsWords(db, after, s, w, started, started + {r});
    TouchKeepsRuns(db, after, s, w);
    TouchKeepsKeys(db, after, s, w);
    TouchKeepsHazards(db, after, s, w, started);
  }

  lemma {:induction false} FinishSound(db: Tables, started: set<RunId>, s: SessionId, r: RunId, state: RunState)
    requires Sound(db, started) && CanFinish(db, s, r)
    requires state == Completed || state == Failed || state == Cancelled
    requires state == Completed ==> r in started
    ensures Sound(FinishedTables(db, s, r, state), started)
    ensures OpenFor(db.sessions[s], r)
    ensures Words(FinishedTables(db, s, r, state), s)
         == WithLast(Words(db, s), Last(Words(db, s)).(ending := EndingFor(state)))
  {
    hide Write, WordsOf, Faithful, WellFormed, HazardsSound, ReceiptsSound, RequestsSound, CreateKeysSound, RunsSound, WordsSound;
    ActiveIsLast(db, started, r);
    FinishKeepsFaithful(db.sessions[s], r, state);
    var after, w := FinishedTables(db, s, r, state), Last(Words(db, s)).(ending := EndingFor(state));
    assert Touches(db, after, s, w);
    TouchKeepsWords(db, after, s, w, started, started);
    TouchKeepsRuns(db, after, s, w);
    TouchKeepsKeys(db, after, s, w);
    TouchKeepsHazards(db, after, s, w, started);
  }

  lemma {:induction false} CancelSound(db: Tables, started: set<RunId>, owner: OwnerHash, s: SessionId, r: RunId, key: RequestKey, hasContext: bool)
    requires Sound(db, started) && !CancelRefused(db, owner, s, r, key, hasContext)
    ensures Sound(CancelledTables(db, s, r, key), started)
    ensures db.runs[r].state.Queued? || db.runs[r].state.Running? ==>
      && OpenFor(db.sessions[s], r)
      && Words(CancelledTables(db, s, r, key), s) == WithLast(Words(db, s), Last(Words(db, s)).(cancelAsked := true))
  {
    hide Write, WordsOf, Faithful, WellFormed, HazardsSound, ReceiptsSound, RequestsSound, CreateKeysSound, RunsSound, WordsSound;
    if db.runs[r].state.Queued? || db.runs[r].state.Running? {
      ActiveIsLast(db, started, r);
      CancelKeepsFaithful(db.sessions[s], r);
      var after, w := CancelledTables(db, s, r, key), Last(Words(db, s)).(cancelAsked := true);
      assert Touches(db, after, s, w);
      TouchKeepsWords(db, after, s, w, started, started);
      TouchKeepsRuns(db, after, s, w);
      TouchKeepsKeys(db, after, s, w);
      TouchKeepsHazards(db, after, s, w, started);
    } else {
      var after := CancelledTables(db, s, r, key);
      assert db.sessions == after.sessions && db.runs == after.runs;
      SameJournal(db, after, started);
      FewerHazards(db, after);
    }
  }

  lemma {:induction false} AcceptClosesWords(db: Tables, started: set<RunId>, m: Message, run: RunId)
    requires RowsSound(db) && WordsSound(db, started) && m.session in db.sessions && !HasActiveRun(db, m.session) && run !in db.runs
    ensures Faithful(AcceptRow(db.sessions[m.session], run))
    ensures Words(AcceptedTables(db, m, run), m.session) == Words(db, m.session) + [Word(run, false, false, StillOpen)]
  {
    hide Write, WordsOf, Faithful;
    var words := Words(db, m.session);
    forall k | 0 <= k < |words| ensures words[k].ending != StillOpen && words[k].run != run {
      NoActiveMeansClosed(db, started, m.session, k);
      assert Agrees(db, started, m.session, words[k]);
    }
    AcceptKeepsFaithful(db.sessions[m.session], run);
  }

  lemma {:induction false} AcceptKeepsWords(db: Tables, started: set<RunId>, m: Message, run: RunId)
    requires RowsSound(db) && WordsSound(db, started) && m.session in db.sessions && run !in db.runs && run !in started
    requires Faithful(AcceptRow(db.sessions[m.session], run))
    requires Words(AcceptedTables(db, m, run), m.session) == Words(db, m.session) + [Word(run, false, false, StillOpen)]
    ensures RowsSound(AcceptedTables(db, m, run)) && WordsSound(AcceptedTables(db, m, run), started)
  {
    hide Write, WordsOf, Faithful, AcceptRow, NewReceipt;
    var after, words := AcceptedTables(db, m, run), Words(db, m.session);
    forall t, k | t in after.sessions && 0 <= k < |Words(after, t)|
      ensures Agrees(after, started, t, Words(after, t)[k])
    {
      if t != m.session {
        assert Agrees(db, started, t, Words(db, t)[k]);
      } else if k < |words| {
        assert Agrees(db, started, m.session, words[k]);
      }
    }
  }

  lemma {:induction false} AcceptKeepsKeys(db: Tables, m: Message, run: RunId)
    requires RequestsSound(db) && CreateKeysSound(db) && CancelsSound(db) && m.session in db.sessions && run !in db.runs && (m.session, m.key) !in db.requests
    ensures RequestsSound(AcceptedTables(db, m, run))
    ensures CreateKeysSound(AcceptedTables(db, m, run))
    ensures CancelsSound(AcceptedTables(db, m, run))
  {
    hide NewReceipt;
  }

  // A message is admitted only when every hazard is the acceptor's own and none is in its session.
  lemma {:induction false} AdmitsMeansNoHazard(db: Tables, self: InstanceId, m: Message, run: RunId)
    requires HazardsSound(db) && Admits(db, self, m, run)
    ensures forall h :: h in db.hazards ==> h in db.runs && db.hazards[h] == OwnedBy(self) && db.runs[h].session != m.session
  {
    hide WordsOf;
    forall h | h in db.hazards ensures h in db.runs && db.hazards[h] == OwnedBy(self) && db.runs[h].session != m.session {
      assert OnLatestRun(db, h);
    }
  }

  lemma {:induction false} AcceptSound(db: Tables, started: set<RunId>, self: InstanceId, m: Message, run: RunId)
    requires Sound(db, started) && Admits(db, self, m, run) && run !in started
    ensures Sound(AcceptedTables(db, m, run), started)
    ensures Words(AcceptedTables(db, m, run), m.session) == Words(db, m.session) + [Word(run, false, false, StillOpen)]
  {
    hide Write, WordsOf, Faithful, WellFormed, RowsSound, WordsSound, RequestsSound, CreateKeysSound, CancelsSound, AcceptRow, NewReceipt;
    var after := AcceptedTables(db, m, run);
    AcceptClosesWords(db, started, m, run);
    AcceptKeepsWords(db, started, m, run);
    AcceptKeepsKeys(db, m, run);
    AdmitsMeansNoHazard(db, self, m, run);
    forall r | r in after.runs
      ensures after.runs[r].session in after.sessions && Mentions(Words(after, after.runs[r].session), r) && ReceiptSound(after, r)
    {
      AcceptKeepsRun(db, m, run, r);
    }
    forall h | h in after.hazards ensures OnLatestRun(after, h) {
      assert OnLatestRun(db, h);
    }
  }

  lemma {:induction false} AcceptKeepsRun(db: Tables, m: Message, run: RunId, r: RunId)
    requires RowsSound(db) && RunsSound(db) && ReceiptsSound(db) && m.session in db.sessions && run !in db.runs
    requires Words(AcceptedTables(db, m, run), m.session) == Words(db, m.session) + [Word(run, false, false, StillOpen)]
    requires r in AcceptedTables(db, m, run).runs
    ensures var after := AcceptedTables(db, m, run);
      after.runs[r].session in after.sessions && Mentions(Words(after, after.runs[r].session), r) && ReceiptSound(after, r)
  {
    hide Write, WordsOf, WellFormed;
    var after := AcceptedTables(db, m, run);
    var words := Words(db, m.session);
    if r == run {
      assert Words(after, m.session)[|words|].run == run;
      assert Faithful(db.sessions[m.session]);
    } else {
      var t := db.runs[r].session;
      assert ReceiptSound(db, r);
      if t == m.session {
        var k :| 0 <= k < |words| && words[k].run == r;
        assert Words(after, t)[k].run == r;
      }
    }
  }

  lemma {:induction false} FenceSound(db: Tables, started: set<RunId>, outcome: TxOutcome)
    requires Sound(db, started)
    ensures Sound(FenceTx(db, outcome), started)
  {
    hide Write, WordsOf, Faithful, WellFormed, RunsSound, ReceiptsSound, RequestsSound, CreateKeysSound, WordsSound;
    var after := FenceTx(db, outcome);
    assert after.sessions == db.sessions && after.runs == db.runs;
    forall h | h in after.hazards ensures OnLatestRun(after, h) {
      if h in db.hazards {
        assert OnLatestRun(db, h);
      } else {
        ActiveIsLast(db, started, h);
      }
    }
    SameJournal(db, after, started);
  }

  // Only hazards and cancel keys may differ.
  lemma {:induction false} SameJournal(db: Tables, after: Tables, started: set<RunId>)
    requires Sound(db, started)
    requires after.sessions == db.sessions && after.runs == db.runs && after.requests == db.requests
    requires after.createKeys == db.createKeys
    requires CancelsSound(after)
    ensures RowsSound(after) && WordsSound(after, started) && RunsSound(after) && ReceiptsSound(after) && RequestsSound(after) && CreateKeysSound(after)
  {
    hide Write, WordsOf, Faithful, WellFormed, Mentions, HazardsSound;
    forall r | r in after.runs ensures ReceiptSound(after, r) && Mentions(Words(after, after.runs[r].session), r) {
      assert ReceiptSound(db, r);
    }
    forall s, k | s in after.sessions && 0 <= k < |Words(after, s)| ensures Agrees(after, started, s, Words(after, s)[k]) {
      assert Agrees(db, started, s, Words(db, s)[k]);
    }
  }

  lemma {:induction false} FewerHazards(db: Tables, after: Tables)
    requires HazardsSound(db)
    requires after.sessions == db.sessions && after.runs == db.runs && after.hazards.Keys <= db.hazards.Keys
    ensures HazardsSound(after)
  {
    hide WordsOf;
    forall h | h in after.hazards ensures OnLatestRun(after, h) {
      assert h in db.hazards && OnLatestRun(db, h);
    }
  }

  lemma {:induction false} ClearSound(db: Tables, after: Tables, started: set<RunId>)
    requires Sound(db, started)
    requires after == db.(hazards := after.hazards) && after.hazards.Keys <= db.hazards.Keys
    ensures Sound(after, started)
  {
    hide Write, WordsOf, Faithful, WellFormed, RunsSound, WordsSound;
    SameJournal(db, after, started);
    FewerHazards(db, after);
  }

  // A new session starts idle with an empty log; nothing else moves.
  lemma {:induction false} CreateSound(db: Tables, started: set<RunId>, owner: OwnerHash, key: RequestKey, title: Digest, id: SessionId, outcome: TxOutcome)
    requires Sound(db, started)
    ensures Sound(CreateTx(db, owner, key, title, id, outcome).0, started)
  {
    hide Write, WordsOf, Faithful, WellFormed, Mentions;
    var after := CreateTx(db, owner, key, title, id, outcome).0;
    if after != db {
      NewSessionIsFaithful(owner, title);
      NewSessionKeepsRuns(db, after, started, id);
    }
  }

  lemma {:induction false} NewSessionIsFaithful(owner: OwnerHash, title: Digest)
    ensures Faithful(Session(owner, title, 0, Idle, []))
    ensures WordsOf([]) == []
  {
  }

  lemma {:induction false} NewSessionKeepsRuns(db: Tables, after: Tables, started: set<RunId>, id: SessionId)
    requires Sound(db, started) && id !in db.sessions && id in after.sessions && after.sessions[id].log == []
    requires WordsOf([]) == [] && Faithful(after.sessions[id])
    requires after.sessions == db.sessions[id := after.sessions[id]]
    requires after.runs == db.runs && after.requests == db.requests && after.cancels == db.cancels && after.hazards == db.hazards
    ensures RowsSound(after) && WordsSound(after, started) && RunsSound(after) && ReceiptsSound(after) && HazardsSound(after)
  {
    hide Write, WordsOf, Faithful, WellFormed, Mentions, RequestsSound, CreateKeysSound, CancelsSound;
    forall r | r in after.runs ensures ReceiptSound(after, r) && Mentions(Words(after, after.runs[r].session), r) {
      assert ReceiptSound(db, r);
    }
    forall s, k | s in after.sessions && 0 <= k < |Words(after, s)| ensures Agrees(after, started, s, Words(after, s)[k]) {
      assert Agrees(db, started, s, Words(db, s)[k]);
    }
    forall h | h in after.hazards ensures OnLatestRun(after, h) {
      assert OnLatestRun(db, h);
    }
  }
}
