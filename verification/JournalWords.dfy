/** The grammar of a session log, and its reading as one word per run.

    WordsOf folds a log event by event, so everything proved about words is about the log alone:
    the log is the concatenation of the words' spellings (grammar), and the run states, run_state
    and event_seq stored beside it are functions of the words (event sourcing). */
module JournalWords {
  import opened JournalTables

  datatype Ending = StillOpen | EndCompleted | EndFailed | EndCancelled

  // The history of one run: was it started, was cancellation asked for, how did it end.
  datatype Word = Word(run: RunId, started: bool, cancelAsked: bool, ending: Ending)

  function EndSpelling(ending: Ending): seq<EventKind> {
    match ending
    case StillOpen => []
    case EndCompleted => [AssistantMessageCreated, RunCompleted]
    case EndFailed => [RunFailed]
    case EndCancelled => [RunCancelled]
  }

  function Spell(w: Word): seq<EventKind> {
    [MessageCreated, RunQueued]
    + (if w.started then [RunRunning, RunProgressed] else [])
    + (if w.cancelAsked then [RunCancelRequested] else [])
    + EndSpelling(w.ending)
  }

  function StateOf(w: Word): RunState {
    match w.ending
    case EndCompleted => Completed
    case EndFailed => Failed
    case EndCancelled => Cancelled
    case StillOpen => if w.cancelAsked then CancelRequested else if w.started then Running else Queued
  }

  function LastState(words: seq<Word>): RunState {
    if words == [] then Idle else StateOf(Last(words))
  }

  function EndingFor(state: RunState): Ending {
    match state
    case Completed => EndCompleted
    case Cancelled => EndCancelled
    case _ => EndFailed
  }

  lemma {:induction false} SpellEnding(w: Word, ending: Ending)
    requires w.ending == StillOpen
    ensures Spell(w.(ending := ending)) == Spell(w) + EndSpelling(ending)
  {
    assert EndSpelling(StillOpen) == [];
  }

  function Last(words: seq<Word>): Word
    requires words != []
  {
    words[|words| - 1]
  }

  // ---- reading ----

  function WithLast(words: seq<Word>, w: Word): seq<Word>
    requires words != []
  {
    words[..|words| - 1] + [w]
  }

  function Read(words: seq<Word>, e: Event): seq<Word> {
    if e.kind == MessageCreated then words + [Word(e.run, false, false, StillOpen)]
    else if words == [] then words
    else
      var w := Last(words);
      match e.kind
      case RunRunning => WithLast(words, w.(started := true))
      case RunCancelRequested => WithLast(words, w.(cancelAsked := true))
      case RunCompleted => WithLast(words, w.(ending := EndCompleted))
      case RunFailed => WithLast(words, w.(ending := EndFailed))
      case RunCancelled => WithLast(words, w.(ending := EndCancelled))
      case _ => words
  }

  function WordsOf(log: seq<Event>): seq<Word> {
    if log == [] then [] else Read(WordsOf(log[..|log| - 1]), log[|log| - 1])
  }

  lemma {:induction false} ReadOneMore(log: seq<Event>, e: Event)
    ensures WordsOf(log + [e]) == Read(WordsOf(log), e)
  {
    assert (log + [e])[..|log|] == log;
  }

  // ---- writing ----

  function Numbered(from: nat, run: RunId, kinds: seq<EventKind>): seq<Event> {
    seq(|kinds|, i requires 0 <= i < |kinds| => Event(from + i + 1, run, kinds[i]))
  }

  function Write(words: seq<Word>): seq<Event> {
    if words == [] then []
    else
      var before := Write(words[..|words| - 1]);
      var w := Last(words);
      before + Numbered(|before|, w.run, Spell(w))
  }

  lemma {:induction false} WriteNewWord(words: seq<Word>, w: Word)
    ensures Write(words + [w]) == Write(words) + Numbered(|Write(words)|, w.run, Spell(w))
  {
    assert (words + [w])[..|words|] == words;
  }

  lemma {:induction false} NumberedSplits(from: nat, run: RunId, first: seq<EventKind>, second: seq<EventKind>)
    ensures Numbered(from, run, first + second) == Numbered(from, run, first) + Numbered(from + |first|, run, second)
  {
  }

  lemma {:induction false} WriteLongerWord(words: seq<Word>, w: Word, more: seq<EventKind>)
    requires words != [] && w.run == Last(words).run
    requires Spell(w) == Spell(Last(words)) + more
    ensures Write(WithLast(words, w)) == Write(words) + Numbered(|Write(words)|, w.run, more)
  {
    hide Spell, Numbered;
    var front, spelt := words[..|words| - 1], Spell(Last(words));
    var before := Write(front);
    WriteNewWord(front, w);
    NumberedSplits(|before|, w.run, spelt, more);
    assert Write(words) == before + Numbered(|before|, w.run, spelt);
    assert |Write(words)| == |before| + |spelt| by { NumberedLength(|before|, w.run, spelt); }
  }

  lemma {:induction false} NumberedLength(from: nat, run: RunId, kinds: seq<EventKind>)
    ensures |Numbered(from, run, kinds)| == |kinds|
  {
  }

  lemma {:induction false} AppendOne(row: Session, run: RunId, kind: EventKind)
    requires row.eventSeq == |row.log|
    ensures AppendToRow(row, run, kind).log == row.log + Numbered(|row.log|, run, [kind])
    ensures WordsOf(AppendToRow(row, run, kind).log) == Read(WordsOf(row.log), Event(|row.log| + 1, run, kind))
  {
    ReadOneMore(row.log, Event(|row.log| + 1, run, kind));
  }

  lemma {:induction false} AppendTwo(row: Session, run: RunId, first: EventKind, second: EventKind)
    requires row.eventSeq == |row.log|
    ensures var after := AppendToRow(AppendToRow(row, run, first), run, second);
      && after.log == row.log + Numbered(|row.log|, run, [first, second])
      && WordsOf(after.log)
         == Read(Read(WordsOf(row.log), Event(|row.log| + 1, run, first)), Event(|row.log| + 2, run, second))
  {
    AppendOne(row, run, first);
    AppendOne(AppendToRow(row, run, first), run, second);
    NumberedSplits(|row.log|, run, [first], [second]);
    assert [first] + [second] == [first, second];
  }

  // Sequence numbers in a written log are exactly 1, 2, 3, ...
  lemma {:induction false} WrittenNumbers(words: seq<Word>, i: nat)
    requires i < |Write(words)|
    ensures Write(words)[i].number == i + 1
  {
    var before := words[..|words| - 1];
    if i < |Write(before)| {
      WrittenNumbers(before, i);
    }
  }

  // ---- what a stored row must satisfy ----

  predicate WellFormed(words: seq<Word>) {
    && (forall i :: 0 <= i < |words| - 1 ==> words[i].ending != StillOpen)
    && (forall i, j :: 0 <= i < j < |words| ==> words[i].run != words[j].run)
    && (forall i :: 0 <= i < |words| && words[i].ending == EndCompleted ==> words[i].started)
  }

  // The row's log follows the grammar and the row's columns are the fold of the log.
  predicate Faithful(row: Session) {
    var words := WordsOf(row.log);
    && row.eventSeq == |row.log|
    && row.log == Write(words)
    && WellFormed(words)
    && row.runState == LastState(words)
  }

  predicate OpenFor(row: Session, run: RunId) {
    var words := WordsOf(row.log);
    words != [] && Last(words).run == run && Last(words).ending == StillOpen
  }

  lemma {:induction false} WellFormedWithNew(words: seq<Word>, w: Word)
    requires WellFormed(words) && w.ending == StillOpen
    requires forall i :: 0 <= i < |words| ==> words[i].ending != StillOpen && words[i].run != w.run
    ensures WellFormed(words + [w])
  {
  }

  lemma {:induction false} WellFormedWithLast(words: seq<Word>, w: Word)
    requires WellFormed(words) && words != [] && w.run == Last(words).run
    requires w.ending == EndCompleted ==> w.started
    ensures WellFormed(WithLast(words, w))
  {
  }

  // A row whose log grew by exactly what was added to its words is faithful again.
  lemma {:induction false} NumberedGrows(row: Session, after: Session, words: seq<Word>, more: seq<EventKind>)
    requires Faithful(row) && words != [] && WellFormed(words)
    requires after.log == row.log + Numbered(|row.log|, Last(words).run, more) && after.eventSeq == row.eventSeq + |more|
    requires WordsOf(after.log) == words && Write(words) == after.log
    requires after.runState == StateOf(Last(words))
    ensures Faithful(after)
  {
  }

  // ---- the four row updates keep it ----

  lemma {:induction false} AcceptKeepsFaithful(row: Session, run: RunId)
    requires Faithful(row)
    requires forall i :: 0 <= i < |WordsOf(row.log)| ==> WordsOf(row.log)[i].ending != StillOpen && WordsOf(row.log)[i].run != run
    ensures Faithful(AcceptRow(row, run))
    ensures WordsOf(AcceptRow(row, run).log) == WordsOf(row.log) + [Word(run, false, false, StillOpen)]
  {
    var w := Word(run, false, false, StillOpen);
    var words, after := WordsOf(row.log), AcceptRow(row, run);
    AppendTwo(row, run, MessageCreated, RunQueued);
    WriteNewWord(words, w);
    assert Spell(w) == [MessageCreated, RunQueued];
    assert WordsOf(after.log) == words + [w] && after.log == Write(words + [w]);
    WellFormedWithNew(words, w);
  }

  lemma {:induction false} StartKeepsFaithful(row: Session, run: RunId)
    requires Faithful(row) && OpenFor(row, run)
    requires StateOf(Last(WordsOf(row.log))) == Queued
    ensures Faithful(StartRow(row, run))
    ensures WordsOf(StartRow(row, run).log) == WithLast(WordsOf(row.log), Word(run, true, false, StillOpen))
  {
    var words := WordsOf(row.log);
    var w := Word(run, true, false, StillOpen);
    AppendTwo(row.(runState := Running), run, RunRunning, RunProgressed);
    assert Spell(w) == Spell(Last(words)) + [RunRunning, RunProgressed];
    WriteLongerWord(words, w, [RunRunning, RunProgressed]);
    WellFormedWithLast(words, w);
    NumberedGrows(row, StartRow(row, run), WithLast(words, w), [RunRunning, RunProgressed]);
  }

  lemma {:induction false} CancelKeepsFaithful(row: Session, run: RunId)
    requires Faithful(row) && OpenFor(row, run)
    requires !Last(WordsOf(row.log)).cancelAsked
    ensures Faithful(CancelRow(row, run))
    ensures WordsOf(CancelRow(row, run).log)
         == WithLast(WordsOf(row.log), Last(WordsOf(row.log)).(cancelAsked := true))
  {
    var words := WordsOf(row.log);
    var w := Last(words).(cancelAsked := true);
    AppendOne(row, run, RunCancelRequested);
    assert Spell(w) == Spell(Last(words)) + [RunCancelRequested];
    WriteLongerWord(words, w, [RunCancelRequested]);
    WellFormedWithLast(words, w);
    NumberedGrows(row, CancelRow(row, run), WithLast(words, w), [RunCancelRequested]);
  }

  lemma {:induction false} FinishReads(row: Session, run: RunId, state: RunState)
    requires row.eventSeq == |row.log| && OpenFor(row, run)
    requires state == Completed || state == Failed || state == Cancelled
    ensures FinishRow(row, run, state).log == row.log + Numbered(|row.log|, run, EndSpelling(EndingFor(state)))
    ensures WordsOf(FinishRow(row, run, state).log)
         == WithLast(WordsOf(row.log), Last(WordsOf(row.log)).(ending := EndingFor(state)))
  {
    var words := WordsOf(row.log);
    var n := |row.log|;
    if state == Completed {
      AppendTwo(row, run, AssistantMessageCreated, RunCompleted);
      assert Read(words, Event(n + 1, run, AssistantMessageCreated)) == words;
    } else {
      AppendOne(row, run, TerminalKind(state));
    }
  }

  lemma {:induction false} FinishKeepsFaithful(row: Session, run: RunId, state: RunState)
    requires Faithful(row) && OpenFor(row, run)
    requires state == Completed || state == Failed || state == Cancelled
    requires state == Completed ==> Last(WordsOf(row.log)).started
    ensures Faithful(FinishRow(row, run, state))
    ensures WordsOf(FinishRow(row, run, state).log)
         == WithLast(WordsOf(row.log), Last(WordsOf(row.log)).(ending := EndingFor(state)))
  {
    var words := WordsOf(row.log);
    var w := Last(words).(ending := EndingFor(state));
    FinishReads(row, run, state);
    SpellEnding(Last(words), w.ending);
    WriteLongerWord(words, w, EndSpelling(w.ending));
    WellFormedWithLast(words, w);
    NumberedGrows(row, FinishRow(row, run, state), WithLast(words, w), EndSpelling(w.ending));
  }
}
