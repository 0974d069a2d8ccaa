/** What the grammar of a written log means event by event. */
module JournalGrammar {
  import opened JournalTables
  import opened JournalWords

  predicate IsTerminalKind(kind: EventKind) {
    kind == RunCompleted || kind == RunFailed || kind == RunCancelled
  }

  function Front(words: seq<Word>): seq<Word>
    requires words != []
  {
    words[..|words| - 1]
  }

  lemma {:induction false} FrontWellFormed(words: seq<Word>)
    requires words != [] && WellFormed(words)
    ensures WellFormed(Front(words))
  {
  }

  // An event past the front belongs to the last word and spells one of its letters.
  lemma {:induction false} InLastWord(words: seq<Word>, i: nat)
    requires words != [] && |Write(Front(words))| <= i < |Write(words)|
    ensures var k := i - |Write(Front(words))|;
      k < |Spell(Last(words))| && Write(words)[i] == Event(i + 1, Last(words).run, Spell(Last(words))[k])
  {
  }

  lemma {:induction false} WrittenByWords(words: seq<Word>)
    ensures |Write(words)| > 0 ==> words != []
  {
  }

  lemma {:induction false} InFront(words: seq<Word>, i: nat)
    requires words != [] && i < |Write(Front(words))|
    ensures i < |Write(words)| && Write(words)[i] == Write(Front(words))[i]
  {
  }

  lemma {:induction false} RunOfEvent(words: seq<Word>, i: nat) returns (k: nat)
    requires i < |Write(words)|
    ensures k < |words| && Write(words)[i].run == words[k].run
  {
    hide Spell;
    if i < |Write(Front(words))| {
      InFront(words, i);
      k := RunOfEvent(Front(words), i);
    } else {
      InLastWord(words, i);
      k := |words| - 1;
    }
  }

  // Letters of one word: no kind twice, nothing after the terminal letter.
  lemma {:induction false} LettersDiffer(w: Word, i: nat, j: nat)
    requires i < j < |Spell(w)|
    ensures Spell(w)[i] != Spell(w)[j] && !IsTerminalKind(Spell(w)[i])
  {
  }

  // Within one run no event kind repeats and nothing follows the terminal event.
  lemma {:induction false} RunEventsOrdered(words: seq<Word>, i: nat, j: nat)
    requires WellFormed(words) && i < j < |Write(words)| && Write(words)[i].run == Write(words)[j].run
    ensures Write(words)[i].kind != Write(words)[j].kind
    ensures !IsTerminalKind(Write(words)[i].kind)
  {
    hide Spell, Write, WellFormed;
    WrittenByWords(words);
    var front := Front(words);
    FrontWellFormed(words);
    if j < |Write(front)| {
      InFront(words, i);
      InFront(words, j);
      RunEventsOrdered(front, i, j);
    } else {
      InLastWord(words, j);
      if i < |Write(front)| {
        InFront(words, i);
        var k := RunOfEvent(front, i);
        DistinctRuns(words, k);
        assert false;
      } else {
        InLastWord(words, i);
        LettersDiffer(Last(words), i - |Write(front)|, j - |Write(front)|);
      }
    }
  }

  lemma {:induction false} DistinctRuns(words: seq<Word>, k: nat)
    requires WellFormed(words) && k < |words| - 1
    ensures words[k].run != Last(words).run
  {
  }

  // The assistant's message is followed at once by run.completed of the same run, which is preceded
  // by it and by an earlier run.running.
  lemma {:induction false} AnswerThenCompleted(words: seq<Word>, i: nat)
    requires WellFormed(words) && i < |Write(words)|
    ensures Write(words)[i].kind == AssistantMessageCreated ==>
      i + 1 < |Write(words)| && Write(words)[i + 1] == Event(i + 2, Write(words)[i].run, RunCompleted)
    ensures Write(words)[i].kind == RunCompleted ==>
      && 1 <= i && Write(words)[i - 1] == Event(i, Write(words)[i].run, AssistantMessageCreated)
      && exists k :: 0 <= k < i && Write(words)[k] == Event(k + 1, Write(words)[i].run, RunRunning)
  {
    hide Write, WellFormed, Spell;
    WrittenByWords(words);
    var front := Front(words);
    FrontWellFormed(words);
    if i < |Write(front)| {
      InFront(words, i);
      AnswerThenCompleted(front, i);
      if Write(words)[i].kind == AssistantMessageCreated {
        InFront(words, i + 1);
      } else if Write(words)[i].kind == RunCompleted {
        InFront(words, i - 1);
        var k :| 0 <= k < i && Write(front)[k] == Event(k + 1, Write(front)[i].run, RunRunning);
        InFront(words, k);
      }
    } else {
      AnswerInLastWord(words, i);
    }
  }

  lemma {:induction false} AnswerInLastWord(words: seq<Word>, i: nat)
    requires WellFormed(words) && words != [] && |Write(Front(words))| <= i < |Write(words)|
    ensures Write(words)[i].kind == AssistantMessageCreated ==>
      i + 1 < |Write(words)| && Write(words)[i + 1] == Event(i + 2, Write(words)[i].run, RunCompleted)
    ensures Write(words)[i].kind == RunCompleted ==>
      && 1 <= i && Write(words)[i - 1] == Event(i, Write(words)[i].run, AssistantMessageCreated)
      && exists k :: 0 <= k < i && Write(words)[k] == Event(k + 1, Write(words)[i].run, RunRunning)
  {
    hide Write, Spell, WellFormed;
    var n, w := |Write(Front(words))|, Last(words);
    InLastWord(words, i);
    WriteLength(words);
    SpellCompletion(w, i - n);
    LastStarted(words);
    if Write(words)[i].kind == AssistantMessageCreated {
      InLastWord(words, i + 1);
    } else if Write(words)[i].kind == RunCompleted {
      InLastWord(words, i - 1);
      InLastWord(words, n + 2);
    }
  }

  lemma {:induction false} WriteLength(words: seq<Word>)
    requires words != []
    ensures |Write(words)| == |Write(Front(words))| + |Spell(Last(words))|
  {
  }

  lemma {:induction false} LastStarted(words: seq<Word>)
    requires WellFormed(words) && words != []
    ensures Last(words).ending == EndCompleted ==> Last(words).started
  {
  }

  lemma {:induction false} SpellCompletion(w: Word, k: nat)
    requires k < |Spell(w)|
    ensures Spell(w)[k] == AssistantMessageCreated ==> k + 1 < |Spell(w)| && Spell(w)[k + 1] == RunCompleted
    ensures Spell(w)[k] == RunCompleted ==> w.ending == EndCompleted && 1 <= k && Spell(w)[k - 1] == AssistantMessageCreated
    ensures Spell(w)[k] == RunCompleted && w.started ==> 2 < k && Spell(w)[2] == RunRunning
  {
  }
}
