/** The stdio agent's demultiplexer: one reader delivers responses to concurrent calls through one-place
    channels.

    A call is known by the number its id carries. The agent may send any lines in any order, repeat a
    response, or exit; the pending map is under a mutex, the channels are not. */
module Demux {
  import opened Text

  // A message on a channel: a response line with the id it carried, or the notice that the agent exited.
  datatype Message = Response(id: string, body: int) | Exited

  function IdOf(number: nat): string {
    "bridge-" + FormatInt(number)
  }

  lemma {:induction false} IdsDiffer(m: nat, n: nat)
    requires IdOf(m) == IdOf(n)
    ensures m == n
  {
    assert IdOf(m)[7..] == FormatInt(m) && IdOf(n)[7..] == FormatInt(n);
    ParseFormatNat(m);
    ParseFormatNat(n);
  }

  ghost predicate WasIssued(id: string, last: nat) {
    exists n: nat :: n <= last && id == IdOf(n)
  }

  lemma {:induction false} NewIdIsNew(last: nat)
    ensures !WasIssued(IdOf(last + 1), last) && WasIssued(IdOf(last + 1), last + 1)
    ensures forall id :: WasIssued(id, last) ==> WasIssued(id, last + 1)
  {
    hide IdOf;
    if WasIssued(IdOf(last + 1), last) {
      var n: nat :| n <= last && IdOf(last + 1) == IdOf(n);
      IdsDiffer(last + 1, n);
      assert false;
    }
  }

  // ---- the objects ----

  class Channel {
    var buffer: seq<Message>

    constructor ()
      ensures buffer == []
    {
      buffer := [];
    }
  }

  class StdioAgent {
    var nextID: nat
    var pending: map<string, Channel>

    constructor ()
      ensures nextID == 0 && pending == map[]
    {
      nextID, pending := 0, map[];
    }

    // Pending ids were handed out here; their channels are empty, and no two share one.
    ghost predicate Valid()
      reads this, pending.Values
    {
      && (forall id :: id in pending ==> WasIssued(id, nextID))
      && (forall id :: id in pending ==> pending[id].buffer == [])
      && forall id, id' :: id in pending && id' in pending && pending[id] == pending[id'] ==> id == id'
    }

    method Register() returns (id: string, ch: Channel)
      requires Valid()
      modifies this
      ensures Valid() && fresh(ch) && nextID == old(nextID) + 1 && id == IdOf(nextID)
      ensures id !in old(pending) && pending == old(pending)[id := ch]
    {
      hide IdOf, WasIssued;
      NewIdIsNew(nextID);
      nextID := nextID + 1;
      id := IdOf(nextID);
      ch := new Channel();
      pending := pending[id := ch];
    }

    method Drop(id: string)
      requires Valid()
      modifies this`pending
      ensures Valid() && pending == old(pending) - {id}
    {
      pending := pending - {id};
    }

    // A response line: the send finds the channel empty.
    method Dispatch(response: Message) returns (delivered: bool)
      requires Valid() && response.Response?
      modifies this`pending, pending.Values
      ensures Valid() && pending == old(pending) - {response.id}
      ensures delivered <==> response.id in old(pending)
      ensures delivered ==> old(pending)[response.id].buffer == [response]
      ensures forall ch: Channel :: old(allocated(ch)) && !(delivered && ch == old(pending)[response.id]) ==> ch.buffer == old(ch.buffer)
    {
      delivered := response.id in pending;
      if delivered {
        var ch := pending[response.id];
        pending := pending - {response.id};
        assert ch.buffer == [];
        ch.buffer := ch.buffer + [response];
      }
    }

    // The agent exited: every pending call gets the notice.
    method DrainOnExit()
      requires Valid()
      modifies this`pending, pending.Values
      ensures pending == map[]
      ensures forall id :: id in old(pending) ==> old(pending)[id].buffer == [Exited]
    {
      hide WasIssued;
      ghost var before := pending;
      while pending != map[]
        invariant pending.Keys <= before.Keys && pending.Values <= before.Values && Valid()
        invariant forall id :: id in pending ==> pending[id] == before[id]
        invariant forall id :: id in before && id !in pending ==> before[id].buffer == [Exited]
        decreases pending.Keys
      {
        var id :| id in pending;
        var ch := pending[id];
        assert ch.buffer == [];
        ch.buffer := ch.buffer + [Exited];
        pending := pending - {id};
      }
    }
  }

  // ---- every interleaving ----

  datatype Stage =
    | Numbered              // has its id, not yet in the pending map
    | Writing               // registered, writing the request
    | Waiting               // in the select on its channel and its context
    | Dropping              // the write failed or the context ended; about to delete its entry
    | Answered(m: Message)
    | Failed

  // late: registered after the agent's exit had been drained. sent: messages ever put on the channel.
  datatype Call = Call(stage: Stage, buffer: seq<Message>, late: bool, sent: nat)

  // The reader: reading, about to send on a channel, emptying the pending map under the mutex, or gone.
  datatype Reader = Reading | Sending(number: nat, m: Message) | Draining | Gone

  datatype World = World(last: nat, calls: map<nat, Call>, pending: map<string, nat>, reader: Reader)

  const NEW_WORLD := World(0, map[], map[], Reading)

  datatype Step =
    | Begin
    | Register(n: nat)
    | Write(n: nat, ok: bool)
    | ContextEnds(n: nat)
    | Drop(n: nat)
    | Receive(n: nat)
    | Line(response: Message)
    | Send
    | Exit
    | DrainOne(id: string)
    | DrainEnd

  predicate At(w: World, n: nat, stage: Stage) {
    n in w.calls && w.calls[n].stage == stage
  }

  // Holding the mutex, a draining reader keeps calls from registering and deleting.
  predicate MutexFree(w: World) {
    !w.reader.Draining?
  }

  function Put(w: World, n: nat, c: Call): World {
    w.(calls := w.calls[n := c])
  }

  function Push(c: Call, m: Message): Call {
    c.(buffer := c.buffer + [m], sent := c.sent + 1)
  }

  // A send on a channel that is not empty would block: the reader stays where it is.
  predicate Blocked(w: World, n: nat) {
    n !in w.calls || w.calls[n].buffer != []
  }

  function Take(w: World, step: Step): World {
    match step
    case Begin => w.(last := w.last + 1, calls := w.calls[w.last + 1 := Call(Numbered, [], false, 0)])
    case Register(n) =>
      if !At(w, n, Numbered) || !MutexFree(w) then w
      else Put(w, n, w.calls[n].(stage := Writing, late := w.reader.Gone?)).(pending := w.pending[IdOf(n) := n])
    case Write(n, ok) =>
      if !At(w, n, Writing) then w else Put(w, n, w.calls[n].(stage := if ok then Waiting else Dropping))
    case ContextEnds(n) =>
      if !At(w, n, Waiting) then w else Put(w, n, w.calls[n].(stage := Dropping))
    case Drop(n) =>
      if !At(w, n, Dropping) || !MutexFree(w) then w
      else Put(w, n, w.calls[n].(stage := Failed)).(pending := w.pending - {IdOf(n)})
    case Receive(n) =>
      if !At(w, n, Waiting) || w.calls[n].buffer == [] then w
      else Put(w, n, w.calls[n].(stage := Answered(w.calls[n].buffer[0]), buffer := w.calls[n].buffer[1..]))
    case Line(response) =>
      if !w.reader.Reading? || !response.Response? || response.id !in w.pending then w
      else w.(reader := Sending(w.pending[response.id], response), pending := w.pending - {response.id})
    case Send =>
      if !w.reader.Sending? || Blocked(w, w.reader.number) then w
      else Put(w, w.reader.number, Push(w.calls[w.reader.number], w.reader.m)).(reader := Reading)
    case Exit =>
      if w.reader.Reading? then w.(reader := Draining) else w
    case DrainOne(id) =>
      if !w.reader.Draining? || id !in w.pending || Blocked(w, w.pending[id]) then w
      else Put(w, w.pending[id], Push(w.calls[w.pending[id]], Exited)).(pending := w.pending - {id})
    case DrainEnd =>
      if w.reader.Draining? && w.pending == map[] then w.(reader := Gone) else w
  }

  function After(w: World, steps: seq<Step>): World {
    if steps == [] then w else Take(After(w, steps[..|steps| - 1]), steps[|steps| - 1])
  }

  // ---- what every interleaving keeps ----

  predicate ForCall(m: Message, n: nat) {
    m.Response? ==> m.id == IdOf(n)
  }

  predicate Held(w: World, n: nat) {
    w.reader.Sending? && w.reader.number == n
  }

  predicate Pending(w: World, n: nat) {
    IdOf(n) in w.pending
  }

  predicate OnTheWay(stage: Stage) {
    stage == Writing || stage == Waiting || stage == Dropping
  }

  // A call's message is in exactly one place: to come, in the reader's hand, on the channel, or taken.
  predicate CallFine(w: World, n: nat, c: Call) {
    && c.sent == |c.buffer| + (if c.stage.Answered? then 1 else 0) && c.sent <= 1
    && (Pending(w, n) || Held(w, n) ==> c.sent == 0 && !(Pending(w, n) && Held(w, n)))
    && (Pending(w, n) ==> OnTheWay(c.stage))
    && (Held(w, n) ==> OnTheWay(c.stage) || c.stage == Failed)
    && (c.buffer != [] ==> (OnTheWay(c.stage) || c.stage == Failed) && ForCall(c.buffer[0], n))
    && (c.stage.Answered? ==> ForCall(c.stage.m, n))
    && (c.stage == Writing || c.stage == Waiting ==> Pending(w, n) || Held(w, n) || c.buffer != [])
    && (c.late ==> w.reader.Gone? && c.sent == 0)
    && (w.reader.Gone? && Pending(w, n) ==> c.late)
    && (c.stage == Numbered ==> !c.late)
  }

  ghost predicate PendingFine(w: World) {
    forall id :: id in w.pending ==> w.pending[id] in w.calls && id == IdOf(w.pending[id])
  }

  ghost predicate Fine(w: World) {
    && (forall n :: n in w.calls ==> n <= w.last && CallFine(w, n, w.calls[n]))
    && PendingFine(w)
    && ReaderFine(w)
  }

  ghost predicate IdsInjective() {
    forall m: nat, n: nat :: IdOf(m) == IdOf(n) ==> m == n
  }

  ghost predicate ReaderFine(w: World) {
    w.reader.Sending? ==> w.reader.number in w.calls && ForCall(w.reader.m, w.reader.number)
  }

  lemma {:induction false} PendingKeeps(w: World, step: Step)
    requires PendingFine(w) && ReaderFine(w)
    ensures PendingFine(Take(w, step)) && ReaderFine(Take(w, step))
  {
    hide IdOf;
  }

  lemma {:induction false} CallKeeps(w: World, step: Step, n: nat)
    requires IdsInjective() && PendingFine(w) && ReaderFine(w) && n in w.calls && n <= w.last && CallFine(w, n, w.calls[n])
    ensures n in Take(w, step).calls && n <= Take(w, step).last && CallFine(Take(w, step), n, Take(w, step).calls[n])
  {
    hide IdOf;
  }

  lemma {:induction false} StepKeeps(w: World, step: Step)
    requires Fine(w)
    ensures Fine(Take(w, step))
  {
    hide IdOf, CallFine;
    assert IdsInjective() by {
      forall m: nat, n: nat | IdOf(m) == IdOf(n) ensures m == n { IdsDiffer(m, n); }
    }
    PendingKeeps(w, step);
    forall n | n in w.calls ensures n in Take(w, step).calls && n <= Take(w, step).last && CallFine(Take(w, step), n, Take(w, step).calls[n]) {
      CallKeeps(w, step, n);
    }
    if step.Begin? {
      NewCallIsFine(w);
    }
  }

  lemma {:induction false} NewCallIsFine(w: World)
    requires IdsInjective() && PendingFine(w) && ReaderFine(w) && forall n :: n in w.calls ==> n <= w.last
    ensures CallFine(Take(w, Begin), w.last + 1, Take(w, Begin).calls[w.last + 1])
  {
    hide IdOf;
  }

  lemma {:induction false} RunKeeps(steps: seq<Step>)
    ensures Fine(After(NEW_WORLD, steps))
  {
    hide Take, Fine;
    if steps == [] {
      NewIsFine();
    } else {
      RunKeeps(steps[..|steps| - 1]);
      StepKeeps(After(NEW_WORLD, steps[..|steps| - 1]), steps[|steps| - 1]);
    }
  }

  lemma {:induction false} NewIsFine()
    ensures Fine(NEW_WORLD)
  {
  }

  /** At most one message is ever sent to a call; while its id is pending, none was. */
  lemma {:induction false} OneMessagePerCall(steps: seq<Step>, n: nat)
    ensures var w := After(NEW_WORLD, steps);
      n in w.calls ==> w.calls[n].sent <= 1 && (IdOf(n) in w.pending ==> w.calls[n].sent == 0 && w.calls[n].buffer == [])
  {
    RunKeeps(steps);
    hide After, IdOf;
  }

  /** The reader never blocks: in no interleaving does it wait on a channel, neither when it delivers a
      response nor when it drains the map on exit. */
  lemma {:induction false} ReaderNeverBlocks(steps: seq<Step>, id: string)
    ensures var w := After(NEW_WORLD, steps);
      && (w.reader.Sending? ==> !Blocked(w, w.reader.number) && Take(w, Send).reader.Reading?)
      && (w.reader.Draining? && id in w.pending ==> !Blocked(w, w.pending[id]) && Take(w, DrainOne(id)).pending == w.pending - {id})
  {
    RunKeeps(steps);
    hide After, IdOf;
  }

  /** A call is answered with its own response or with the exit notice, never with another call's. */
  lemma {:induction false} AnswersAreOwn(steps: seq<Step>, n: nat)
    ensures var w := After(NEW_WORLD, steps);
      n in w.calls && w.calls[n].stage.Answered? && w.calls[n].stage.m.Response? ==> w.calls[n].stage.m.id == IdOf(n)
  {
    RunKeeps(steps);
    hide After, IdOf;
  }

  /** No call is forgotten: a call that waits is still pending, or its message is in the reader's hand or on
      its channel. Once the reader is gone, a waiting call has its message ready exactly when it registered
      before the exit was drained. */
  lemma {:induction false} NoCallIsForgotten(steps: seq<Step>, n: nat)
    ensures var w := After(NEW_WORLD, steps);
      At(w, n, Waiting) ==>
        && (IdOf(n) in w.pending || Held(w, n) || |w.calls[n].buffer| == 1)
        && (w.reader.Gone? ==> (|w.calls[n].buffer| == 1 <==> !w.calls[n].late))
  {
    RunKeeps(steps);
    hide After, IdOf;
  }

  /** A call that waits is answered by the line with its id, whatever its content: the reader takes it, sends
      it, the call receives it, and its entry is gone. */
  lemma {:induction false} CallIsAnswered(steps: seq<Step>, n: nat, body: int)
    requires var w := After(NEW_WORLD, steps); At(w, n, Waiting) && IdOf(n) in w.pending && w.reader.Reading?
    ensures var response := Response(IdOf(n), body);
      var w' := Take(Take(Take(After(NEW_WORLD, steps), Line(response)), Send), Receive(n));
      At(w', n, Answered(response)) && IdOf(n) !in w'.pending && w'.reader.Reading?
  {
    var w := After(NEW_WORLD, steps);
    RunKeeps(steps);
    PendingIsOwn(w, n);
    hide After, IdOf, Fine;
    AnswerFor(w, n, body);
  }

  lemma {:induction false} AnswerFor(w: World, n: nat, body: int)
    requires At(w, n, Waiting) && IdOf(n) in w.pending && w.pending[IdOf(n)] == n && w.calls[n].buffer == [] && w.reader.Reading?
    ensures var response := Response(IdOf(n), body);
      var w' := Take(Take(Take(w, Line(response)), Send), Receive(n));
      At(w', n, Answered(response)) && IdOf(n) !in w'.pending && w'.reader.Reading?
  {
    hide IdOf;
  }

  lemma {:induction false} NoticeFor(w: World, n: nat)
    requires At(w, n, Waiting) && IdOf(n) in w.pending && w.pending[IdOf(n)] == n && w.calls[n].buffer == [] && w.reader.Reading?
    ensures var drained := Take(Take(w, Exit), DrainOne(IdOf(n))); var w' := Take(drained, Receive(n));
      && At(w', n, Answered(Exited)) && IdOf(n) !in w'.pending && w'.reader.Draining?
      && drained.reader.Draining? && drained.pending == w.pending - {IdOf(n)}
  {
    hide IdOf;
  }

  lemma {:induction false} PendingIsOwn(w: World, n: nat)
    requires Fine(w) && IdOf(n) in w.pending
    ensures w.pending[IdOf(n)] == n && n in w.calls && w.calls[n].buffer == []
  {
    IdsDiffer(n, w.pending[IdOf(n)]);
    hide IdOf;
  }

  /** From its begin: a call that registers and writes while the reader reads is waiting with its entry in the
      map; a failed write, or the end of its context, makes it fail and takes the entry away. */
  lemma {:induction false} CallGoesOut(steps: seq<Step>)
    requires After(NEW_WORLD, steps).reader.Reading?
    ensures var w := After(NEW_WORLD, steps); var n := w.last + 1; var registered := Take(Take(w, Begin), Register(n));
      && registered.last == n
      && (var w' := Take(registered, Write(n, true)); At(w', n, Waiting) && IdOf(n) in w'.pending && w'.pending[IdOf(n)] == n && w'.reader == w.reader)
      && (var w' := Take(Take(registered, Write(n, false)), Drop(n)); At(w', n, Failed) && IdOf(n) !in w'.pending)
      && (var w' := Take(Take(Take(registered, Write(n, true)), ContextEnds(n)), Drop(n)); At(w', n, Failed) && IdOf(n) !in w'.pending)
  {
    hide After, IdOf;
  }

  /** When the agent exits, a waiting call gets the notice. */
  lemma {:induction false} ExitAnswers(steps: seq<Step>, n: nat)
    requires var w := After(NEW_WORLD, steps); At(w, n, Waiting) && IdOf(n) in w.pending && w.reader.Reading?
    ensures var w' := Take(Take(Take(After(NEW_WORLD, steps), Exit), DrainOne(IdOf(n))), Receive(n));
      At(w', n, Answered(Exited)) && IdOf(n) !in w'.pending && w'.reader.Draining?
    ensures After(NEW_WORLD, steps).pending.Keys == {IdOf(n)} ==>
      Take(Take(Take(After(NEW_WORLD, steps), Exit), DrainOne(IdOf(n))), DrainEnd).reader.Gone?
  {
    var w := After(NEW_WORLD, steps);
    RunKeeps(steps);
    PendingIsOwn(w, n);
    hide After, IdOf, Fine;
    NoticeFor(w, n);
    var drained := Take(Take(w, Exit), DrainOne(IdOf(n)));
    if w.pending.Keys == {IdOf(n)} {
      assert drained.pending.Keys == {};
      hide Take;
      DrainEnds(drained);
    }
  }

  lemma {:induction false} DrainEnds(w: World)
    requires w.reader.Draining? && w.pending.Keys == {}
    ensures Take(w, DrainEnd).reader.Gone?
  {
    assert w.pending == map[];
  }

  /** A line with an id that is not pending is dropped: nothing changes. */
  lemma {:induction false} UnknownLineIsDropped(w: World, response: Message)
    requires response.Response? && response.id !in w.pending
    ensures Take(w, Line(response)) == w
  {
  }
}
