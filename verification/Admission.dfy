/** The gateway admission gate and its one caller: a slot for every running start, a bounded queue for the
    rest.

    Each channel operation and each locked section is one step; callers take their steps in any order. Panics
    are not part of the model. */
module Admission {

  const DEFAULT_MAX_ACTIVE := 5
  const DEFAULT_MAX_QUEUED := 20

  // slots: the length of the slot channel, whose capacity is maxActive.
  datatype Gate = Gate(maxActive: nat, maxQueued: nat, slots: nat, queued: nat)

  function NewGate(maxActive: int, maxQueued: int): Gate {
    Gate(if maxActive < 1 then DEFAULT_MAX_ACTIVE else maxActive, if maxQueued < 0 then DEFAULT_MAX_QUEUED else maxQueued, 0, 0)
  }

  function Enter(g: Gate): (bool, Gate) {
    if g.slots < g.maxActive then (true, g.(slots := g.slots + 1)) else (false, g)
  }

  function Enqueue(g: Gate): (bool, Gate) {
    if g.queued >= g.maxQueued then (false, g) else (true, g.(queued := g.queued + 1))
  }

  // Receiving from an empty channel falls through to the default branch.
  function Release(g: Gate): Gate {
    if g.slots > 0 then g.(slots := g.slots - 1) else g
  }

  function DecrementQueued(g: Gate): Gate {
    if g.queued > 0 then g.(queued := g.queued - 1) else g
  }

  class AdmissionGate {
    const maxActive: nat
    const maxQueued: nat
    var slots: nat
    var queued: nat

    constructor (maxActive: int, maxQueued: int)
      ensures View() == NewGate(maxActive, maxQueued)
    {
      this.maxActive := if maxActive < 1 then DEFAULT_MAX_ACTIVE else maxActive;
      this.maxQueued := if maxQueued < 0 then DEFAULT_MAX_QUEUED else maxQueued;
      slots, queued := 0, 0;
    }

    function View(): Gate
      reads this
    {
      Gate(maxActive, maxQueued, slots, queued)
    }

    method TakeSlot() returns (ok: bool)
      modifies this`slots
      ensures (ok, View()) == Enter(old(View()))
    {
      ok := slots < maxActive;
      if ok {
        slots := slots + 1;
      }
    }

    method JoinQueue() returns (ok: bool)
      modifies this`queued
      ensures (ok, View()) == Enqueue(old(View()))
    {
      if queued >= maxQueued {
        return false;
      }
      queued := queued + 1;
      ok := true;
    }

    method FreeSlot()
      modifies this`slots
      ensures View() == Release(old(View()))
    {
      if slots > 0 {
        slots := slots - 1;
      }
    }

    method LeaveQueue()
      modifies this`queued
      ensures View() == DecrementQueued(old(View()))
    {
      if queued > 0 {
        queued := queued - 1;
      }
    }
  }

  // ---- the callers ----

  // The calls of startOpenClawGatewayTask that can return an error, in order.
  datatype Point = Capability | Preparing | Composing | Patching | Sending | Validating | PreparingAgain

  // Where a request stands in acquire, runGateway and startOpenClawGatewayTask.
  datatype Stage =
    | Arriving               // before the first attempt at a slot
    | FoundFull              // before the queue check
    | Waiting                // in the queue's select loop
    | Leaving(granted: bool) // out of the loop, before the deferred decrement
    | Admitted               // acquire returned a release function
    | Starting(at: Point)    // the gateway is connected, the start is at this call
    | Recorded               // the run is on record, its slot not yet given back
    | Announcing             // the start gave its slot back, before it returns the handle
    | Erring                 // runGateway saw an error, its slot not yet given back
    | Refused                // returned busy
    | Failed                 // returned an error after being admitted
    | Started                // returned the running handle

  // The stage after a call that went well. A detour patches the model, or prepares again for another run id.
  function Next(at: Point, detour: bool): Stage {
    match at
    case Capability => Starting(Preparing)
    case Preparing => Starting(Composing)
    case Composing => Starting(if detour then Patching else Sending)
    case Patching => Starting(Sending)
    case Sending => Starting(Validating)
    case Validating => if detour then Starting(PreparingAgain) else Recorded
    case PreparingAgain => Recorded
  }

  // grants and releases count what this caller was given and gave back.
  datatype Caller = Caller(stage: Stage, grants: nat, releases: nat)

  datatype World = World(gate: Gate, callers: seq<Caller>)

  datatype Step =
    | Arrive
    | TryEnter(i: nat)
    | TryQueue(i: nat)
    | SlotFrees(i: nat)
    | GiveUp(i: nat)
    | Decrement(i: nat)
    | Connect(i: nat, ok: bool)
    | Call(i: nat, ok: bool, detour: bool)
    | ReleaseInStart(i: nat)
    | ReturnHandle(i: nat)
    | ReleaseOnError(i: nat)

  function Put(w: World, i: nat, c: Caller, g: Gate): World
    requires i < |w.callers|
  {
    World(g, w.callers[i := c])
  }

  predicate At(w: World, i: nat, stage: Stage) {
    i < |w.callers| && w.callers[i].stage == stage
  }

  // A step whose caller is not where the step starts changes nothing.
  function Take(w: World, step: Step): World {
    match step
    case Arrive => w.(callers := w.callers + [Caller(Arriving, 0, 0)])
    case TryEnter(i) =>
      if !At(w, i, Arriving) then w
      else
        var c, (ok, g) := w.callers[i], Enter(w.gate);
        Put(w, i, if ok then c.(stage := Admitted, grants := c.grants + 1) else c.(stage := FoundFull), g)
    case TryQueue(i) =>
      if !At(w, i, FoundFull) then w
      else
        var (ok, g) := Enqueue(w.gate);
        Put(w, i, w.callers[i].(stage := if ok then Waiting else Refused), g)
    case SlotFrees(i) =>
      if !At(w, i, Waiting) || !Enter(w.gate).0 then w
      else Put(w, i, w.callers[i].(stage := Leaving(true), grants := w.callers[i].grants + 1), Enter(w.gate).1)
    case GiveUp(i) =>
      if !At(w, i, Waiting) then w else Put(w, i, w.callers[i].(stage := Leaving(false)), w.gate)
    case Decrement(i) =>
      if !At(w, i, Leaving(true)) && !At(w, i, Leaving(false)) then w
      else
        Put(w, i, w.callers[i].(stage := if w.callers[i].stage.granted then Admitted else Refused), DecrementQueued(w.gate))
    case Connect(i, ok) =>
      if !At(w, i, Admitted) then w
      else Put(w, i, w.callers[i].(stage := if ok then Starting(Capability) else Erring), w.gate)
    case Call(i, ok, detour) =>
      if i >= |w.callers| || !w.callers[i].stage.Starting? then w
      else Put(w, i, w.callers[i].(stage := if ok then Next(w.callers[i].stage.at, detour) else Erring), w.gate)
    case ReleaseInStart(i) =>
      if !At(w, i, Recorded) then w
      else Put(w, i, w.callers[i].(stage := Announcing, releases := w.callers[i].releases + 1), Release(w.gate))
    case ReturnHandle(i) =>
      if !At(w, i, Announcing) then w else Put(w, i, w.callers[i].(stage := Started), w.gate)
    case ReleaseOnError(i) =>
      if !At(w, i, Erring) then w
      else Put(w, i, w.callers[i].(stage := Failed, releases := w.callers[i].releases + 1), Release(w.gate))
  }

  function After(w: World, steps: seq<Step>): World {
    if steps == [] then w else Take(After(w, steps[..|steps| - 1]), steps[|steps| - 1])
  }

  // ---- conservation ----

  predicate Holds(c: Caller) {
    c.stage == Leaving(true) || c.stage == Admitted || c.stage.Starting? || c.stage == Recorded || c.stage == Erring
  }

  predicate InQueue(c: Caller) {
    c.stage == Waiting || c.stage.Leaving?
  }

  function Holders(callers: seq<Caller>): nat {
    if callers == [] then 0 else Holders(callers[..|callers| - 1]) + if Holds(callers[|callers| - 1]) then 1 else 0
  }

  function Queuers(callers: seq<Caller>): nat {
    if callers == [] then 0 else Queuers(callers[..|callers| - 1]) + if InQueue(callers[|callers| - 1]) then 1 else 0
  }

  lemma {:induction false} Replaced(callers: seq<Caller>, i: nat, c: Caller)
    requires i < |callers|
    ensures Holders(callers[i := c]) + (if Holds(callers[i]) then 1 else 0) == Holders(callers) + if Holds(c) then 1 else 0
    ensures Queuers(callers[i := c]) + (if InQueue(callers[i]) then 1 else 0) == Queuers(callers) + if InQueue(c) then 1 else 0
    ensures Holds(callers[i]) ==> Holders(callers) > 0
    ensures InQueue(callers[i]) ==> Queuers(callers) > 0
  {
    var n := |callers| - 1;
    if i < n {
      Replaced(callers[..n], i, c);
      assert callers[i := c][..n] == callers[..n][i := c];
    } else {
      assert callers[i := c][..n] == callers[..n];
    }
  }

  // A caller holds what it was granted and has not released; nobody is granted twice.
  predicate Balanced(c: Caller) {
    && c.grants <= 1 && c.grants == c.releases + (if Holds(c) then 1 else 0)
    && (c.stage == Failed || c.stage == Started || c.stage == Announcing ==> c.grants == 1)
    && (c.stage in {Arriving, FoundFull, Waiting, Leaving(false), Refused} ==> c.grants == 0)
  }

  predicate Conserved(w: World) {
    && w.gate.slots == Holders(w.callers) && w.gate.slots <= w.gate.maxActive
    && w.gate.queued == Queuers(w.callers) && w.gate.queued <= w.gate.maxQueued
    && forall i :: 0 <= i < |w.callers| ==> Balanced(w.callers[i])
  }

  lemma {:induction false} StepConserves(w: World, step: Step)
    requires Conserved(w)
    ensures Conserved(Take(w, step)) && Take(w, step).gate.maxActive == w.gate.maxActive && Take(w, step).gate.maxQueued == w.gate.maxQueued
  {
    hide Holders, Queuers;
    if step.Arrive? {
      assert Holders(Take(w, step).callers) == Holders(w.callers) && Queuers(Take(w, step).callers) == Queuers(w.callers) by {
        Appended(w.callers, Caller(Arriving, 0, 0));
      }
    } else if step.i < |w.callers| {
      Replaced(w.callers, step.i, Take(w, step).callers[step.i]);
    }
  }

  lemma {:induction false} Appended(callers: seq<Caller>, c: Caller)
    requires !Holds(c) && !InQueue(c)
    ensures Holders(callers + [c]) == Holders(callers) && Queuers(callers + [c]) == Queuers(callers)
  {
    assert (callers + [c])[..|callers|] == callers;
  }

  /** Admission conserves slots: in every reachable state the occupied slots are exactly the grants not yet
      released, at most maxActive; the queue count is exactly the callers in the queue, at most maxQueued. */
  lemma {:induction false} RunConserves(maxActive: int, maxQueued: int, steps: seq<Step>)
    ensures var w := After(World(NewGate(maxActive, maxQueued), []), steps);
      Conserved(w) && w.gate.maxActive == NewGate(maxActive, maxQueued).maxActive && w.gate.maxQueued == NewGate(maxActive, maxQueued).maxQueued
  {
    hide Take, Conserved;
    if steps == [] {
      NewIsConserved(NewGate(maxActive, maxQueued));
    } else {
      RunConserves(maxActive, maxQueued, steps[..|steps| - 1]);
      StepConserves(After(World(NewGate(maxActive, maxQueued), []), steps[..|steps| - 1]), steps[|steps| - 1]);
    }
  }

  lemma {:induction false} NewIsConserved(g: Gate)
    requires g.slots == 0 && g.queued == 0
    ensures Conserved(World(g, []))
  {
  }

  /** Neither silent guard is ever taken: when a caller gives back its slot the occupied slots fall by exactly
      one, and when one comes out of the queue the queue count does; no other step lowers either. */
  lemma {:induction false} GuardsAreNeverTaken(maxActive: int, maxQueued: int, steps: seq<Step>, step: Step, i: nat)
    requires i < |After(World(NewGate(maxActive, maxQueued), []), steps).callers|
    ensures var w := After(World(NewGate(maxActive, maxQueued), []), steps); var w' := Take(w, step);
      && i < |w'.callers|
      && var c, c' := w.callers[i], w'.callers[i];
         && (c'.releases != c.releases ==> c'.releases == c.releases + 1 && w.gate.slots == w'.gate.slots + 1 && w'.gate.queued == w.gate.queued)
         && (c.stage.Leaving? && !c'.stage.Leaving? ==> w.gate.queued == w'.gate.queued + 1 && w'.gate.slots == w.gate.slots)
    ensures var w := After(World(NewGate(maxActive, maxQueued), []), steps); var w' := Take(w, step);
      && (w'.gate.slots < w.gate.slots ==> exists j :: 0 <= j < |w.callers| && j < |w'.callers| && w'.callers[j].releases == w.callers[j].releases + 1)
      && (w'.gate.queued < w.gate.queued ==> exists j :: 0 <= j < |w.callers| && j < |w'.callers| && w.callers[j].stage.Leaving? && !w'.callers[j].stage.Leaving?)
  {
    var w := After(World(NewGate(maxActive, maxQueued), []), steps);
    RunConserves(maxActive, maxQueued, steps);
    hide After, Holders, Queuers;
    Replaced(w.callers, i, w.callers[i]);
    if !step.Arrive? && step.i < |w.callers| {
      Replaced(w.callers, step.i, w.callers[step.i]);
      assert step.i < |Take(w, step).callers|;
    }
  }

  predicate Returned(c: Caller) {
    c.stage == Refused || c.stage == Failed || c.stage == Started
  }

  /** Every exit path gives back exactly what it was given: a refused caller never had a slot, any other has
      released its one grant exactly once; and when all have returned, the gate is as new. */
  lemma {:induction false} ExitsBalance(maxActive: int, maxQueued: int, steps: seq<Step>)
    ensures var w := After(World(NewGate(maxActive, maxQueued), []), steps);
      && (forall i :: 0 <= i < |w.callers| && Returned(w.callers[i])
            ==> w.callers[i].grants == w.callers[i].releases && (w.callers[i].grants == 0 <==> w.callers[i].stage == Refused))
      && ((forall i :: 0 <= i < |w.callers| ==> Returned(w.callers[i])) ==> w.gate == NewGate(maxActive, maxQueued))
  {
    var w := After(World(NewGate(maxActive, maxQueued), []), steps);
    RunConserves(maxActive, maxQueued, steps);
    hide After, Holders, Queuers;
    if forall i :: 0 <= i < |w.callers| ==> Returned(w.callers[i]) {
      NobodyInside(w.callers);
    }
  }

  lemma {:induction false} NobodyInside(callers: seq<Caller>)
    requires forall i :: 0 <= i < |callers| ==> Returned(callers[i])
    ensures Holders(callers) == 0 && Queuers(callers) == 0
  {
    if callers != [] {
      NobodyInside(callers[..|callers| - 1]);
    }
  }

  /** Refusals are honest: a caller is only turned away from the queue while maxQueued others are in it, and
      only fails the first attempt while maxActive grants are outstanding. */
  lemma {:induction false} RefusedOnlyWhenFull(maxActive: int, maxQueued: int, steps: seq<Step>, i: nat)
    ensures var w := After(World(NewGate(maxActive, maxQueued), []), steps);
      && (At(w, i, FoundFull) ==> (At(Take(w, TryQueue(i)), i, Refused) <==> Queuers(w.callers) == w.gate.maxQueued))
      && (At(w, i, Arriving) ==> (At(Take(w, TryEnter(i)), i, FoundFull) <==> Holders(w.callers) == w.gate.maxActive))
  {
    RunConserves(maxActive, maxQueued, steps);
    hide After, Holders, Queuers;
  }

  /** The bounds are the configured numbers, or five and twenty when these make no sense, and a new gate is
      empty. */
  lemma {:induction false} BoundsAreConfigured(maxActive: int, maxQueued: int)
    ensures var g := NewGate(maxActive, maxQueued);
      && g.slots == 0 && g.queued == 0
      && (maxActive >= 1 ==> g.maxActive == maxActive) && (maxActive < 1 ==> g.maxActive == 5)
      && (maxQueued >= 0 ==> g.maxQueued == maxQueued) && (maxQueued < 0 ==> g.maxQueued == 20)
  {
  }

  // The calls of a start in order, with or without the two detours, and the return.
  function StartSteps(i: nat, model: bool, otherRun: bool): seq<Step> {
    var composed := [] + [Connect(i, true)] + [Call(i, true, false)] + [Call(i, true, false)] + [Call(i, true, model)];
    var patched := if model then composed + [Call(i, true, false)] else composed;
    var sent := patched + [Call(i, true, false)] + [Call(i, true, otherRun)];
    var prepared := if otherRun then sent + [Call(i, true, false)] else sent;
    prepared + [ReleaseInStart(i)] + [ReturnHandle(i)]
  }

  lemma {:induction false} AfterMore(w: World, steps: seq<Step>, step: Step)
    ensures After(w, steps + [step]) == Take(After(w, steps), step)
  {
    assert (steps + [step])[..|steps|] == steps;
  }

  // The world after one more step of the same sequence.
  predicate Reaches(w: World, i: nat, stage: Stage, slots: int) {
    At(w, i, stage) && w.gate.slots == slots
  }

  /** A request that finds a slot free gets it, starts, gives it back and returns its handle; meanwhile the
      slot is taken. */
  lemma {:induction false} FreeSlotStarts(w: World, i: nat, model: bool, otherRun: bool)
    requires At(w, i, Arriving) && w.gate.slots < w.gate.maxActive
    ensures Reaches(Take(w, TryEnter(i)), i, Admitted, w.gate.slots + 1)
    ensures Reaches(After(Take(w, TryEnter(i)), StartSteps(i, model, otherRun)), i, Started, w.gate.slots)
  {
    AdmittedStarts(Take(w, TryEnter(i)), i, model, otherRun);
  }

  lemma {:induction false} AdmittedStarts(w: World, i: nat, model: bool, otherRun: bool)
    requires At(w, i, Admitted) && w.gate.slots > 0
    ensures Reaches(After(w, StartSteps(i, model, otherRun)), i, Started, w.gate.slots - 1)
  {
    hide After, Take, Reaches;
    var n := w.gate.slots;
    var s0: seq<Step> := [];
    assert After(w, s0) == w by { NoStep(w); }
    ConnectMoves(w, i);
    var s1 := OneMore(w, s0, Connect(i, true), i, Starting(Capability), n);
    CallMoves(After(w, s1), i, Capability, false, n);
    var s2 := OneMore(w, s1, Call(i, true, false), i, Starting(Preparing), n);
    CallMoves(After(w, s2), i, Preparing, false, n);
    var s3 := OneMore(w, s2, Call(i, true, false), i, Starting(Composing), n);
    CallMoves(After(w, s3), i, Composing, model, n);
    var s4 := OneMore(w, s3, Call(i, true, model), i, if model then Starting(Patching) else Starting(Sending), n);
    var s5 := s4;
    if model {
      CallMoves(After(w, s4), i, Patching, false, n);
      s5 := OneMore(w, s4, Call(i, true, false), i, Starting(Sending), n);
    }
    CallMoves(After(w, s5), i, Sending, false, n);
    var s6 := OneMore(w, s5, Call(i, true, false), i, Starting(Validating), n);
    CallMoves(After(w, s6), i, Validating, otherRun, n);
    var s7 := OneMore(w, s6, Call(i, true, otherRun), i, if otherRun then Starting(PreparingAgain) else Recorded, n);
    var s8 := s7;
    if otherRun {
      CallMoves(After(w, s7), i, PreparingAgain, false, n);
      s8 := OneMore(w, s7, Call(i, true, false), i, Recorded, n);
    }
    ReturnMoves(After(w, s8), i, n);
    var s9 := OneMore(w, s8, ReleaseInStart(i), i, Announcing, n - 1);
    var s10 := OneMore(w, s9, ReturnHandle(i), i, Started, n - 1);
    assert s10 == StartSteps(i, model, otherRun);
  }

  lemma {:induction false} NoStep(w: World)
    ensures After(w, []) == w
  {
  }

  lemma {:induction false} ConnectMoves(w: World, i: nat)
    requires At(w, i, Admitted)
    ensures Reaches(Take(w, Connect(i, true)), i, Starting(Capability), w.gate.slots)
  {
  }

  lemma {:induction false} CallMoves(w: World, i: nat, at: Point, detour: bool, slots: int)
    requires Reaches(w, i, Starting(at), slots)
    ensures Reaches(Take(w, Call(i, true, detour)), i, Next(at, detour), slots)
  {
  }

  lemma {:induction false} ReturnMoves(w: World, i: nat, slots: int)
    requires Reaches(w, i, Recorded, slots) && slots > 0
    ensures Reaches(Take(w, ReleaseInStart(i)), i, Announcing, slots - 1)
    ensures forall v :: Reaches(v, i, Announcing, slots - 1) ==> Reaches(Take(v, ReturnHandle(i)), i, Started, slots - 1)
  {
  }

  lemma {:induction false} OneMore(w: World, steps: seq<Step>, step: Step, i: nat, stage: Stage, slots: int) returns (longer: seq<Step>)
    requires Reaches(Take(After(w, steps), step), i, stage, slots)
    ensures longer == steps + [step] && Reaches(After(w, longer), i, stage, slots)
  {
    longer := steps + [step];
    AfterMore(w, steps, step);
  }

  /** An error at any call of the start, or before it, gives the slot back and fails the request. */
  lemma {:induction false} ErrorsGiveBack(w: World, i: nat, detour: bool)
    requires i < |w.callers| && (w.callers[i].stage == Admitted || w.callers[i].stage.Starting?) && w.gate.slots > 0
    ensures var step := if w.callers[i].stage == Admitted then Connect(i, false) else Call(i, false, detour);
      Reaches(Take(Take(w, step), ReleaseOnError(i)), i, Failed, w.gate.slots - 1)
  {
  }

  /** A request that finds no slot waits while there is room, gets the next slot that frees, and leaves the
      queue; or it gives up and is refused. */
  lemma {:induction false} QueuedRequests(w: World, i: nat)
    requires At(w, i, Arriving) && w.gate.slots == w.gate.maxActive && w.gate.queued < w.gate.maxQueued && w.gate.maxActive > 0
    ensures var waiting := Take(Take(w, TryEnter(i)), TryQueue(i));
      && At(waiting, i, Waiting) && waiting.gate == w.gate.(queued := w.gate.queued + 1)
      && Take(waiting, SlotFrees(i)) == waiting
      && (var freed := waiting.(gate := waiting.gate.(slots := waiting.gate.slots - 1));
          var admitted := Take(Take(freed, SlotFrees(i)), Decrement(i));
          At(admitted, i, Admitted) && admitted.gate == w.gate)
      && (var refused := Take(Take(waiting, GiveUp(i)), Decrement(i)); At(refused, i, Refused) && refused.gate == w.gate)
  {
  }
}
