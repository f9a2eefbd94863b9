/** The clarify handshake and the turn it belongs to, run together.

    The prompt coroutine pops a request, records it, announces it and only then creates its waiter; the waiter announces
    its choice, pushes it to the agent and only then settles the entry of the message row.  Everything else of either
    side interleaves freely.
 */
module ClarifyTurn {
  import C = Clarify
  import T = Turn
  import ClarifyProofs
  import TurnTheorems
  import Chat

  type Id = string

  datatype State = State(asks: C.State, turn: T.State)

  datatype Step =
    | Handshake(a: C.Step)
    | InTurn(b: T.Step)

  ghost predicate Init(s: State) {
    C.Init(s.asks) && T.Init(s.turn)
  }

  /** Where the prompt coroutine and the waiters stand decides which of their steps comes next. */
  ghost predicate Enabled(s: State, x: Step) {
    match x
    case Handshake(a) =>
      && C.Enabled(s.asks, a)
      && (a.RunnerStep? ==>
            if s.asks.runner.Polling? then s.turn.begun && s.turn.phase.Running?
            else s.asks.runner.id in s.turn.stages && s.turn.stages[s.asks.runner.id] == T.Announced)
      && (a.WaiterStep? && s.asks.waiters[a.i].pc.Resolved? ==>
            s.asks.waiters[a.i].id in s.turn.stages && s.turn.stages[s.asks.waiters[a.i].id].Responded?)
    case InTurn(b) =>
      && T.Enabled(s.turn, b)
      && (b.Record? || b.Announce? ==> s.asks.runner == C.Handling(b.id))
      && (b.Respond? ==> exists w :: w in s.asks.waiters && w.id == b.id && w.pc == C.Resolved(b.choice))
      && (b.Close? ==> exists w :: w in s.asks.waiters && w.id == b.id && w.pc.Answered?)
      && (b.Finalize? ==> s.asks.runner.Polling?)
  }

  function Next(s: State, x: Step): State
    requires Enabled(s, x)
  {
    match x
    case Handshake(a) => s.(asks := C.Apply(s.asks, a))
    case InTurn(b) => s.(turn := T.Next(s.turn, b))
  }

  ghost predicate Run(trace: seq<State>, steps: seq<Step>) {
    && |trace| == |steps| + 1
    && Init(trace[0])
    && forall i :: 0 <= i < |steps| ==> Enabled(trace[i], steps[i]) && trace[i + 1] == Next(trace[i], steps[i])
  }

  // ---------- each side alone ----------

  lemma ExtendAsks(trace: seq<C.State>, steps: seq<C.Step>, a: C.Step)
    requires C.Run(trace, steps) && C.Enabled(trace[|steps|], a)
    ensures C.Run(trace + [C.Apply(trace[|steps|], a)], steps + [a])
  {
    hide C.Apply, C.Enabled, C.Init;
    var trace', steps' := trace + [C.Apply(trace[|steps|], a)], steps + [a];
    assert trace'[0] == trace[0];
    forall i | 0 <= i < |steps'|
      ensures C.Enabled(trace'[i], steps'[i]) && trace'[i + 1] == C.Apply(trace'[i], steps'[i])
    {
      if i < |steps| { assert trace'[i] == trace[i] && trace'[i + 1] == trace[i + 1] && steps'[i] == steps[i]; }
    }
  }

  lemma ExtendTurn(trace: seq<T.State>, steps: seq<T.Step>, b: T.Step)
    requires T.Run(trace, steps) && T.Enabled(trace[|steps|], b)
    ensures T.Run(trace + [T.Next(trace[|steps|], b)], steps + [b])
  {
    hide T.Next, T.Enabled, T.Init;
    var trace', steps' := trace + [T.Next(trace[|steps|], b)], steps + [b];
    assert trace'[0] == trace[0];
    forall i | 0 <= i < |steps'|
      ensures T.Enabled(trace'[i], steps'[i]) && trace'[i + 1] == T.Next(trace'[i], steps'[i])
    {
      if i < |steps| { assert trace'[i] == trace[i] && trace'[i + 1] == trace[i + 1] && steps'[i] == steps[i]; }
    }
  }

  /** Every joint run is a run of the handshake and a run of the turn, so that whatever holds over all runs of either
      module holds here too. */
  lemma {:induction false} Projects(trace: seq<State>, steps: seq<Step>, n: nat)
    returns (asks: seq<C.State>, moves: seq<C.Step>, turns: seq<T.State>, bs: seq<T.Step>)
    requires Run(trace, steps) && n < |trace|
    ensures C.Run(asks, moves) && asks[|moves|] == trace[n].asks && asks[0] == trace[0].asks
    ensures T.Run(turns, bs) && turns[|bs|] == trace[n].turn && turns[0] == trace[0].turn
  {
    if n == 0 {
      asks, moves, turns, bs := [trace[0].asks], [], [trace[0].turn], [];
    } else {
      hide C.Run, T.Run, C.Enabled, T.Enabled, C.Apply, T.Next;
      asks, moves, turns, bs := Projects(trace, steps, n - 1);
      RunsOpen(asks, moves, turns, bs);
      match steps[n - 1]
      case Handshake(a) =>
        ExtendAsks(asks, moves, a);
        asks, moves := asks + [C.Apply(asks[|moves|], a)], moves + [a];
      case InTurn(b) =>
        ExtendTurn(turns, bs, b);
        turns, bs := turns + [T.Next(turns[|bs|], b)], bs + [b];
    }
  }

  lemma RunsOpen(asks: seq<C.State>, moves: seq<C.Step>, turns: seq<T.State>, bs: seq<T.Step>)
    requires C.Run(asks, moves) && T.Run(turns, bs)
    ensures |asks| == |moves| + 1 && |turns| == |bs| + 1
  {}

  // ---------- one answer ----------

  predicate Responds(b: Chat.Body, id: Id) {
    b.ConfirmResponse? && b.requestId == id
  }

  /** The log announces choice `c` for the question, and no other. */
  ghost predicate Told(t: T.State, id: Id, c: C.Choice) {
    && (exists k :: 0 <= k < |t.log| && Responds(t.log[k].body, id))
    && forall k :: 0 <= k < |t.log| && Responds(t.log[k].body, id) ==> t.log[k].body.choice == c
  }

  ghost predicate Untold(t: T.State, id: Id) {
    forall k :: 0 <= k < |t.log| ==> !Responds(t.log[k].body, id)
  }

  ghost predicate Entered(t: T.State, id: Id) {
    exists k :: 0 <= k < |t.clarifies| && t.clarifies[k].id == id
  }

  /** The row stores choice `c` for the question, with the outcome that goes with it. */
  ghost predicate Stored(t: T.State, id: Id, c: C.Choice) {
    && t.row.clarifies == t.clarifies
    && Entered(t, id)
    && forall k :: 0 <= k < |t.clarifies| && t.clarifies[k].id == id ==>
         t.clarifies[k].choice == c && t.clarifies[k].status == Outcome(c)
  }

  function Outcome(c: C.Choice): string {
    if c == C.CANCEL then "cancelled" else if c == C.TIMEOUT then "timeout" else "answered"
  }

  /** How far a question's waiter is, and how far the turn is with it. */
  ghost predicate InStep(t: T.State, w: C.Waiter) {
    && w.id in t.stages && Entered(t, w.id)
    && match w.pc
       case Resolved(c) =>
         || (t.stages[w.id] == T.Announced && Untold(t, w.id))
         || (t.stages[w.id] == T.Responded(c) && Told(t, w.id, c))
       case Answered(c) =>
         && Told(t, w.id, c)
         && (t.stages[w.id] == T.Responded(c) || (t.stages[w.id] == T.Closed && Stored(t, w.id, c)))
       case _ => t.stages[w.id] == T.Announced && Untold(t, w.id)
  }

  /** A popped question that has no waiter yet. */
  ghost predicate Opening(t: T.State, id: Id) {
    id in t.stages ==>
      (t.stages[id].Recorded? || t.stages[id] == T.Announced) && Entered(t, id) && Untold(t, id)
  }

  ghost predicate Link(s: State, i: nat)
    requires i < |s.asks.pushed|
  {
    if i < |s.asks.waiters| then InStep(s.turn, s.asks.waiters[i])
    else if i < C.Popped(s.asks) then Opening(s.turn, s.asks.pushed[i].id)
    else s.asks.pushed[i].id !in s.turn.stages
  }

  ghost predicate Linked(s: State) {
    && (forall i :: 0 <= i < |s.asks.pushed| ==> Link(s, i))
    && s.turn.stages.Keys <= s.asks.agents.Keys
    && s.turn.row.clarifies == s.turn.clarifies
    && (s.asks.runner.Handling? ==> s.turn.begun && s.turn.phase.Running?)
  }

  ghost predicate Inv(s: State) {
    C.Inv(s.asks) && Linked(s)
  }

  // ---------- steps of the turn ----------

  /** The step is about this question. */
  predicate About(b: T.Step, id: Id) {
    (b.Record? || b.Announce? || b.Respond? || b.Close?) && b.id == id
  }

  /** The log grew by at most one event. */
  predicate LogStep(log: seq<Chat.Event>, log': seq<Chat.Event>) {
    log' == log || (|log'| == |log| + 1 && log'[..|log|] == log)
  }

  lemma TurnLog(t: T.State, b: T.Step)
    requires T.Enabled(t, b)
    ensures LogStep(t.log, T.Next(t, b).log)
  {}

  lemma LogSpares(t: T.State, u: T.State, id: Id, c: C.Choice)
    requires LogStep(t.log, u.log) && (u.log != t.log ==> !Responds(u.log[|t.log|].body, id))
    ensures Untold(t, id) ==> Untold(u, id)
    ensures Told(t, id, c) ==> Told(u, id, c)
  {
    assert forall k :: 0 <= k < |t.log| ==> u.log[k] == t.log[k];
  }

  lemma EntriesSpare(t: T.State, b: T.Step, id: Id, c: C.Choice)
    requires T.Enabled(t, b) && id in t.stages && !About(b, id)
    ensures var u := T.Next(t, b);
        (Entered(t, id) ==> Entered(u, id)) && (Stored(t, id, c) ==> Stored(u, id, c))
  {
    var u := T.Next(t, b);
    assert forall k :: 0 <= k < |t.clarifies| ==> u.clarifies[k].id == t.clarifies[k].id;
    assert forall k :: 0 <= k < |t.clarifies| && t.clarifies[k].id == id ==> u.clarifies[k] == t.clarifies[k];
  }

  /** What a step about something else leaves as it is. */
  lemma TurnSpares(t: T.State, b: T.Step, id: Id, c: C.Choice)
    requires T.Enabled(t, b) && id in t.stages && !About(b, id)
    ensures var u := T.Next(t, b);
        && id in u.stages && u.stages[id] == t.stages[id]
        && (Untold(t, id) ==> Untold(u, id))
        && (Told(t, id, c) ==> Told(u, id, c))
        && (Entered(t, id) ==> Entered(u, id))
        && (Stored(t, id, c) ==> Stored(u, id, c))
  {
    hide Entered, Stored, Told, Untold;
    TurnLog(t, b);
    LogSpares(t, T.Next(t, b), id, c);
    EntriesSpare(t, b, id, c);
  }

  lemma Records(t: T.State, b: T.Step)
    requires T.Enabled(t, b) && b.Record?
    ensures var u := T.Next(t, b);
        b.id in u.stages && u.stages[b.id].Recorded? && Entered(u, b.id) && Untold(u, b.id)
  {
    var u := T.Next(t, b);
    assert u.clarifies[|t.clarifies|].id == b.id;
    forall k | 0 <= k < |u.log| ensures !Responds(u.log[k].body, b.id) {
      assert !T.Mentions(t.log[k].body, b.id);
    }
  }

  lemma Announces(t: T.State, b: T.Step)
    requires T.Enabled(t, b) && b.Announce? && Entered(t, b.id) && Untold(t, b.id)
    ensures var u := T.Next(t, b);
        b.id in u.stages && u.stages[b.id] == T.Announced && Entered(u, b.id) && Untold(u, b.id)
  {
    LogSpares(t, T.Next(t, b), b.id, "");
  }

  lemma Answers(t: T.State, b: T.Step)
    requires T.Enabled(t, b) && b.Respond? && Entered(t, b.id) && Untold(t, b.id)
    ensures var u := T.Next(t, b);
        && b.id in u.stages && u.stages[b.id] == T.Responded(b.choice)
        && Entered(u, b.id) && Told(u, b.id, b.choice)
  {
    var u := T.Next(t, b);
    assert Responds(u.log[|t.log|].body, b.id);
  }

  lemma SameOutcome(c: C.Choice)
    ensures T.OutcomeOf(c) == Outcome(c)
  {}

  lemma Settles(t: T.State, b: T.Step)
    requires T.Enabled(t, b) && b.Close? && Entered(t, b.id) && Told(t, b.id, t.stages[b.id].choice)
    ensures var u, c := T.Next(t, b), t.stages[b.id].choice;
        && b.id in u.stages && u.stages[b.id] == T.Closed
        && Entered(u, b.id) && Told(u, b.id, c) && Stored(u, b.id, c)
  {
    var u := T.Next(t, b);
    SameOutcome(t.stages[b.id].choice);
    hide Outcome, T.OutcomeOf;
    LogSpares(t, u, b.id, t.stages[b.id].choice);
    assert forall k :: 0 <= k < |t.clarifies| ==> u.clarifies[k].id == t.clarifies[k].id;
  }

  /** Each question has its own place in the queue or its own waiter. */
  lemma OwnPlace(asks: C.State, i: nat, id: Id)
    requires C.Fifo(asks) && i < |asks.pushed| && asks.pushed[i].id == id
    ensures i < |asks.waiters| ==> asks.waiters[i].id == id
    ensures asks.runner == C.Handling(id) ==> i == |asks.waiters|
    ensures forall w :: w in asks.waiters && w.id == id ==> i < |asks.waiters| && w == asks.waiters[i]
  {}

  lemma TurnLink(s: State, b: T.Step, i: nat)
    requires C.Fifo(s.asks) && Enabled(s, InTurn(b)) && i < |s.asks.pushed| && Link(s, i)
    ensures Link(Next(s, InTurn(b)), i)
  {
    hide Entered, Stored, Told, Untold;
    var id := s.asks.pushed[i].id;
    OwnPlace(s.asks, i, id);
    if !About(b, id) {
      StagesSpare(s.turn, b, id);
      if id in s.turn.stages {
        TurnSpares(s.turn, b, id, if i < |s.asks.waiters| then ChoiceOf(s.asks.waiters[i].pc) else "");
      }
    } else {
      match b
      case Record(_, _) => Records(s.turn, b);
      case Announce(_, _) => Announces(s.turn, b);
      case Respond(_, _) => Answers(s.turn, b);
      case Close(_) => Settles(s.turn, b);
    }
  }

  function ChoiceOf(pc: C.Pc): C.Choice {
    if C.HasChoice(pc) then pc.choice else ""
  }

  lemma StagesSpare(t: T.State, b: T.Step, id: Id)
    requires T.Enabled(t, b) && !About(b, id)
    ensures id in T.Next(t, b).stages <==> id in t.stages
  {}

  /** A waiter that moves stays in step with the turn. */
  lemma WaiterInStep(asks: C.State, t: T.State, w: C.Waiter)
    requires InStep(t, w) && (w.pc.Resolved? ==> t.stages[w.id].Responded?)
    ensures InStep(t, C.WaiterNext(asks, w)) && C.WaiterNext(asks, w).id == w.id
  {}

  lemma NotedInStep(t: T.State, w: C.Waiter, notes: nat)
    requires InStep(t, w)
    ensures InStep(t, w.(notes := notes))
  {}

  lemma WaiterLink(s: State, a: C.Step, i: nat)
    requires Enabled(s, Handshake(a)) && a.WaiterStep? && i < |s.asks.pushed| && Link(s, i)
    ensures i < |C.Apply(s.asks, a).pushed| && Link(Next(s, Handshake(a)), i)
  {
    ClarifyProofs.WaiterMoves(s.asks, a.i);
    hide InStep, C.WaiterNext, C.StepWaiter, ClarifyProofs.Gave;
    if i == a.i { OneMoves(s, a.i); }
  }

  lemma OneMoves(s: State, i: nat)
    requires Enabled(s, Handshake(C.WaiterStep(i))) && i < |s.asks.pushed| && Link(s, i)
    ensures InStep(s.turn, C.WaiterNext(s.asks, s.asks.waiters[i]))
  {
    WaiterInStep(s.asks, s.turn, s.asks.waiters[i]);
  }

  lemma RunnerLink(s: State, a: C.Step, i: nat)
    requires C.Fifo(s.asks) && Enabled(s, Handshake(a)) && a.RunnerStep? && i < |s.asks.pushed| && Link(s, i)
    ensures i < |C.Apply(s.asks, a).pushed| && Link(Next(s, Handshake(a)), i)
  {
    hide InStep, Opening;
    if s.asks.runner.Polling? {
      if i == C.Popped(s.asks) { Unopened(s.turn, s.asks.pushed[i].id); }
    } else {
      if i == |s.asks.waiters| { Spawned(s.turn, s.asks.runner.id); }
    }
  }

  lemma Unopened(t: T.State, id: Id)
    requires id !in t.stages
    ensures Opening(t, id)
  {}

  lemma Spawned(t: T.State, id: Id)
    requires Opening(t, id) && id in t.stages && t.stages[id] == T.Announced
    ensures InStep(t, C.Waiter(id, C.Started, false, 0, 0))
  {}

  lemma PublishLink(s: State, a: C.Step, i: nat)
    requires Enabled(s, Handshake(a)) && a.UserPublish? && i < |s.asks.pushed| && Link(s, i)
    ensures i < |C.Apply(s.asks, a).pushed| && Link(Next(s, Handshake(a)), i)
  {
    hide InStep;
    if i < |s.asks.waiters| { NotedInStep(s.turn, s.asks.waiters[i], s.asks.waiters[i].notes + 1); }
  }

  /** A step that moves no waiter and no place in the queue. */
  predicate Idle(a: C.Step) {
    !a.Push? && !a.WaiterStep? && !a.RunnerStep? && !a.UserPublish?
  }

  lemma IdleLink(s: State, a: C.Step, i: nat)
    requires Enabled(s, Handshake(a)) && Idle(a) && i < |s.asks.pushed| && Link(s, i)
    ensures i < |C.Apply(s.asks, a).pushed| && Link(Next(s, Handshake(a)), i)
  {
    hide InStep, Opening;
  }

  lemma PushLink(s: State, a: C.Step, i: nat)
    requires C.Fifo(s.asks) && Linked(s) && Enabled(s, Handshake(a)) && a.Push? && i < |C.Apply(s.asks, a).pushed|
    ensures Link(Next(s, Handshake(a)), i)
  {
    hide InStep, Opening;
    if i < |s.asks.pushed| { assert Link(s, i); }
  }

  lemma HandshakeLink(s: State, a: C.Step, i: nat)
    requires C.Fifo(s.asks) && Linked(s) && Enabled(s, Handshake(a)) && i < |C.Apply(s.asks, a).pushed|
    ensures Link(Next(s, Handshake(a)), i)
  {
    hide Link, C.Apply, C.Fifo;
    if a.Push? {
      PushLink(s, a, i);
    } else {
      SamePushed(s.asks, a);
      if a.WaiterStep? { WaiterLink(s, a, i); }
      else if a.RunnerStep? { RunnerLink(s, a, i); }
      else if a.UserPublish? { PublishLink(s, a, i); }
      else { IdleLink(s, a, i); }
    }
  }

  lemma SamePushed(asks: C.State, a: C.Step)
    requires C.Enabled(asks, a) && !a.Push?
    ensures C.Apply(asks, a).pushed == asks.pushed
  {
    hide C.WaiterNext, C.Notify, C.Quiet;
    match a
    case WaiterStep(i) => ClarifyProofs.WaiterMoves(asks, i);
    case Await(_) =>
    case GiveUp(_) =>
    case RunnerStep =>
    case UserSet(_, _) =>
    case UserPublish(_) =>
    case RequestCancel =>
    case ClearCancel =>
    case Tick(_) =>
  }

  // ---------- every run ----------

  lemma HandshakeInv(s: State, a: C.Step)
    requires Inv(s) && Enabled(s, Handshake(a))
    ensures Inv(Next(s, Handshake(a)))
  {
    ClarifyProofs.StepInv(s.asks, a);
    AgentsStay(s, a);
    RunnerStays(s, a);
    hide C.Inv, C.Apply, C.Enabled, Link;
    FifoOf(s.asks);
    forall i | 0 <= i < |C.Apply(s.asks, a).pushed| ensures Link(Next(s, Handshake(a)), i) {
      HandshakeLink(s, a, i);
    }
  }

  lemma FifoOf(asks: C.State)
    requires C.Inv(asks)
    ensures C.Fifo(asks)
  {}

  lemma AgentsStay(s: State, a: C.Step)
    requires Enabled(s, Handshake(a))
    ensures forall id :: id in s.asks.agents ==> id in C.Apply(s.asks, a).agents
  {
    hide C.WaiterNext, C.Notify, C.Quiet;
    match a
    case WaiterStep(i) => ClarifyProofs.WaiterMoves(s.asks, i);
    case Push(_) =>
    case Await(_) =>
    case GiveUp(_) =>
    case RunnerStep =>
    case UserSet(_, _) =>
    case UserPublish(_) =>
    case RequestCancel =>
    case ClearCancel =>
    case Tick(_) =>
  }

  lemma RunnerStays(s: State, a: C.Step)
    requires Enabled(s, Handshake(a))
    ensures C.Apply(s.asks, a).runner.Handling? ==>
              (s.asks.runner.Handling? && !a.RunnerStep?) || (s.turn.begun && s.turn.phase.Running?)
  {
    hide C.WaiterNext, C.Notify, C.Quiet;
  }

  lemma TurnInv(s: State, b: T.Step)
    requires Inv(s) && Enabled(s, InTurn(b))
    ensures Inv(Next(s, InTurn(b)))
  {
    StagesStay(s, b);
    hide C.Inv, T.Next, T.Enabled, Link;
    FifoOf(s.asks);
    forall i | 0 <= i < |s.asks.pushed| ensures Link(Next(s, InTurn(b)), i) {
      TurnLink(s, b, i);
    }
  }

  lemma StagesStay(s: State, b: T.Step)
    requires C.Fifo(s.asks) && Linked(s) && Enabled(s, InTurn(b))
    ensures T.Next(s.turn, b).stages.Keys <= s.asks.agents.Keys
    ensures T.Next(s.turn, b).row.clarifies == T.Next(s.turn, b).clarifies
    ensures s.asks.runner.Handling? ==> T.Next(s.turn, b).begun && T.Next(s.turn, b).phase.Running?
  {
    hide Link;
  }

  lemma InitInv(s: State)
    requires Init(s)
    ensures Inv(s)
  {}

  lemma {:induction false} RunInv(trace: seq<State>, steps: seq<Step>, n: nat)
    requires Run(trace, steps) && n < |trace|
    ensures Inv(trace[n])
  {
    hide Inv, Enabled, Next, Init;
    if n == 0 {
      InitInv(trace[0]);
    } else {
      RunInv(trace, steps, n - 1);
      match steps[n - 1]
      case Handshake(a) => HandshakeInv(trace[n - 1], a);
      case InTurn(b) => TurnInv(trace[n - 1], b);
    }
  }

  /** In every run, about the `i`-th question the agent asked: what its agent was given is one value, the one choice the
      log announces for it, and the one the row stores once the question is settled, with its outcome; it was submitted
      by a user for this very question, or is the cancel or the timeout answer. */
  lemma OneAnswer(trace: seq<State>, steps: seq<Step>, n: nat, i: nat)
    requires Run(trace, steps) && n < |trace| && i < |trace[n].asks.pushed|
    ensures var s, t, id := trace[n].asks, trace[n].turn, trace[n].asks.pushed[i].id;
        && (id in s.given ==>
              && |s.given[id]| == 1 && Told(t, id, s.given[id][0])
              && (|| (id, s.given[id][0]) in s.submitted
                  || (s.given[id][0] == C.CANCEL && s.everCancelled)
                  || (s.given[id][0] == C.TIMEOUT && s.pushed[i].at + C.CLARIFY_MS <= s.now)))
        && (id in t.stages && t.stages[id] == T.Closed ==> id in s.given && Stored(t, id, s.given[id][0]))
        && (id in s.agents && s.agents[id].Got? ==> id in s.given && s.given[id][0] == s.agents[id].choice)
        && (!Untold(t, id) && id in t.stages && id !in s.given ==>
              && i < |s.waiters| && s.waiters[i].pc.Resolved? && Told(t, id, s.waiters[i].pc.choice))
  {
    var s, t := trace[n].asks, trace[n].turn;
    RunInv(trace, steps, n);
    assert Link(trace[n], i) && C.GivenOk(s, i) && C.AgentOk(s, s.pushed[i]);
    if i < |s.waiters| { assert C.LegitOk(s, i); }
  }

  /** Once the agent was given its answer, no browser that has followed the log from the start still asks: the modal
      closes no later than the agent goes on. */
  lemma AnsweredMeansClosed(trace: seq<State>, steps: seq<Step>, n: nat, i: nat, p: nat, c: Chat.Client)
    requires Run(trace, steps) && n < |trace| && i < |trace[n].asks.pushed|
    requires p <= trace[0].turn.base && c.active == trace[0].turn.cid && T.Blank(Chat.Lookup(c, trace[0].turn.mid))
    requires !Chat.HasRequest(c.pending, trace[n].asks.pushed[i].id)
    ensures p <= |trace[n].turn.log|
    ensures var s, t, id := trace[n].asks, trace[n].turn, trace[n].asks.pushed[i].id;
        id in s.given ==> !Chat.HasRequest(Chat.ApplyAll(c, t.log[p..]).pending, id)
  {
    var s, t, id := trace[n].asks, trace[n].turn, trace[n].asks.pushed[i].id;
    var asks, moves, turns, bs := Projects(trace, steps, n);
    hide C.Run, T.Run, Run;
    RunsOpen(asks, moves, turns, bs);
    TurnTheorems.EarlyClient(turns, bs, |bs|, p, c, id);
    RunInv(trace, steps, n);
    if id in s.given { GivenIsPast(trace[n], i); }
  }

  lemma GivenIsPast(s: State, i: nat)
    requires Inv(s) && i < |s.asks.pushed| && s.asks.pushed[i].id in s.asks.given
    ensures var id := s.asks.pushed[i].id;
        id in s.turn.stages && (s.turn.stages[id].Responded? || s.turn.stages[id] == T.Closed)
  {
    assert Link(s, i) && C.GivenOk(s.asks, i);
  }

  /** Question `i` is popped, and no event has mentioned it before; or its waiter has a choice to announce or push, or
      an answer to store. */
  ghost predicate Pressing(s: State, i: nat)
    requires i < |s.asks.pushed|
  {
    var t, id := s.turn, s.asks.pushed[i].id;
    if i < |s.asks.waiters| then
      var pc := s.asks.waiters[i].pc;
      pc.Resolved? || (pc.Answered? && id in t.stages && t.stages[id].Responded?)
    else
      s.asks.runner == C.Handling(id) &&
      (id !in t.stages ==> forall k :: 0 <= k < |t.log| ==> !T.Mentions(t.log[k].body, id))
  }

  /** Neither side waits for the other in vain: a pressing question always has a next step of its own. */
  lemma NeverBlocked(trace: seq<State>, steps: seq<Step>, n: nat, i: nat) returns (x: Step)
    requires Run(trace, steps) && n < |trace| && i < |trace[n].asks.pushed| && Pressing(trace[n], i)
    ensures Enabled(trace[n], x)
    ensures || x == Handshake(C.RunnerStep) || x == Handshake(C.WaiterStep(i))
            || (x.InTurn? && About(x.b, trace[n].asks.pushed[i].id))
  {
    RunInv(trace, steps, n);
    if i < |trace[n].asks.waiters| {
      x := WaiterMove(trace[n], i);
    } else {
      x := RunnerMove(trace[n], i);
    }
  }

  lemma WaiterMove(s: State, i: nat) returns (x: Step)
    requires Inv(s) && i < |s.asks.waiters| <= |s.asks.pushed| && Pressing(s, i)
    ensures Enabled(s, x)
    ensures x == Handshake(C.WaiterStep(i)) || (x.InTurn? && About(x.b, s.asks.pushed[i].id))
  {
    var t, id, w := s.turn, s.asks.pushed[i].id, s.asks.waiters[i];
    assert Link(s, i) && w in s.asks.waiters && w.id == id;
    match w.pc
    case Answered(_) => x := InTurn(T.Close(id));
    case Resolved(c) =>
      x := if t.stages[id] == T.Announced then InTurn(T.Respond(id, c)) else Handshake(C.WaiterStep(i));
  }

  lemma RunnerMove(s: State, i: nat) returns (x: Step)
    requires Inv(s) && |s.asks.waiters| <= i < |s.asks.pushed| && Pressing(s, i)
    ensures Enabled(s, x)
    ensures x == Handshake(C.RunnerStep) || (x.InTurn? && About(x.b, s.asks.pushed[i].id))
  {
    var t, id := s.turn, s.asks.pushed[i].id;
    FifoOf(s.asks);
    hide C.Inv;
    OwnPlace(s.asks, i, id);
    assert Link(s, i);
    x := if id !in t.stages then InTurn(T.Step.Record(id, ""))
         else if t.stages[id].Recorded? then InTurn(T.Announce(id, t.stages[id].question))
         else Handshake(C.RunnerStep);
  }
}
