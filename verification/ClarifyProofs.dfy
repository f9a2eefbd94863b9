/** Safety and progress of the clarify handshake, over every interleaving. */
module ClarifyProofs {
  import opened Clarify

  lemma InitInv(s: State)
    requires Init(s)
    ensures Inv(s)
  {}

  // ---------- what the busy steps change ----------

  /** The shape the order of service depends on is the same in `s` and `t`. */
  ghost predicate SameShape(s: State, t: State) {
    && t.pushed == s.pushed && t.queue == s.queue && t.runner == s.runner
    && |t.waiters| == |s.waiters|
    && (forall i :: 0 <= i < |s.waiters| ==> t.waiters[i].id == s.waiters[i].id)
    && t.agents.Keys == s.agents.Keys
  }

  /** Task `i` made its move; `t` is the state after it. */
  ghost predicate Moved(s: State, i: nat, t: State) {
    && i < |s.waiters| && CanStep(s.now, s.waiters[i])
    && t.waiters == s.waiters[i := WaiterNext(s, s.waiters[i])]
    && t == s.(waiters := t.waiters, keys := t.keys, given := t.given, resp := t.resp, agents := t.agents)
    && t.keys == (if s.waiters[i].pc.Taking? then s.keys - {s.waiters[i].id} else s.keys)
    && (!s.waiters[i].pc.Resolved? ==> t.given == s.given && t.resp == s.resp && t.agents == s.agents)
  }

  /** Task `i` pushed answer `c` on its response list. */
  ghost predicate Gave(s: State, i: nat, t: State) {
    && Moved(s, i, t) && s.waiters[i].pc.Resolved?
    && var id, c := s.waiters[i].id, s.waiters[i].pc.choice;
    && t.given == s.given[id := (if id in s.given then s.given[id] else []) + [c]]
    && if id in s.agents && s.agents[id].Waiting?
       then t.agents == s.agents[id := Got(c)] && t.resp == s.resp
       else t.agents == s.agents && t.resp == s.resp[id := RespList(c, s.now + RESP_TTL_MS)]
  }

  lemma WaiterMoves(s: State, i: nat)
    requires Enabled(s, WaiterStep(i))
    ensures Moved(s, i, StepWaiter(s, i))
    ensures s.waiters[i].pc.Resolved? ==> Gave(s, i, StepWaiter(s, i))
  {
    hide WaiterNext;
    match s.waiters[i].pc
    case Taking(_) =>
    case Resolved(_) =>
    case _ =>
  }

  lemma MovedShape(s: State, i: nat, t: State)
    requires Moved(s, i, t) && (s.waiters[i].pc.Resolved? ==> Gave(s, i, t))
    ensures SameShape(s, t)
  {}

  lemma FifoFrame(s: State, t: State)
    requires Fifo(s) && SameShape(s, t)
    ensures Fifo(t)
  {}

  lemma AwakeMoved(s: State, i: nat, t: State)
    requires Fifo(s) && Awake(s) && Moved(s, i, t)
    ensures Awake(t)
  {
    forall j | 0 <= j < |t.waiters| ensures AwakeOk(t, j) {
      assert AwakeOk(s, j);
      if j != i { assert s.pushed[j].id != s.pushed[i].id; }
    }
  }

  lemma TimedMoved(s: State, i: nat, t: State)
    requires Fifo(s) && Timed(s) && Moved(s, i, t)
    ensures Timed(t)
  {
    forall j | 0 <= j < |t.pushed| ensures TimeOk(t, j) {
      assert TimeOk(s, j);
    }
  }

  lemma SoundMoved(s: State, i: nat, t: State)
    requires Fifo(s) && Timed(s) && Sound(s) && Moved(s, i, t)
    ensures Sound(t)
  {
    assert TimeOk(s, i);
    forall j | 0 <= j < |t.waiters| ensures LegitOk(t, j) {
      assert LegitOk(s, j);
    }
  }

  lemma OnceMoved(s: State, i: nat, t: State)
    requires Fifo(s) && Once(s) && Moved(s, i, t) && (s.waiters[i].pc.Resolved? ==> Gave(s, i, t))
    ensures Once(t)
  {
    assert GivenOk(s, i);
    forall j | 0 <= j < |t.pushed| ensures GivenOk(t, j) {
      assert GivenOk(s, j);
      if j != i { assert s.pushed[j].id != s.pushed[i].id; }
    }
  }

  lemma ToldMoved(s: State, i: nat, t: State)
    requires Fifo(s) && Once(s) && Told(s) && Moved(s, i, t) && (s.waiters[i].pc.Resolved? ==> Gave(s, i, t))
    ensures Told(t)
  {
    assert GivenOk(s, i) && AgentOk(s, s.pushed[i]);
    forall j | 0 <= j < |t.pushed| ensures AgentOk(t, t.pushed[j]) {
      assert AgentOk(s, s.pushed[j]);
      if j != i { assert s.pushed[j].id != s.pushed[i].id; }
    }
  }

  lemma WaiterInv(s: State, i: nat)
    requires Inv(s) && Enabled(s, WaiterStep(i))
    ensures Inv(Apply(s, WaiterStep(i)))
  {
    var t := StepWaiter(s, i);
    WaiterMoves(s, i);
    MovedShape(s, i, t);
    FifoFrame(s, t);
    OnceMoved(s, i, t);
    SoundMoved(s, i, t);
    AwakeMoved(s, i, t);
    TimedMoved(s, i, t);
    ToldMoved(s, i, t);
  }

  lemma ToldFrame(s: State, t: State)
    requires Told(s) && t.pushed == s.pushed && t.agents == s.agents && t.resp == s.resp && t.given == s.given
    ensures Told(t)
  {
    forall i | 0 <= i < |t.pushed| ensures AgentOk(t, t.pushed[i]) {
      assert AgentOk(s, s.pushed[i]);
    }
  }

  // ---------- the poll loop ----------

  /** The poll at its due time: one request popped, or none waiting. */
  ghost predicate Polled(s: State, t: State) {
    && s.runner.Polling? && s.now >= s.runner.due
    && t == s.(runner := t.runner, queue := t.queue)
    && if s.queue == [] then t.runner == Polling(s.now + POLL_MS) && t.queue == []
       else t.runner == Handling(s.queue[0]) && t.queue == s.queue[1..]
  }

  lemma PollFifo(s: State, t: State)
    requires Fifo(s) && Polled(s, t)
    ensures Fifo(t)
  {
    forall i | Popped(t) <= i < |t.pushed| ensures t.pushed[i].id == t.queue[i - Popped(t)] {
      assert s.pushed[i].id == s.queue[i - Popped(s)];
    }
  }

  lemma PollTimed(s: State, t: State)
    requires Fifo(s) && Timed(s) && Polled(s, t)
    ensures Timed(t)
  {
    forall i | 0 <= i < |t.pushed| ensures TimeOk(t, i) {
      assert TimeOk(s, i);
    }
  }

  lemma PollInv(s: State, t: State)
    requires Inv(s) && Polled(s, t)
    ensures Inv(t)
  {
    PollFifo(s, t);
    PollTimed(s, t);
    ToldFrame(s, t);
    forall i | 0 <= i < |t.pushed| ensures GivenOk(t, i) {
      assert GivenOk(s, i);
    }
    forall i | 0 <= i < |t.waiters| ensures LegitOk(t, i) && AwakeOk(t, i) {
      assert LegitOk(s, i) && AwakeOk(s, i);
    }
  }

  lemma SpawnInv(s: State)
    requires Inv(s) && s.runner.Handling?
    ensures Inv(Apply(s, RunnerStep))
  {
    var t := StepRunner(s);
    forall i | 0 <= i < |t.pushed| ensures GivenOk(t, i) && TimeOk(t, i) && AgentOk(t, t.pushed[i]) {
      assert GivenOk(s, i) && TimeOk(s, i) && AgentOk(s, s.pushed[i]);
    }
    forall i | 0 <= i < |t.waiters| ensures LegitOk(t, i) && AwakeOk(t, i) {
      if i < |s.waiters| { assert LegitOk(s, i) && AwakeOk(s, i); }
    }
  }

  // ---------- the agent, the users and the clock ----------

  lemma PushInv(s: State, id: Id)
    requires Inv(s) && Enabled(s, Push(id))
    ensures Inv(Apply(s, Push(id)))
  {
    var t := Apply(s, Push(id));
    forall i | 0 <= i < |t.pushed| ensures GivenOk(t, i) && TimeOk(t, i) && AgentOk(t, t.pushed[i]) {
      if i < |s.pushed| { assert GivenOk(s, i) && TimeOk(s, i) && AgentOk(s, s.pushed[i]); }
    }
    forall i | 0 <= i < |t.waiters| ensures LegitOk(t, i) && AwakeOk(t, i) {
      assert LegitOk(s, i) && AwakeOk(s, i);
    }
  }

  /** A request without an answer is still within its bound. */
  lemma Unanswered(s: State, i: nat)
    requires Once(s) && Timed(s) && i < |s.pushed| && s.pushed[i].id !in s.given
    ensures s.now <= Bound(s.pushed[i])
  {
    assert GivenOk(s, i) && TimeOk(s, i);
  }

  /** Runner and waiters stand where they stood: only keys, flags, notifications or the agents changed. */
  ghost predicate SameTasks(s: State, t: State) {
    && SameShape(s, t) && t.now == s.now && t.given == s.given
    && (forall i :: 0 <= i < |s.waiters| ==>
          t.waiters[i].pc == s.waiters[i].pc && t.waiters[i].deadline == s.waiters[i].deadline)
  }

  lemma TaskFrame(s: State, t: State)
    requires Fifo(s) && Once(s) && Timed(s) && SameTasks(s, t)
    ensures Fifo(t) && Once(t) && Timed(t)
  {
    FifoFrame(s, t);
    forall i | 0 <= i < |t.pushed| ensures GivenOk(t, i) && TimeOk(t, i) {
      assert GivenOk(s, i) && TimeOk(s, i);
    }
  }

  lemma SoundFrame(s: State, t: State)
    requires Sound(s) && SameTasks(s, t) && s.submitted <= t.submitted && (s.everCancelled ==> t.everCancelled)
    requires t.cancelUntil > 0 ==> t.everCancelled
    requires forall id :: id in t.keys ==> (id, t.keys[id].choice) in t.submitted
    ensures Sound(t)
  {
    forall i | 0 <= i < |t.waiters| ensures LegitOk(t, i) {
      assert LegitOk(s, i);
    }
  }

  lemma AgentTold(s: State, id: Id, t: State)
    requires Fifo(s) && Once(s) && Timed(s) && Told(s) && id in s.agents
    requires t == s.(agents := t.agents, resp := t.resp)
    requires || (Enabled(s, Await(id)) && t == StepAwait(s, id))
             || (Enabled(s, GiveUp(id)) && t == s.(agents := s.agents[id := GaveUp(s.agents[id].late)]))
    ensures Told(t)
  {
    forall i | 0 <= i < |t.pushed| ensures AgentOk(t, t.pushed[i]) {
      assert AgentOk(s, s.pushed[i]) && TimeOk(s, i);
      if s.pushed[i].id == id && id !in s.given { Unanswered(s, i); }
    }
  }

  lemma AwaitTouches(s: State, id: Id)
    requires Enabled(s, Await(id))
    ensures var t := StepAwait(s, id); SameTasks(s, t) && t == s.(agents := t.agents, resp := t.resp)
  {}

  lemma AwaitInv(s: State, id: Id)
    requires Inv(s) && Enabled(s, Await(id))
    ensures Inv(StepAwait(s, id))
  {
    hide StepAwait, Fifo, Once, Timed, Told, SameTasks;
    var t := StepAwait(s, id);
    AwaitTouches(s, id);
    TaskFrame(s, t);
    SoundFrame(s, t);
    AgentTold(s, id, t);
    forall i | 0 <= i < |t.waiters| ensures AwakeOk(t, i) {
      assert AwakeOk(s, i);
    }
  }

  lemma GiveUpInv(s: State, id: Id)
    requires Inv(s) && Enabled(s, GiveUp(id))
    ensures Inv(Apply(s, GiveUp(id)))
  {
    var t := s.(agents := s.agents[id := GaveUp(s.agents[id].late)]);
    TaskFrame(s, t);
    SoundFrame(s, t);
    AgentTold(s, id, t);
    forall i | 0 <= i < |t.waiters| ensures AwakeOk(t, i) {
      assert AwakeOk(s, i);
    }
  }

  lemma UserInv(s: State, a: Step)
    requires Inv(s) && (a.UserSet? || a.RequestCancel? || a.ClearCancel?)
    ensures Inv(Apply(s, a))
  {
    var t := Apply(s, a);
    TaskFrame(s, t);
    SoundFrame(s, t);
    ToldFrame(s, t);
    forall i | 0 <= i < |t.waiters| ensures AwakeOk(t, i) {
      assert AwakeOk(s, i);
    }
  }

  lemma PublishInv(s: State, id: Id)
    requires Inv(s) && Enabled(s, UserPublish(id))
    ensures Inv(Apply(s, UserPublish(id)))
  {
    var t := s.(inflight := s.inflight - multiset{id}, waiters := Notify(s.waiters));
    TaskFrame(s, t);
    SoundFrame(s, t);
    ToldFrame(s, t);
    forall i | 0 <= i < |t.waiters| ensures AwakeOk(t, i) {
      assert AwakeOk(s, i);
    }
  }

  lemma TickInv(s: State, d: nat)
    requires Inv(s) && Enabled(s, Tick(d))
    ensures Inv(Apply(s, Tick(d)))
  {
    var t := Apply(s, Tick(d));
    FifoFrame(s, t);
    forall i | 0 <= i < |t.pushed| ensures GivenOk(t, i) && TimeOk(t, i) && AgentOk(t, t.pushed[i]) {
      assert GivenOk(s, i) && TimeOk(s, i) && AgentOk(s, s.pushed[i]);
    }
    forall i | 0 <= i < |t.waiters| ensures LegitOk(t, i) && AwakeOk(t, i) {
      assert LegitOk(s, i) && AwakeOk(s, i);
    }
  }

  lemma StepInv(s: State, a: Step)
    requires Inv(s) && Enabled(s, a)
    ensures Inv(Apply(s, a))
  {
    match a
    case Push(id) => PushInv(s, id);
    case Await(id) => AwaitInv(s, id);
    case GiveUp(id) => GiveUpInv(s, id);
    case RunnerStep => if s.runner.Polling? { PollInv(s, StepRunner(s)); } else { SpawnInv(s); }
    case WaiterStep(i) => WaiterInv(s, i);
    case UserSet(_, _) => UserInv(s, a);
    case UserPublish(id) => PublishInv(s, id);
    case RequestCancel => UserInv(s, a);
    case ClearCancel => UserInv(s, a);
    case Tick(d) => TickInv(s, d);
  }

  lemma {:induction false} RunInv(trace: seq<State>, steps: seq<Step>, i: nat)
    requires Run(trace, steps) && i < |trace|
    ensures Inv(trace[i])
  {
    if i == 0 {
      InitInv(trace[0]);
    } else {
      RunInv(trace, steps, i - 1);
      StepInv(trace[i - 1], steps[i - 1]);
    }
  }
}
