/** What the clarify handshake guarantees in every run. */
module ClarifyTheorems {
  import opened Clarify
  import opened ClarifyProofs

  // ---------- order of service ----------

  function PushedIds(ps: seq<Pushed>): seq<Id> {
    seq(|ps|, i requires 0 <= i < |ps| => ps[i].id)
  }

  function TaskIds(ws: seq<Waiter>): seq<Id> {
    seq(|ws|, i requires 0 <= i < |ws| => ws[i].id)
  }

  /** The requests with a task, the one in hand and those still queued are the pushed ones, in push order,
      and no request occurs twice: each is popped exactly once, first in first out. */
  lemma ServedInOrder(trace: seq<State>, steps: seq<Step>, i: nat)
    requires Run(trace, steps) && i < |trace|
    ensures PushedIds(trace[i].pushed) ==
            TaskIds(trace[i].waiters) + InHand(trace[i].runner) + trace[i].queue
    ensures forall j, k :: 0 <= j < k < |trace[i].pushed| ==> trace[i].pushed[j].id != trace[i].pushed[k].id
  {
    RunInv(trace, steps, i);
    var s := trace[i];
    assert forall j :: Popped(s) <= j < |s.pushed| ==> s.pushed[j].id == s.queue[j - Popped(s)];
  }

  /** Only the runner, its queue and, at the end, one fresh waiter. */
  lemma RunnerTouches(s: State)
    ensures var t := StepRunner(s);
        && t.now == s.now && t.keys == s.keys && t.submitted == s.submitted && t.pushed == s.pushed
        && t.cancelUntil == s.cancelUntil && t.everCancelled == s.everCancelled
        && |s.waiters| <= |t.waiters| <= |s.waiters| + |InHand(s.runner)|
        && (forall k :: 0 <= k < |s.waiters| ==> t.waiters[k] == s.waiters[k])
        && (forall k :: |s.waiters| <= k < |t.waiters| ==> t.waiters[k].pc == Started)
  {
    match s.runner
    case Polling(_) => if s.queue == [] {} else {}
    case Handling(_) =>
  }

  // ---------- safety of the answers ----------

  /** The cancel flag alive at step `k` was set at step `m`, less than its lifetime earlier, and not cleared since. */
  ghost predicate SetAt(trace: seq<State>, steps: seq<Step>, m: nat, k: nat)
    requires Run(trace, steps) && m < k <= |steps|
  {
    && steps[m] == RequestCancel && trace[k].now < trace[k].cancelUntil == trace[m].now + CANCEL_TTL_MS
    && forall q :: m < q < k ==> steps[q] != ClearCancel
  }

  /** At step `k` task `j` looked at the flag and found it set. */
  ghost predicate SawFlag(trace: seq<State>, steps: seq<Step>, k: nat, j: nat)
    requires Run(trace, steps) && k < |steps|
  {
    && steps[k] == WaiterStep(j) && j < |trace[k].waiters| && trace[k].waiters[j].pc == CancelCheck
    && exists m :: 0 <= m < k && SetAt(trace, steps, m, k)
  }

  ghost predicate Cancelled(trace: seq<State>, steps: seq<Step>, i: nat, j: nat)
    requires Run(trace, steps) && i < |trace|
  {
    exists k :: 0 <= k < i && SawFlag(trace, steps, k, j)
  }

  lemma {:induction false} FlagHasSource(trace: seq<State>, steps: seq<Step>, k: nat)
    requires Run(trace, steps) && k <= |steps| && trace[k].now < trace[k].cancelUntil
    ensures exists m :: 0 <= m < k && SetAt(trace, steps, m, k)
  {
    hide Apply, Enabled;
    InitNoFlag(trace[0]);
    var s, a := trace[k - 1], steps[k - 1];
    FlagStep(s, a);
    if a == RequestCancel {
      assert SetAt(trace, steps, k - 1, k);
    } else {
      FlagHasSource(trace, steps, k - 1);
      var m :| 0 <= m < k - 1 && SetAt(trace, steps, m, k - 1);
      assert SetAt(trace, steps, m, k);
    }
  }

  lemma InitNoFlag(s: State)
    requires Init(s)
    ensures s.cancelUntil == 0
  {}

  lemma FlagStep(s: State, a: Step)
    requires Enabled(s, a)
    ensures var t := Apply(s, a);
        && s.now <= t.now
        && (a == RequestCancel ==> t.now == s.now && t.cancelUntil == s.now + CANCEL_TTL_MS)
        && (a == ClearCancel ==> t.cancelUntil == 0)
        && (a != RequestCancel && a != ClearCancel ==> t.cancelUntil == s.cancelUntil)
  {
    match a
    case RunnerStep => RunnerTouches(s);
    case WaiterStep(i) => WaiterMoves(s, i);
    case _ =>
  }

  /** A task gets its choice from a stored answer, the deadline, or the flag it just saw; and keeps it. */
  ghost predicate ChoiceFrom(s: State, a: Step, t: State, j: nat)
    requires j < |t.waiters| && HasChoice(t.waiters[j].pc)
  {
    var w, c := t.waiters[j], t.waiters[j].pc.choice;
    || (j < |s.waiters| && s.waiters[j].id == w.id && HasChoice(s.waiters[j].pc) && s.waiters[j].pc.choice == c)
    || (w.id, c) in s.submitted
    || c == TIMEOUT
    || (c == CANCEL && a == WaiterStep(j) && j < |s.waiters| && s.waiters[j].pc == CancelCheck && s.now < s.cancelUntil)
  }

  lemma ChoiceMoved(s: State, i: nat, t: State, j: nat)
    requires Inv(s) && Moved(s, i, t) && j < |t.waiters| && HasChoice(t.waiters[j].pc)
    ensures ChoiceFrom(s, WaiterStep(i), t, j)
  {
    var id := s.waiters[i].id;
    assert id in s.keys ==> (id, s.keys[id].choice) in s.submitted;
  }

  lemma ChoiceByOthers(s: State, a: Step, j: nat)
    requires Enabled(s, a) && !a.WaiterStep? && !a.RunnerStep?
    requires j < |Apply(s, a).waiters| && HasChoice(Apply(s, a).waiters[j].pc)
    ensures ChoiceFrom(s, a, Apply(s, a), j) && s.submitted <= Apply(s, a).submitted
  {
    match a
    case UserSet(_, _) =>
    case UserPublish(_) =>
    case _ =>
  }

  lemma ChoiceStep(s: State, a: Step, j: nat)
    requires Inv(s) && Enabled(s, a) && j < |Apply(s, a).waiters| && HasChoice(Apply(s, a).waiters[j].pc)
    ensures ChoiceFrom(s, a, Apply(s, a), j) && s.submitted <= Apply(s, a).submitted
  {
    hide StepWaiter, StepRunner, Notify, Inv, ChoiceFrom;
    if a.WaiterStep? {
      WaiterMoves(s, a.i);
      ChoiceMoved(s, a.i, StepWaiter(s, a.i), j);
    } else if a.RunnerStep? {
      ChoiceByRunner(s, j);
    } else {
      ChoiceByOthers(s, a, j);
    }
  }

  lemma ChoiceByRunner(s: State, j: nat)
    requires j < |StepRunner(s).waiters| && HasChoice(StepRunner(s).waiters[j].pc)
    ensures ChoiceFrom(s, RunnerStep, StepRunner(s), j) && s.submitted <= StepRunner(s).submitted
  {
    RunnerTouches(s);
  }

  /** Whatever a task ends with is a choice submitted for its id, the timeout answer, or the cancel answer where it
      saw the flag. */
  lemma {:induction false} ChoiceHasSource(trace: seq<State>, steps: seq<Step>, i: nat, j: nat)
    requires Run(trace, steps) && i < |trace| && j < |trace[i].waiters| && HasChoice(trace[i].waiters[j].pc)
    ensures var w := trace[i].waiters[j];
        || (w.id, w.pc.choice) in trace[i].submitted
        || w.pc.choice == TIMEOUT
        || (w.pc.choice == CANCEL && Cancelled(trace, steps, i, j))
  {
    hide Apply, Enabled, Inv, SetAt;
    if i > 0 {
      var s, t := trace[i - 1], trace[i];
      RunInv(trace, steps, i - 1);
      ChoiceStep(s, steps[i - 1], j);
      if j < |s.waiters| && HasChoice(s.waiters[j].pc) && s.waiters[j].id == t.waiters[j].id
         && s.waiters[j].pc.choice == t.waiters[j].pc.choice
      {
        ChoiceHasSource(trace, steps, i - 1, j);
        if Cancelled(trace, steps, i - 1, j) {
          var k :| 0 <= k < i - 1 && SawFlag(trace, steps, k, j);
          assert Cancelled(trace, steps, i, j);
        }
      } else if steps[i - 1] == WaiterStep(j) && s.now < s.cancelUntil
             && j < |s.waiters| && s.waiters[j].pc == CancelCheck
      {
        FlagHasSource(trace, steps, i - 1);
        assert SawFlag(trace, steps, i - 1, j);
      }
    }
  }

  /** A response list holds nothing or one value, pushed for a request an agent made by that request's own task: a
      choice some user submitted for that very id, the cancel answer if the waiter saw a cancel less than
      `CANCEL_TTL_MS` old and not cleared, or the timeout answer at least `CLARIFY_MS` after the agent asked. */
  lemma AnswersAreGenuine(trace: seq<State>, steps: seq<Step>, i: nat, j: nat)
    requires Run(trace, steps) && i < |trace| && j < |trace[i].pushed|
    ensures trace[i].given.Keys <= trace[i].agents.Keys
    ensures var s, p := trace[i], trace[i].pushed[j];
        p.id in s.given ==>
          && |s.given[p.id]| == 1
          && var c := s.given[p.id][0];
          || (p.id, c) in s.submitted
          || (c == CANCEL && Cancelled(trace, steps, i, j))
          || (c == TIMEOUT && p.at + CLARIFY_MS <= s.now)
  {
    var s := trace[i];
    RunInv(trace, steps, i);
    assert GivenOk(s, j);
    if s.pushed[j].id in s.given {
      assert LegitOk(s, j);
      ChoiceHasSource(trace, steps, i, j);
    }
  }

  // ---------- no lost wake-up ----------

  /** Task `k` has a stored answer within reach, wherever it stands: before its first GET, between that and the wait
      with a notification to come and time left, in the wait, or past it; or it already has a choice. */
  ghost predicate Caught(s: State, k: nat) {
    && k < |s.waiters| <= |s.pushed|
    && var w := s.waiters[k];
    || ((w.pc.Started? || w.pc.Subscribed? || w.pc.Woken?) && Live(s, w.id))
    || ((w.pc.Head? || w.pc.CancelCheck?) && Live(s, w.id) && w.notes > 0 && s.now < w.deadline)
    || (w.pc.Blocked? && Live(s, w.id) && w.notes > 0 && (w.ack ==> s.now < w.deadline))
    || (HasChoice(w.pc) && ((w.id, w.pc.choice) in s.submitted || (w.pc.choice == CANCEL && s.everCancelled)))
  }

  /** The loop still polls: its deadline lies ahead, or it is in a wait it will come out of with a GET. */
  predicate StillPolls(s: State, w: Waiter) {
    && !HasChoice(w.pc)
    && ((w.pc.Head? || w.pc.CancelCheck? || (w.pc.Blocked? && w.ack)) ==> s.now < w.deadline)
  }

  /** A task that still polls is caught as soon as its answer is set and every notification for it is sent, whatever
      it is doing. */
  lemma PublishedIsCaught(trace: seq<State>, steps: seq<Step>, i: nat, k: nat)
    requires Run(trace, steps) && i < |trace| && k < |trace[i].waiters|
    requires StillPolls(trace[i], trace[i].waiters[k])
    requires Live(trace[i], trace[i].waiters[k].id) && trace[i].waiters[k].id !in trace[i].inflight
    ensures Caught(trace[i], k)
  {
    RunInv(trace, steps, i);
    assert AwakeOk(trace[i], k);
  }

  /** Step from `s` to `t` leaves task `k` caught, and time alone only once that task has ended. */
  ghost predicate StaysCaught(s: State, t: State, k: nat)
    requires k < |s.waiters|
  {
    && Caught(t, k) && t.waiters[k].id == s.waiters[k].id
    && if s.waiters[k].pc.Answered? then t.waiters[k].pc.Answered? else t.now == s.now
  }

  lemma CaughtByOthers(s: State, a: Step, k: nat)
    requires Enabled(s, a) && Caught(s, k) && !a.WaiterStep? && !a.RunnerStep?
    ensures StaysCaught(s, Apply(s, a), k)
  {
    if a.Tick? { assert s.waiters[k].pc.Answered?; }
  }

  lemma CaughtUntouched(s: State, t: State, k: nat)
    requires Caught(s, k) && t.now == s.now && t.keys == s.keys
    requires t.submitted == s.submitted && t.everCancelled == s.everCancelled
    requires k < |t.waiters| <= |t.pushed| && t.waiters[k] == s.waiters[k]
    ensures StaysCaught(s, t, k)
  {}

  lemma CaughtStep(s: State, a: Step, k: nat)
    requires Inv(s) && Enabled(s, a) && Caught(s, k)
    ensures StaysCaught(s, Apply(s, a), k)
  {
    hide Once, Sound, Awake, Timed, Told, StaysCaught, Live, HasChoice, Notify, StepWaiter, StepRunner;
    if a.WaiterStep? {
      WaiterMoves(s, a.i);
      CaughtMoved(s, a.i, StepWaiter(s, a.i), k);
    } else if a.RunnerStep? {
      RunnerTouches(s);
      CaughtUntouched(s, StepRunner(s), k);
    } else {
      CaughtByOthers(s, a, k);
    }
  }

  lemma CaughtMoved(s: State, i: nat, t: State, k: nat)
    requires Inv(s) && Moved(s, i, t) && Caught(s, k)
    ensures StaysCaught(s, t, k)
  {
    assert s.waiters[k].id == s.pushed[k].id && s.waiters[i].id == s.pushed[i].id;
    if k != i { assert s.pushed[k].id != s.pushed[i].id; }
    var w := s.waiters[k];
    assert w.id in s.keys ==> (w.id, s.keys[w.id].choice) in s.submitted;
  }

  /** An answer set and announced at any moment while a waiter still polls is never missed: whatever it ends
      with is a user's choice for its id, or the cancel answer if it saw a live cancel; and the clock stands still
      until it ends. */
  lemma {:induction false} NeverMissed(trace: seq<State>, steps: seq<Step>, i: nat, j: nat, k: nat)
    requires Run(trace, steps) && i <= j < |trace| && Caught(trace[i], k)
    ensures Caught(trace[j], k) && trace[j].waiters[k].id == trace[i].waiters[k].id
    ensures HasChoice(trace[j].waiters[k].pc) ==>
        || (trace[i].waiters[k].id, trace[j].waiters[k].pc.choice) in trace[j].submitted
        || (trace[j].waiters[k].pc.choice == CANCEL && Cancelled(trace, steps, j, k))
    ensures !trace[j].waiters[k].pc.Answered? ==> trace[j].now == trace[i].now
  {
    hide Apply, Enabled, Inv, Init, Cancelled;
    if i < j {
      NeverMissed(trace, steps, i, j - 1, k);
      RunInv(trace, steps, j - 1);
      CaughtStep(trace[j - 1], steps[j - 1], k);
    }
    if HasChoice(trace[j].waiters[k].pc) { ChoiceHasSource(trace, steps, j, k); }
  }

  // ---------- progress ----------

  /** No request stays unanswered past its bound: the polls needed to reach it plus `CLARIFY_MS`. */
  lemma AnsweredInTime(trace: seq<State>, steps: seq<Step>, i: nat, j: nat)
    requires Run(trace, steps) && i < |trace| && j < |trace[i].pushed|
    requires trace[i].now > Bound(trace[i].pushed[j])
    ensures trace[i].pushed[j].id in trace[i].given
  {
    RunInv(trace, steps, i);
    if trace[i].pushed[j].id !in trace[i].given { Unanswered(trace[i], j); }
  }

  function Stage(now: nat, pc: Pc): nat {
    match pc
    case Started => 13
    case Subscribed => 4
    case Head => 3
    case Blocked(wake) => if now >= wake then 5 else 0
    case Woken => 5
    case CancelCheck => 4
    case Taking(_) => 2
    case Resolved(_) => 1
    case Answered(_) => 0
  }

  function WaiterRank(now: nat, w: Waiter): nat {
    Stage(now, w.pc) + 8 * (w.notes + if w.ack then 1 else 0)
  }

  function SumRank(now: nat, ws: seq<Waiter>): nat {
    if ws == [] then 0 else WaiterRank(now, ws[0]) + SumRank(now, ws[1..])
  }

  function RunnerRank(s: State): nat {
    match s.runner
    case Polling(due) => if s.now >= due then 15 else 0
    case Handling(_) => 14
  }

  /** How much zero-time work the runner side still has. */
  function Rank(s: State): nat {
    RunnerRank(s) + SumRank(s.now, s.waiters)
  }

  lemma {:induction false} SumUpdate(now: nat, ws: seq<Waiter>, i: nat, w: Waiter)
    requires i < |ws|
    ensures SumRank(now, ws[i := w]) == SumRank(now, ws) - WaiterRank(now, ws[i]) + WaiterRank(now, w)
  {
    if i > 0 {
      assert ws[i := w][1..] == ws[1..][i - 1 := w];
      SumUpdate(now, ws[1..], i - 1, w);
    } else {
      assert ws[i := w][1..] == ws[1..];
    }
  }

  lemma {:induction false} SumAppend(now: nat, ws: seq<Waiter>, w: Waiter)
    ensures SumRank(now, ws + [w]) == SumRank(now, ws) + WaiterRank(now, w)
  {
    if ws != [] {
      assert (ws + [w])[1..] == ws[1..] + [w];
      SumAppend(now, ws[1..], w);
    } else {
      assert (ws + [w])[1..] == [];
    }
  }

  lemma StageFalls(s: State, w: Waiter)
    requires CanStep(s.now, w)
    ensures WaiterRank(s.now, WaiterNext(s, w)) < WaiterRank(s.now, w)
  {}

  predicate RunnerSide(a: Step) {
    a.RunnerStep? || a.WaiterStep?
  }

  /** Every runner-side step takes no time and strictly lowers the rank; every tick lowers the time left to the
      bound of each unanswered request.  So (time left, rank) falls lexicographically with each of them. */
  lemma RunnerSideDecreases(s: State, a: Step)
    requires Enabled(s, a) && RunnerSide(a)
    ensures Apply(s, a).now == s.now && Rank(Apply(s, a)) < Rank(s)
  {
    match a
    case WaiterStep(i) =>
      WaiterMoves(s, i);
      StageFalls(s, s.waiters[i]);
      SumUpdate(s.now, s.waiters, i, WaiterNext(s, s.waiters[i]));
    case RunnerStep =>
      if s.runner.Handling? { SumAppend(s.now, s.waiters, Waiter(s.runner.id, Started, false, 0, 0)); }
  }

  /** In every reachable state some runner-side step or a tick is enabled, and taking it lowers
      (time left for request `j`, rank): nothing on the runner side can block. */
  lemma Progress(trace: seq<State>, steps: seq<Step>, i: nat, j: nat)
    requires Run(trace, steps) && i < |trace| && j < |trace[i].pushed|
    requires trace[i].pushed[j].id !in trace[i].given
    ensures var s := trace[i];
        && s.now <= Bound(s.pushed[j])
        && exists a :: (RunnerSide(a) || a == Tick(1)) && Enabled(s, a) &&
             var t := Apply(s, a);
             || t.now > s.now
             || (t.now == s.now && Rank(t) < Rank(s))
  {
    RunInv(trace, steps, i);
    var s := trace[i];
    Unanswered(s, j);
    if Quiet(s, s.now + 1) {
      assert Enabled(s, Tick(1));
    } else {
      var a := Busy(s);
      RunnerSideDecreases(s, a);
    }
  }

  lemma Busy(s: State) returns (a: Step)
    requires !Quiet(s, s.now + 1)
    ensures RunnerSide(a) && Enabled(s, a)
  {
    if s.runner.Polling? && s.now + 1 <= s.runner.due {
      var k :| 0 <= k < |s.waiters| && !(
        || s.waiters[k].pc.Answered?
        || (s.waiters[k].pc.Blocked? && !s.waiters[k].ack && s.waiters[k].notes == 0
            && s.now + 1 <= s.waiters[k].pc.wake));
      a := WaiterStep(k);
    } else {
      a := RunnerStep;
    }
  }

  /** An agent with fewer than 59 requests ahead of its own never runs out of patience, unless it only began to
      wait after its answer had already lain unread for `RESP_TTL_MS`; whatever it is told is what was given. */
  lemma NoHang(trace: seq<State>, steps: seq<Step>, i: nat, j: nat)
    requires Run(trace, steps) && i < |trace| && j < |trace[i].pushed|
    ensures var s, p := trace[i], trace[i].pushed[j];
        && p.id in s.agents
        && (s.agents[p.id] == GaveUp(false) ==> p.ahead >= 59)
        && (s.agents[p.id].Got? ==> p.id in s.given && s.given[p.id] == [s.agents[p.id].choice])
  {
    RunInv(trace, steps, i);
    assert AgentOk(trace[i], trace[i].pushed[j]);
  }

  /** An answer pushed before the agent starts to wait is handed over by the BLPOP itself, as long as it is fresh;
      one pushed while the agent waits is handed over by the push. */
  lemma EitherOrderDelivers(trace: seq<State>, steps: seq<Step>, i: nat, j: nat)
    requires Run(trace, steps) && i < |trace| && j < |trace[i].pushed|
    ensures var s, id := trace[i], trace[i].pushed[j].id;
        && id in s.agents
        && (id in s.given && s.agents[id] == Asked ==>
              id in s.resp && (s.now < s.resp[id].expires ==>
                [s.resp[id].value] == s.given[id] && Apply(s, Await(id)).agents[id] == Got(s.resp[id].value)))
        && (j < |s.waiters| && s.waiters[j].pc.Resolved? && s.agents[id].Waiting? ==>
              Apply(s, WaiterStep(j)).agents[id] == Got(s.waiters[j].pc.choice))
  {
    RunInv(trace, steps, i);
    var s := trace[i];
    assert AgentOk(s, s.pushed[j]);
    if j < |s.waiters| && s.waiters[j].pc.Resolved? { WaiterMoves(s, j); }
  }
}
