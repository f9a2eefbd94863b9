/** From the user's click to the agent: an answer reaches the waiter, and so does a cancel. */
module ClarifyAnswers {
  import opened Numbers
  import opened Clarify
  import opened ClarifyProofs
  import opened ClarifyTheorems

  // ---------- a submitted answer stays until it is taken ----------

  /** No waiter has a choice for this question yet. */
  ghost predicate Unchosen(s: State, id: Id) {
    forall w :: w in s.waiters && w.id == id ==> !HasChoice(w.pc)
  }

  /** A choice is for good, and only a waiter that has one takes the answer away. */
  ghost predicate KeepsAnswer(s: State, a: Step, t: State, id: Id) {
    && s.now <= t.now
    && (Unchosen(t, id) ==>
          && Unchosen(s, id)
          && if a.UserSet? && a.id == id then id in t.keys && t.keys[id] == KeyVal(a.choice, s.now + KEY_TTL_MS)
             else (id in s.keys <==> id in t.keys) && (id in s.keys ==> t.keys[id] == s.keys[id]))
  }

  lemma AnswerMoved(s: State, i: nat, t: State, id: Id)
    requires Moved(s, i, t)
    ensures KeepsAnswer(s, WaiterStep(i), t, id)
  {
    var w := t.waiters[i];
    assert w in t.waiters && w.id == s.waiters[i].id;
    if Unchosen(t, id) {
      forall v | v in s.waiters && v.id == id ensures !HasChoice(v.pc) {
        var k :| 0 <= k < |s.waiters| && s.waiters[k] == v;
        assert t.waiters[k] in t.waiters;
      }
    }
  }

  lemma SameWaiters(s: State, t: State, id: Id)
    requires |s.waiters| <= |t.waiters| && Unchosen(t, id)
    requires forall k :: 0 <= k < |s.waiters| ==>
        t.waiters[k].id == s.waiters[k].id && t.waiters[k].pc == s.waiters[k].pc
    ensures Unchosen(s, id)
  {
    forall v | v in s.waiters && v.id == id ensures !HasChoice(v.pc) {
      var k :| 0 <= k < |s.waiters| && s.waiters[k] == v;
      assert t.waiters[k] in t.waiters;
    }
  }

  lemma AnswerStep(s: State, a: Step, id: Id)
    requires Enabled(s, a)
    ensures KeepsAnswer(s, a, Apply(s, a), id)
  {
    hide HasChoice, StepWaiter, StepRunner, WaiterNext, Unchosen;
    if a.WaiterStep? {
      WaiterMoves(s, a.i);
      AnswerMoved(s, a.i, StepWaiter(s, a.i), id);
    } else {
      if a.RunnerStep? { RunnerTouches(s); } else { OthersKeepWaiters(s, a); }
      if Unchosen(Apply(s, a), id) { SameWaiters(s, Apply(s, a), id); }
    }
  }

  lemma OthersKeepWaiters(s: State, a: Step)
    requires Enabled(s, a) && !a.WaiterStep? && !a.RunnerStep?
    ensures var t := Apply(s, a);
        && |t.waiters| == |s.waiters|
        && forall k :: 0 <= k < |s.waiters| ==> t.waiters[k].id == s.waiters[k].id && t.waiters[k].pc == s.waiters[k].pc
  {}

  predicate Sets(a: Step, id: Id) {
    a.UserSet? && a.id == id
  }

  /** The stored answer is the one submitted at step `l`, for its whole lifetime, and nothing newer was submitted. */
  ghost predicate Newest(trace: seq<State>, steps: seq<Step>, l: nat, j: nat, id: Id)
    requires Run(trace, steps) && l < j < |trace|
  {
    && Sets(steps[l], id) && (forall q :: l < q < j ==> !Sets(steps[q], id))
    && id in trace[j].keys && trace[j].keys[id] == KeyVal(steps[l].choice, trace[l].now + KEY_TTL_MS)
    && trace[l].now <= trace[j].now
  }

  /** A submitted answer is stored, and stays so until a waiter has a choice; a newer one replaces it. */
  lemma {:induction false} AnswerIsKept(trace: seq<State>, steps: seq<Step>, i: nat, j: nat, id: Id)
    requires Run(trace, steps) && i < j < |trace| && Sets(steps[i], id) && Unchosen(trace[j], id)
    ensures exists l :: i <= l < j && trace[i].now <= trace[l].now && Newest(trace, steps, l, j, id)
  {
    hide Apply, Enabled, Unchosen, Init;
    AnswerStep(trace[j - 1], steps[j - 1], id);
    if Sets(steps[j - 1], id) {
      NeverEarlier(trace, steps, i, j - 1);
      assert Newest(trace, steps, j - 1, j, id);
    } else {
      AnswerIsKept(trace, steps, i, j - 1, id);
      var l :| i <= l < j - 1 && trace[i].now <= trace[l].now && Newest(trace, steps, l, j - 1, id);
      assert Newest(trace, steps, l, j, id);
    }
  }

  lemma {:induction false} NeverEarlier(trace: seq<State>, steps: seq<Step>, i: nat, j: nat)
    requires Run(trace, steps) && i <= j < |trace|
    ensures trace[i].now <= trace[j].now
  {
    hide Apply, Enabled, KeepsAnswer;
    if i < j {
      NeverEarlier(trace, steps, i, j - 1);
      AnswerStep(trace[j - 1], steps[j - 1], "");
      ClockOf(trace[j - 1], steps[j - 1], trace[j]);
    }
  }

  lemma ClockOf(s: State, a: Step, t: State)
    requires KeepsAnswer(s, a, t, "")
    ensures s.now <= t.now
  {}

  // ---------- and it is what the waiter takes ----------

  /** A caught waiter gets its choice from the stored answer, or from a cancel it sees. */
  lemma CaughtTakes(s: State, i: nat, t: State, k: nat)
    requires Inv(s) && Moved(s, i, t) && Caught(s, k) && !HasChoice(s.waiters[k].pc) && HasChoice(t.waiters[k].pc)
    ensures i == k
    ensures var id, c := s.waiters[k].id, t.waiters[k].pc.choice;
        || (id in s.keys && c == s.keys[id].choice)
        || (c == CANCEL && s.waiters[k].pc == CancelCheck && s.now < s.cancelUntil)
  {}

  lemma CaughtTakesStep(s: State, a: Step, k: nat)
    requires Inv(s) && Enabled(s, a) && k < |s.waiters| && Caught(s, k) && !HasChoice(s.waiters[k].pc)
    requires k < |Apply(s, a).waiters| && HasChoice(Apply(s, a).waiters[k].pc)
    ensures a == WaiterStep(k)
    ensures var id, c := s.waiters[k].id, Apply(s, a).waiters[k].pc.choice;
        || (id in s.keys && c == s.keys[id].choice)
        || (c == CANCEL && s.waiters[k].pc == CancelCheck && s.now < s.cancelUntil)
  {
    hide Inv, Caught, StepWaiter, StepRunner, HasChoice;
    if a.WaiterStep? {
      WaiterMoves(s, a.i);
      CaughtTakes(s, a.i, StepWaiter(s, a.i), k);
    } else if a.RunnerStep? {
      RunnerTouches(s);
    } else {
      OthersKeepWaiters(s, a);
    }
  }

  /** Task `k` took the newest answer submitted for its question, at step `i` or later. */
  ghost predicate Takes(trace: seq<State>, steps: seq<Step>, i: nat, j: nat, k: nat)
    requires Run(trace, steps) && j < |trace| && k < |trace[j].waiters| && HasChoice(trace[j].waiters[k].pc)
  {
    exists l, m :: i <= l < m < j && steps[m] == WaiterStep(k)
      && Newest(trace, steps, l, m, trace[j].waiters[k].id) && trace[j].waiters[k].pc.choice == steps[l].choice
  }

  lemma OwnWaiter(s: State, k: nat)
    requires Inv(s) && k < |s.waiters| && !HasChoice(s.waiters[k].pc)
    ensures Unchosen(s, s.waiters[k].id)
  {
    forall w | w in s.waiters && w.id == s.waiters[k].id ensures !HasChoice(w.pc) {
      var m :| 0 <= m < |s.waiters| && s.waiters[m] == w;
      assert s.pushed[m].id == w.id && s.pushed[k].id == w.id;
    }
  }

  /** The user's click at step `i`, published by the time of `p` and not expired, while waiter `k` of the question still
      polls: whatever the waiter ends with is the newest choice submitted for this question, that click or a later one,
      or the cancel answer if it saw a live cancel; it ends before the clock moves on, and then the agent is given just
      that choice. */
  lemma {:induction false} AnswerArrives(trace: seq<State>, steps: seq<Step>, i: nat, p: nat, j: nat, k: nat)
    requires Run(trace, steps) && i < p <= j < |trace| && k < |trace[p].waiters|
    requires Sets(steps[i], trace[p].waiters[k].id) && trace[p].now < trace[i].now + KEY_TTL_MS
    requires trace[p].waiters[k].id !in trace[p].inflight && StillPolls(trace[p], trace[p].waiters[k])
    ensures Caught(trace[j], k) && trace[j].waiters[k].id == trace[p].waiters[k].id
    ensures var w := trace[j].waiters[k];
        && (HasChoice(w.pc) ==>
              Takes(trace, steps, i, j, k) || (w.pc.choice == CANCEL && Cancelled(trace, steps, j, k)))
        && (w.pc.Answered? ==> w.id in trace[j].given && trace[j].given[w.id] == [w.pc.choice])
        && (!w.pc.Answered? ==> trace[j].now == trace[p].now)
  {
    var id := trace[p].waiters[k].id;
    RunInv(trace, steps, p);
    OwnWaiter(trace[p], k);
    AnswerIsKept(trace, steps, i, p, id);
    PublishedIsCaught(trace, steps, p, k);
    NeverMissed(trace, steps, p, j, k);
    RunInv(trace, steps, j);
    if HasChoice(trace[j].waiters[k].pc) { TakesNewest(trace, steps, i, p, j, k); }
    if trace[j].waiters[k].pc.Answered? { GivenItsChoice(trace[j], k); }
  }

  lemma GivenItsChoice(s: State, k: nat)
    requires Inv(s) && k < |s.waiters| && s.waiters[k].pc.Answered?
    ensures s.waiters[k].id in s.given && s.given[s.waiters[k].id] == [s.waiters[k].pc.choice]
  {
    assert GivenOk(s, k);
  }

  lemma ChoiceStays(s: State, a: Step, k: nat)
    requires Enabled(s, a) && k < |s.waiters| && HasChoice(s.waiters[k].pc)
    ensures var t := Apply(s, a);
        && k < |t.waiters| && HasChoice(t.waiters[k].pc)
        && t.waiters[k].pc.choice == s.waiters[k].pc.choice && t.waiters[k].id == s.waiters[k].id
  {
    hide StepWaiter, StepRunner;
    if a.WaiterStep? {
      WaiterMoves(s, a.i);
    } else if a.RunnerStep? {
      RunnerTouches(s);
    } else {
      OthersKeepWaiters(s, a);
    }
  }

  lemma {:induction false} TakesNewest(trace: seq<State>, steps: seq<Step>, i: nat, p: nat, j: nat, k: nat)
    requires Run(trace, steps) && i < p <= j < |trace| && k < |trace[p].waiters| && k < |trace[j].waiters|
    requires Sets(steps[i], trace[p].waiters[k].id) && Caught(trace[p], k) && !HasChoice(trace[p].waiters[k].pc)
    requires HasChoice(trace[j].waiters[k].pc)
    ensures Takes(trace, steps, i, j, k) || (trace[j].waiters[k].pc.choice == CANCEL && Cancelled(trace, steps, j, k))
  {
    hide Apply, Enabled, Inv, Init, SetAt, Caught;
    var s := trace[j - 1];
    NeverMissed(trace, steps, p, j - 1, k);
    NeverMissed(trace, steps, p, j, k);
    RunInv(trace, steps, j - 1);
    CaughtExists(s, k);
    if HasChoice(s.waiters[k].pc) {
      TakesNewest(trace, steps, i, p, j - 1, k);
      ChoiceStays(s, steps[j - 1], k);
      if Takes(trace, steps, i, j - 1, k) {
        var l, m :| i <= l < m < j - 1 && steps[m] == WaiterStep(k)
          && Newest(trace, steps, l, m, s.waiters[k].id) && s.waiters[k].pc.choice == steps[l].choice;
        assert Takes(trace, steps, i, j, k);
      } else {
        var m :| 0 <= m < j - 1 && SawFlag(trace, steps, m, k);
        assert Cancelled(trace, steps, j, k);
      }
    } else {
      CaughtTakesStep(s, steps[j - 1], k);
      var id := s.waiters[k].id;
      if id in s.keys && trace[j].waiters[k].pc.choice == s.keys[id].choice {
        OwnWaiter(s, k);
        AnswerIsKept(trace, steps, i, j - 1, id);
        var l :| i <= l < j - 1 && Newest(trace, steps, l, j - 1, id);
        NewestChoice(trace, steps, l, j - 1, id);
        assert Takes(trace, steps, i, j, k);
      } else {
        FlagHasSource(trace, steps, j - 1);
        assert SawFlag(trace, steps, j - 1, k);
      }
    }
  }

  lemma CaughtExists(s: State, k: nat)
    requires Caught(s, k)
    ensures k < |s.waiters|
  {}

  lemma NewestChoice(trace: seq<State>, steps: seq<Step>, l: nat, j: nat, id: Id)
    requires Run(trace, steps) && l < j < |trace| && Newest(trace, steps, l, j, id)
    ensures Sets(steps[l], id) && id in trace[j].keys && trace[j].keys[id].choice == steps[l].choice
  {}

  // ---------- a cancel ends the wait ----------

  ghost predicate WakesSoon(s: State) {
    forall k :: 0 <= k < |s.waiters| && s.waiters[k].pc.Blocked? ==> s.waiters[k].pc.wake <= s.now + SLICE_MS
  }

  lemma WakesSoonStep(s: State, a: Step)
    requires WakesSoon(s) && Enabled(s, a)
    ensures WakesSoon(Apply(s, a))
  {
    hide StepWaiter, StepRunner;
    AnswerStep(s, a, "");
    if a.WaiterStep? {
      WaiterMoves(s, a.i);
    } else if a.RunnerStep? {
      RunnerTouches(s);
    } else {
      OthersKeepWaiters(s, a);
    }
  }

  lemma {:induction false} WakesSoonInv(trace: seq<State>, steps: seq<Step>, j: nat)
    requires Run(trace, steps) && j < |trace|
    ensures WakesSoon(trace[j])
  {
    hide Apply, Enabled;
    if j == 0 {
      NoWaiters(trace[0]);
    } else {
      hide WakesSoon;
      WakesSoonInv(trace, steps, j - 1);
      WakesSoonStep(trace[j - 1], steps[j - 1]);
    }
  }

  lemma NoWaiters(s: State)
    requires Init(s)
    ensures s.waiters == []
  {}

  /** The flag, set at time `t0`, is up for its lifetime at least; and the waiter has answered, or will look at the flag
      within `SLICE_MS`. */
  ghost predicate Ending(s: State, t0: nat, k: nat) {
    && t0 <= s.now && t0 + CANCEL_TTL_MS <= s.cancelUntil && k < |s.waiters|
    && var pc := s.waiters[k].pc;
    || pc.Answered?
    || (s.now <= t0 + SLICE_MS
        && (s.now == t0 || HasChoice(pc) || (pc.Blocked? && pc.wake <= t0 + SLICE_MS) || pc.Woken? || pc.CancelCheck?))
  }

  lemma EndingMoved(s: State, i: nat, t: State, t0: nat, k: nat)
    requires Ending(s, t0, k) && Moved(s, i, t)
    ensures Ending(t, t0, k)
  {}

  lemma EndingByOthers(s: State, a: Step, t0: nat, k: nat)
    requires Ending(s, t0, k) && WakesSoon(s) && Enabled(s, a) && a != ClearCancel && !a.WaiterStep? && !a.RunnerStep?
    ensures Ending(Apply(s, a), t0, k)
  {
    OthersKeepWaiters(s, a);
    if a.Tick? { assert s.waiters[k].pc.Answered? || s.waiters[k].pc.Blocked?; }
  }

  lemma EndingStep(s: State, a: Step, t0: nat, k: nat)
    requires Ending(s, t0, k) && WakesSoon(s) && Enabled(s, a) && a != ClearCancel
    ensures Ending(Apply(s, a), t0, k)
  {
    hide StepWaiter, StepRunner;
    if a.WaiterStep? {
      WaiterMoves(s, a.i);
      EndingMoved(s, a.i, StepWaiter(s, a.i), t0, k);
    } else if a.RunnerStep? {
      RunnerTouches(s);
    } else {
      EndingByOthers(s, a, t0, k);
    }
  }

  lemma EndingBegins(s: State, k: nat)
    requires k < |s.waiters|
    ensures Ending(Apply(s, RequestCancel), s.now, k)
  {}

  lemma {:induction false} EndingStays(trace: seq<State>, steps: seq<Step>, i: nat, j: nat, k: nat)
    requires Run(trace, steps) && i < j < |trace| && k < |trace[i].waiters| && steps[i] == RequestCancel
    requires forall q :: i < q < j ==> steps[q] != ClearCancel
    ensures Ending(trace[j], trace[i].now, k)
  {
    hide Apply, Enabled, Ending, WakesSoon, Init;
    if i + 1 == j {
      EndingBegins(trace[i], k);
    } else {
      EndingStays(trace, steps, i, j - 1, k);
      WakesSoonInv(trace, steps, j - 1);
      EndingStep(trace[j - 1], steps[j - 1], trace[i].now, k);
    }
  }

  /** A cancel that is not cleared ends every wait begun before it, and its agent gets an answer, within `SLICE_MS`: a
      choice submitted for its question, the cancel answer, or the timeout answer if that was due. */
  lemma CancelEndsWait(trace: seq<State>, steps: seq<Step>, i: nat, j: nat, k: nat)
    requires Run(trace, steps) && i < j < |trace| && k < |trace[i].waiters| && steps[i] == RequestCancel
    requires forall q :: i < q < j ==> steps[q] != ClearCancel
    requires trace[i].now + SLICE_MS < trace[j].now
    ensures k < |trace[j].waiters|
    ensures var w := trace[j].waiters[k];
        && w.pc.Answered? && w.id in trace[j].given && trace[j].given[w.id] == [w.pc.choice]
        && (|| (w.id, w.pc.choice) in trace[j].submitted
            || w.pc.choice == TIMEOUT
            || (w.pc.choice == CANCEL && Cancelled(trace, steps, j, k)))
  {
    EndingStays(trace, steps, i, j, k);
    RunInv(trace, steps, j);
    GivenItsChoice(trace[j], k);
    ChoiceHasSource(trace, steps, j, k);
  }

  /** The waiter is on its first way to the flag: the unread reply to SUBSCRIBE takes it there without a wait. */
  ghost predicate Heading(s: State, t0: nat, k: nat) {
    && t0 <= s.now && k < |s.waiters|
    && var w := s.waiters[k];
    || w.pc.Answered?
    || (s.now == t0 < s.cancelUntil
        && (|| w.pc.Started? || (w.pc.Subscribed? && w.ack) || w.pc.CancelCheck? || HasChoice(w.pc)
            || ((w.pc.Head? || w.pc.Blocked?) && w.ack && t0 < w.deadline)))
  }

  lemma HeadingMoved(s: State, i: nat, t: State, t0: nat, k: nat)
    requires Heading(s, t0, k) && Moved(s, i, t)
    ensures Heading(t, t0, k)
  {}

  lemma HeadingByOthers(s: State, a: Step, t0: nat, k: nat)
    requires Heading(s, t0, k) && Enabled(s, a) && a != ClearCancel && !a.WaiterStep? && !a.RunnerStep?
    ensures Heading(Apply(s, a), t0, k)
  {
    if a.Tick? { assert s.waiters[k].pc.Answered?; }
  }

  lemma HeadingStep(s: State, a: Step, t0: nat, k: nat)
    requires Heading(s, t0, k) && Enabled(s, a) && a != ClearCancel
    ensures Heading(Apply(s, a), t0, k)
  {
    hide StepWaiter, StepRunner;
    if a.WaiterStep? {
      WaiterMoves(s, a.i);
      HeadingMoved(s, a.i, StepWaiter(s, a.i), t0, k);
    } else if a.RunnerStep? {
      RunnerTouches(s);
    } else {
      HeadingByOthers(s, a, t0, k);
    }
  }

  lemma {:induction false} HeadingStays(trace: seq<State>, steps: seq<Step>, i: nat, j: nat, k: nat)
    requires Run(trace, steps) && i <= j < |trace| && Heading(trace[i], trace[i].now, k)
    requires forall q :: i <= q < j ==> steps[q] != ClearCancel
    ensures Heading(trace[j], trace[i].now, k)
  {
    hide Apply, Enabled, Heading, Init;
    if i < j {
      HeadingStays(trace, steps, i, j - 1, k);
      HeadingStep(trace[j - 1], steps[j - 1], trace[i].now, k);
    }
  }

  /** A waiter that starts while a cancel is live does not wait at all: it has answered before the clock moves. */
  lemma CancelForestalls(trace: seq<State>, steps: seq<Step>, i: nat, j: nat, k: nat)
    requires Run(trace, steps) && i <= j < |trace| && k < |trace[i].waiters| && trace[i].waiters[k].pc == Started
    requires trace[i].now < trace[i].cancelUntil && forall q :: i <= q < j ==> steps[q] != ClearCancel
    requires trace[i].now < trace[j].now
    ensures k < |trace[j].waiters|
    ensures var w := trace[j].waiters[k];
        w.pc.Answered? && w.id in trace[j].given && trace[j].given[w.id] == [w.pc.choice]
  {
    HeadingStays(trace, steps, i, j, k);
    RunInv(trace, steps, j);
    GivenItsChoice(trace[j], k);
  }

  // ---------- what the agent finds ----------

  lemma AnswerListStep(s: State, a: Step, id: Id)
    requires Enabled(s, a) && id in s.resp && id in s.given && Once(s) && Fifo(s)
    requires a != Await(id)
    ensures id in Apply(s, a).resp && Apply(s, a).resp[id] == s.resp[id] && id in Apply(s, a).given
  {
    hide StepWaiter, StepRunner;
    if a.WaiterStep? {
      WaiterMoves(s, a.i);
      assert GivenOk(s, a.i);
    } else if a.RunnerStep? {
      RunnerKeepsLists(s);
    }
  }

  lemma RunnerKeepsLists(s: State)
    ensures StepRunner(s).resp == s.resp && StepRunner(s).given == s.given && StepRunner(s).agents == s.agents
  {}

  lemma {:induction false} AnswerListStays(trace: seq<State>, steps: seq<Step>, i: nat, j: nat, id: Id)
    requires Run(trace, steps) && i <= j < |trace| && id in trace[i].resp && id in trace[i].given
    requires forall q :: i <= q < j ==> steps[q] != Await(id)
    ensures id in trace[j].resp && trace[j].resp[id] == trace[i].resp[id] && id in trace[j].given
  {
    hide Apply, Enabled, Inv;
    if i < j {
      AnswerListStays(trace, steps, i, j - 1, id);
      RunInv(trace, steps, j - 1);
      Parts(trace[j - 1]);
      AnswerListStep(trace[j - 1], steps[j - 1], id);
    }
  }

  lemma Parts(s: State)
    requires Inv(s)
    ensures Once(s) && Fifo(s)
  {}

  /** An answer pushed at step `i` before its agent waits lies there for `RESP_TTL_MS`: an agent that begins to wait at
      step `j` gets just that answer if it comes in time, and otherwise waits in vain. */
  lemma AnswerWaitsForAgent(trace: seq<State>, steps: seq<Step>, i: nat, j: nat, k: nat)
    requires Run(trace, steps) && i < j < |steps| && k < |trace[i].waiters|
    requires steps[i] == WaiterStep(k) && trace[i].waiters[k].pc.Resolved?
    requires trace[i].waiters[k].id in trace[i].agents && trace[i].agents[trace[i].waiters[k].id] == Asked
    requires steps[j] == Await(trace[i].waiters[k].id)
    requires forall q :: i < q < j ==> steps[q] != steps[j]
    ensures var id, c := trace[i].waiters[k].id, trace[i].waiters[k].pc.choice;
        && id in trace[j + 1].agents
        && if trace[j].now < trace[i].now + RESP_TTL_MS
           then trace[j + 1].agents[id] == Got(c) && id !in trace[j + 1].resp
           else trace[j + 1].agents[id] == Waiting(trace[j].now + BLPOP_MS, true)
  {
    var id, c := trace[i].waiters[k].id, trace[i].waiters[k].pc.choice;
    WaiterMoves(trace[i], k);
    assert id in trace[i + 1].resp && trace[i + 1].resp[id] == RespList(c, trace[i].now + RESP_TTL_MS);
    AnswerListStays(trace, steps, i + 1, j, id);
  }

  lemma AgentStep(s: State, a: Step, id: Id)
    requires Enabled(s, a) && id in s.agents && (s.agents[id].Got? || s.agents[id].GaveUp?)
    ensures id in Apply(s, a).agents && Apply(s, a).agents[id] == s.agents[id]
  {
    hide StepWaiter, StepRunner;
    if a.WaiterStep? { WaiterMoves(s, a.i); } else if a.RunnerStep? { RunnerKeepsLists(s); }
  }

  /** An agent that has its answer, or has given up, is done: an answer that comes later never reaches it. */
  lemma {:induction false} AgentIsDone(trace: seq<State>, steps: seq<Step>, i: nat, j: nat, id: Id)
    requires Run(trace, steps) && i < j < |trace|
    requires steps[i] == GiveUp(id) || (id in trace[i].agents && trace[i].agents[id].Got?)
    ensures id in trace[j].agents
    ensures if steps[i] == GiveUp(id) then trace[j].agents[id].GaveUp? else trace[j].agents[id] == trace[i].agents[id]
  {
    hide Apply, Enabled, Init;
    if i + 1 == j {
      if steps[i] == GiveUp(id) { GivesUp(trace[i], id); } else { AgentStep(trace[i], steps[i], id); }
    } else {
      AgentIsDone(trace, steps, i, j - 1, id);
      AgentStep(trace[j - 1], steps[j - 1], id);
    }
  }

  lemma GivesUp(s: State, id: Id)
    requires Enabled(s, GiveUp(id))
    ensures id in Apply(s, GiveUp(id)).agents && Apply(s, GiveUp(id)).agents[id].GaveUp?
  {}

  /** A request counts as pushed when its agent pushed it, behind those queued then. */
  lemma {:induction false} PushedWhenAsked(trace: seq<State>, steps: seq<Step>, j: nat, k: nat)
    requires Run(trace, steps) && j < |trace| && k < |trace[j].pushed|
    ensures exists m :: 0 <= m < j && steps[m] == Push(trace[j].pushed[k].id)
              && trace[j].pushed[k] == Pushed(trace[j].pushed[k].id, trace[m].now, |trace[m].queue|)
  {
    var s, a := trace[j - 1], steps[j - 1];
    PushedStep(s, a);
    if k < |s.pushed| {
      PushedWhenAsked(trace, steps, j - 1, k);
    } else {
      assert steps[j - 1] == Push(trace[j].pushed[k].id);
    }
  }

  lemma PushedStep(s: State, a: Step)
    requires Enabled(s, a)
    ensures Apply(s, a).pushed == if a.Push? then s.pushed + [Pushed(a.id, s.now, |s.queue|)] else s.pushed
  {
    hide StepWaiter, StepRunner;
    if a.WaiterStep? { WaiterMoves(s, a.i); } else if a.RunnerStep? { RunnerTouches(s); }
  }
}
