/** The runner's singleton lock: SET NX EX to acquire, GET then EXPIRE to refresh, compare-and-delete to release. */
module RunnerLock {
  import opened Wrappers

  const TTL_MS := 30_000  // LOCK_TTL

  datatype Pc =
    | Leading
    | Checked     // refresh: the GET returned our token, EXPIRE is next
    | Draining    // shutting down: the heartbeat is cancelled, tasks still finish
    | Gone        // never got the lock, released it, or crashed

  datatype Runner = Runner(token: nat, pc: Pc, refreshed: nat)

  datatype Lock = Lock(token: nat, expires: nat)

  /** Runner `i` uses token `i`: tokens are fresh. */
  datatype State = State(now: nat, lock: Option<Lock>, runners: seq<Runner>)

  ghost predicate Init(s: State) {
    s.lock == None && s.runners == []
  }

  predicate LiveLock(s: State) {
    s.lock.Some? && s.now < s.lock.value.expires
  }

  predicate InCharge(r: Runner) {
    !r.pc.Gone?
  }

  datatype Step =
    | Acquire                // a new runner starts and tries the lock
    | RefreshGet(r: nat)
    | RefreshExpire(r: nat)
    | Drain(r: nat)
    | Release(r: nat)
    | Crash(r: nat)
    | Tick(d: nat)

  predicate Enabled(s: State, a: Step) {
    match a
    case Acquire => true
    case RefreshGet(r) => r < |s.runners| && s.runners[r].pc.Leading?
    case RefreshExpire(r) => r < |s.runners| && s.runners[r].pc.Checked?
    case Drain(r) => r < |s.runners| && (s.runners[r].pc.Leading? || s.runners[r].pc.Checked?)
    case Release(r) => r < |s.runners| && s.runners[r].pc.Draining?
    case Crash(r) => r < |s.runners| && InCharge(s.runners[r])
    case Tick(_) => true
  }

  function Next(s: State, a: Step): State
    requires Enabled(s, a)
  {
    match a
    case Acquire =>
      var token := |s.runners|;
      if LiveLock(s) then s.(runners := s.runners + [Runner(token, Gone, 0)])
      else s.(lock := Some(Lock(token, s.now + TTL_MS)), runners := s.runners + [Runner(token, Leading, s.now)])
    case RefreshGet(r) =>
      if LiveLock(s) && s.lock.value.token == s.runners[r].token
      then s.(runners := s.runners[r := s.runners[r].(pc := Checked)]) else s
    case RefreshExpire(r) =>
      var rs := s.runners[r := s.runners[r].(pc := Leading, refreshed := s.now)];
      if LiveLock(s) then s.(lock := Some(s.lock.value.(expires := s.now + TTL_MS)), runners := rs)
      else s.(runners := rs)
    case Drain(r) => s.(runners := s.runners[r := s.runners[r].(pc := Draining)])
    case Release(r) =>
      var rs := s.runners[r := s.runners[r].(pc := Gone)];
      if LiveLock(s) && s.lock.value.token == s.runners[r].token then s.(lock := None, runners := rs)
      else s.(runners := rs)
    case Crash(r) => s.(runners := s.runners[r := s.runners[r].(pc := Gone)])
    case Tick(d) => s.(now := s.now + d)
  }

  ghost predicate Run(trace: seq<State>, steps: seq<Step>) {
    && |trace| == |steps| + 1
    && Init(trace[0])
    && forall i :: 0 <= i < |steps| ==> Enabled(trace[i], steps[i]) && trace[i + 1] == Next(trace[i], steps[i])
  }

  /** Every runner past `_acquire_lock` refreshed within the last `TTL_MS`. */
  ghost predicate Timely(s: State) {
    forall i :: 0 <= i < |s.runners| && InCharge(s.runners[i]) ==> s.now < s.runners[i].refreshed + TTL_MS
  }

  ghost predicate Tokens(s: State) {
    && (forall i :: 0 <= i < |s.runners| ==> s.runners[i].token == i)
    && (s.lock.Some? ==> s.lock.value.token < |s.runners| && s.lock.value.expires <= s.now + TTL_MS)
  }

  lemma {:induction false} TokensInv(trace: seq<State>, steps: seq<Step>, i: nat)
    requires Run(trace, steps) && i < |trace|
    ensures Tokens(trace[i])
  {
    if i > 0 { TokensInv(trace, steps, i - 1); }
  }

  /** Whoever is in charge holds the lock, for at least `TTL_MS` from its last refresh. */
  ghost predicate Holds(s: State) {
    forall i :: 0 <= i < |s.runners| && InCharge(s.runners[i]) ==>
      && s.lock.Some? && s.lock.value.token == i
      && s.runners[i].refreshed + TTL_MS <= s.lock.value.expires
  }

  lemma {:induction false} RunInv(trace: seq<State>, steps: seq<Step>, i: nat)
    requires Run(trace, steps) && i < |trace| && forall k :: 0 <= k < i ==> Timely(trace[k])
    ensures Tokens(trace[i]) && Holds(trace[i])
  {
    if i > 0 {
      RunInv(trace, steps, i - 1);
      HoldsStep(trace[i - 1], steps[i - 1]);
    }
  }

  lemma HoldsStep(s: State, a: Step)
    requires Tokens(s) && Holds(s) && Timely(s) && Enabled(s, a)
    ensures Tokens(Next(s, a)) && Holds(Next(s, a))
  {
    assert forall i :: 0 <= i < |s.runners| && InCharge(s.runners[i]) ==> LiveLock(s);
  }

  /** As long as every refresh lands in time, at most one runner is past `_acquire_lock`. */
  lemma SingleLeader(trace: seq<State>, steps: seq<Step>, i: nat, p: nat, q: nat)
    requires Run(trace, steps) && i < |trace| && forall k :: 0 <= k < i ==> Timely(trace[k])
    requires p < |trace[i].runners| && q < |trace[i].runners|
    requires InCharge(trace[i].runners[p]) && InCharge(trace[i].runners[q])
    ensures p == q
  {
    RunInv(trace, steps, i);
  }

  /** At any timing: a live lock is only ever taken away by its own runner's release, or by the clock; no other step
      shortens it.  So a late refresh, or a release by a runner that lost the lock, leaves a successor's lock alone. */
  lemma LockIsSafe(s: State, a: Step)
    requires Tokens(s) && LiveLock(s) && Enabled(s, a)
    requires a.Release? ==> s.runners[a.r].token != s.lock.value.token
    requires a.Tick? ==> s.now + a.d < s.lock.value.expires
    ensures var t := Next(s, a);
        LiveLock(t) && t.lock.value.token == s.lock.value.token && s.lock.value.expires <= t.lock.value.expires
  {}

  /** A live lock stays, under the same token, through any number of steps other than its own runner's release, until
      its expiry at the earliest. */
  lemma {:induction false} SuccessorKeepsLock(trace: seq<State>, steps: seq<Step>, i: nat, j: nat)
    requires Run(trace, steps) && i <= j < |trace| && LiveLock(trace[i])
    requires forall k :: i <= k < j && steps[k].Release? ==>
        steps[k].r < |trace[k].runners| && trace[k].runners[steps[k].r].token != trace[i].lock.value.token
    requires trace[j].now < trace[i].lock.value.expires
    ensures LiveLock(trace[j]) && trace[j].lock.value.token == trace[i].lock.value.token
    ensures trace[i].lock.value.expires <= trace[j].lock.value.expires
  {
    if i < j {
      ClockOnlyAdvances(trace[j - 1], steps[j - 1]);
      SuccessorKeepsLock(trace, steps, i, j - 1);
      TokensInv(trace, steps, j - 1);
      LockIsSafe(trace[j - 1], steps[j - 1]);
    }
  }

  lemma ClockOnlyAdvances(s: State, a: Step)
    requires Enabled(s, a)
    ensures s.now <= Next(s, a).now
  {}

  // ---------- handing over ----------

  /** A runner that starts gets the lock, under its own token and for `TTL_MS`, exactly if none is live. */
  lemma AcquireIff(s: State)
    requires Tokens(s)
    ensures var t, me := Next(s, Acquire), |s.runners|;
        && |t.runners| == me + 1 && t.runners[..me] == s.runners
        && (InCharge(t.runners[me]) <==> !LiveLock(s))
        && (!LiveLock(s) ==> LiveLock(t) && t.lock.value == Lock(me, s.now + TTL_MS) && t.runners[me].pc == Leading)
        && (LiveLock(s) ==> t.lock == s.lock)
  {}

  /** Only its own release or crash takes a runner out of charge, and either does. */
  lemma ChargeStep(s: State, a: Step, r: nat)
    requires Enabled(s, a) && r < |s.runners|
    ensures r < |Next(s, a).runners|
    ensures InCharge(Next(s, a).runners[r]) <==> InCharge(s.runners[r]) && a != Release(r) && a != Crash(r)
  {}

  /** A refresh of a live lock gives it `TTL_MS` from now on, in two steps that follow each other; that of a runner
      whose lock it is not ends with the first. */
  lemma RefreshProlongs(s: State, r: nat)
    requires Tokens(s) && r < |s.runners| && LiveLock(s)
    ensures Enabled(s, RefreshGet(r)) && s.lock.value.token == r ==>
        var t := Next(s, RefreshGet(r)); t.lock == s.lock && t.now == s.now && Enabled(t, RefreshExpire(r))
    ensures Enabled(s, RefreshGet(r)) && s.lock.value.token != r ==> Next(s, RefreshGet(r)) == s
    ensures Enabled(s, RefreshExpire(r)) ==>
        var t := Next(s, RefreshExpire(r));
        && LiveLock(t) && t.lock.value == Lock(s.lock.value.token, s.now + TTL_MS)
        && t.runners[r].pc == Leading && t.runners[r].refreshed == s.now
  {}

  /** A release deletes the releaser's lock. */
  lemma ReleaseFrees(s: State, r: nat)
    requires Tokens(s) && Enabled(s, Release(r)) && LiveLock(s) && s.lock.value.token == r
    ensures !LiveLock(Next(s, Release(r)))
  {}

  /** A leader can always refresh, and a runner in charge can always hand over: it drains, unless it does already, and
      releases, and then neither is in charge nor holds the lock. */
  lemma CanHandOver(s: State, r: nat)
    requires Tokens(s) && r < |s.runners| && InCharge(s.runners[r])
    ensures s.runners[r].pc == Leading ==> Enabled(s, RefreshGet(r))
    ensures s.runners[r].pc != Draining ==> Enabled(s, Drain(r))
    ensures var d := if s.runners[r].pc == Draining then s else Next(s, Drain(r));
        && Enabled(d, Release(r))
        && var t := Next(d, Release(r));
        !InCharge(t.runners[r]) && (LiveLock(t) ==> t.lock.value.token != r)
  {}

  lemma StaysFree(s: State, a: Step)
    requires !LiveLock(s) && Enabled(s, a) && a != Acquire
    ensures !LiveLock(Next(s, a))
  {}

  /** After the holder's release no lock is live, whatever happens, until a runner acquires; and that one leads at once
      under its own token: a restart never waits for the lock to lapse. */
  lemma {:induction false} RestartLeadsAtOnce(trace: seq<State>, steps: seq<Step>, i: nat, j: nat)
    requires Run(trace, steps) && i < j < |trace|
    requires steps[i].Release? && LiveLock(trace[i]) && trace[i].lock.value.token == steps[i].r
    requires forall k :: i < k < j ==> steps[k] != Acquire
    ensures !LiveLock(trace[j])
    ensures j < |steps| && steps[j] == Acquire ==>
        var t, me := trace[j + 1], |trace[j].runners|;
        |t.runners| == me + 1 && t.runners[me].pc == Leading && LiveLock(t) && t.lock.value.token == me
  {
    TokensInv(trace, steps, j);
    if i + 1 == j {
      TokensInv(trace, steps, i);
      ReleaseFrees(trace[i], steps[i].r);
    } else {
      RestartLeadsAtOnce(trace, steps, i, j - 1);
      StaysFree(trace[j - 1], steps[j - 1]);
    }
    if j < |steps| && steps[j] == Acquire { AcquireIff(trace[j]); }
  }

  /** No step but an acquisition or a refresh puts the expiry off. */
  ghost predicate LapsesBy(s: State, end: nat) {
    s.lock.Some? ==> s.lock.value.expires <= end
  }

  lemma {:induction false} NothingPutsOff(trace: seq<State>, steps: seq<Step>, i: nat, j: nat)
    requires Run(trace, steps) && i <= j < |trace|
    requires forall k :: i <= k < j ==> steps[k] != Acquire && !steps[k].RefreshExpire?
    ensures LapsesBy(trace[j], trace[i].now + TTL_MS)
  {
    if i == j { TokensInv(trace, steps, i); } else { NothingPutsOff(trace, steps, i, j - 1); }
  }

  /** Without a refresh a lock is gone after `TTL_MS`, and the next runner that starts leads: a crashed leader blocks
      its successor no longer than that. */
  lemma CrashedLeaderIsReplaced(trace: seq<State>, steps: seq<Step>, i: nat, j: nat)
    requires Run(trace, steps) && i <= j < |steps| && trace[i].now + TTL_MS <= trace[j].now
    requires forall k :: i <= k < j ==> steps[k] != Acquire && !steps[k].RefreshExpire?
    requires steps[j] == Acquire
    ensures var t, me := trace[j + 1], |trace[j].runners|;
        |t.runners| == me + 1 && t.runners[me].pc == Leading && LiveLock(t) && t.lock.value.token == me
  {
    NothingPutsOff(trace, steps, i, j);
    TokensInv(trace, steps, j);
    AcquireIff(trace[j]);
  }

  // ---------- the timing is needed ----------

  ghost predicate Reachable(t: State) {
    exists trace, steps :: Run(trace, steps) && |trace| > 0 && trace[|trace| - 1] == t
  }

  lemma Extend(s: State, a: Step)
    requires Reachable(s) && Enabled(s, a)
    ensures Reachable(Next(s, a))
  {
    var trace, steps :| Run(trace, steps) && |trace| > 0 && trace[|trace| - 1] == s;
    var trace', steps' := trace + [Next(s, a)], steps + [a];
    forall i | 0 <= i < |steps'| ensures Enabled(trace'[i], steps'[i]) && trace'[i + 1] == Next(trace'[i], steps'[i]) {
      if i < |steps| { assert trace'[i] == trace[i] && trace'[i + 1] == trace[i + 1] && steps'[i] == steps[i]; }
    }
    assert Run(trace', steps');
  }

  /** A runner that shuts down stops refreshing but keeps draining its tasks: after `TTL_MS` a second runner leads
      beside it. */
  lemma DrainingLeaderIsJoined() returns (s: State)
    ensures Reachable(s) && |s.runners| == 2
    ensures s.runners[0].pc.Draining? && s.runners[1].pc.Leading?
  {
    s := State(0, None, []);
    assert Run([s], []);
    Extend(s, Acquire);       s := Next(s, Acquire);
    Extend(s, Drain(0));      s := Next(s, Drain(0));
    Extend(s, Tick(TTL_MS));  s := Next(s, Tick(TTL_MS));
    Extend(s, Acquire);       s := Next(s, Acquire);
  }

  ghost predicate AtMostOne(s: State) {
    forall p, q :: 0 <= p < q < |s.runners| ==> !InCharge(s.runners[p]) || !InCharge(s.runners[q])
  }

  /** The step takes a lapsed lock while a runner is still past `_acquire_lock`. */
  predicate Joins(s: State, a: Step) {
    a.Acquire? && !LiveLock(s) && exists p :: 0 <= p < |s.runners| && InCharge(s.runners[p])
  }

  lemma JoinsIff(s: State, a: Step)
    requires AtMostOne(s) && Enabled(s, a)
    ensures AtMostOne(Next(s, a)) <==> !Joins(s, a)
  {
    var t := Next(s, a);
    if Joins(s, a) {
      var p :| 0 <= p < |s.runners| && InCharge(s.runners[p]);
      assert t.runners[p] == s.runners[p] && InCharge(t.runners[|s.runners|]);
    }
  }

  /** There is a single leader throughout, at any timing, if and only if nobody acquired a lapsed lock beside a runner
      still in charge. */
  lemma {:induction false} SingleLeaderIff(trace: seq<State>, steps: seq<Step>, i: nat)
    requires Run(trace, steps) && i < |trace|
    ensures (forall k :: 0 <= k <= i ==> AtMostOne(trace[k])) <==>
            (forall k :: 0 <= k < i ==> !Joins(trace[k], steps[k]))
  {
    if i > 0 {
      hide AtMostOne, Joins, Next, Enabled;
      var single := forall k :: 0 <= k <= i - 1 ==> AtMostOne(trace[k]);
      var clean := forall k :: 0 <= k < i - 1 ==> !Joins(trace[k], steps[k]);
      SingleLeaderIff(trace, steps, i - 1);
      assert (forall k :: 0 <= k <= i ==> AtMostOne(trace[k])) <==> single && AtMostOne(trace[i]);
      assert (forall k :: 0 <= k < i ==> !Joins(trace[k], steps[k])) <==> clean && !Joins(trace[i - 1], steps[i - 1]);
      if single { JoinsIff(trace[i - 1], steps[i - 1]); }
    }
  }

  /** Timely refreshes exclude that. */
  lemma TimelyNeverJoins(trace: seq<State>, steps: seq<Step>, i: nat)
    requires Run(trace, steps) && i < |steps| && forall k :: 0 <= k <= i ==> Timely(trace[k])
    ensures !Joins(trace[i], steps[i])
  {
    RunInv(trace, steps, i);
  }
}
