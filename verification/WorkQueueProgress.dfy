/** What can still become of a payload: nothing that is left anywhere is stuck. */
module WorkQueueProgress {
  import opened WorkQueue

  /** The steps lead from `s` to `t`, without a crash and without taking an entry that is still held. */
  ghost predicate Leads(s: State, steps: seq<Step>, t: State)
    decreases |steps|
  {
    if steps == [] then s == t
    else
      var a := steps[0];
      Enabled(s, a) && !a.Crash? && !Steals(s, a) && Leads(Next(s, a), steps[1..], t)
  }

  lemma Then(s: State, a: Step, steps: seq<Step>, t: State)
    requires Enabled(s, a) && !a.Crash? && !Steals(s, a) && Leads(Next(s, a), steps, t)
    ensures Leads(s, [a] + steps, t)
  {
    assert ([a] + steps)[1..] == steps;
  }

  /** Pending and held entries were delivered. */
  ghost predicate Delivered(s: State) {
    && s.delivered <= |s.stream|
    && (forall eid :: eid in s.pel ==> eid < s.delivered)
    && (forall h :: 0 <= h < |s.handlers| && s.handlers[h].pc.Holding? ==> s.handlers[h].pc.eid < s.delivered)
  }

  lemma DeliveredStep(s: State, a: Step)
    requires Delivered(s) && Enabled(s, a)
    ensures Delivered(Next(s, a))
  {}

  lemma {:induction false} DeliveredInv(trace: seq<State>, steps: seq<Step>, i: nat)
    requires Run(trace, steps) && i < |trace|
    ensures Delivered(trace[i])
  {
    if i > 0 {
      hide Next, Enabled, Delivered;
      DeliveredInv(trace, steps, i - 1);
      DeliveredStep(trace[i - 1], steps[i - 1]);
    }
  }

  // ---------- from each place to the end ----------

  lemma FinishRunning(s: State, h: nat) returns (steps: seq<Step>, t: State)
    requires h < |s.handlers| && s.handlers[h].pc.Running?
    ensures Leads(s, steps, t) && s.handlers[h].pc.payload in t.finished
  {
    t := Next(s, Finish(h));
    assert t.finished[|s.finished|] == s.handlers[h].pc.payload;
    Then(s, Finish(h), [], t);
    steps := [Finish(h)] + [];
  }

  lemma FinishAcked(s: State, h: nat) returns (steps: seq<Step>, t: State)
    requires Delivered(s) && h < |s.handlers| && s.handlers[h].pc.Acked? && !s.handlers[h].reclaim
    ensures Leads(s, steps, t) && s.handlers[h].pc.payload in t.finished
  {
    var s1 := Next(s, Go(h));
    steps, t := FinishRunning(s1, h);
    Then(s, Go(h), steps, t);
    steps := [Go(h)] + steps;
  }

  lemma FinishRead(s: State, h: nat) returns (steps: seq<Step>, t: State)
    requires Delivered(s) && h < |s.handlers| && s.handlers[h].pc.Holding? && !s.handlers[h].reclaim
    ensures Leads(s, steps, t) && s.stream[s.handlers[h].pc.eid] in t.finished
  {
    var s1 := Next(s, Ack(h));
    DeliveredStep(s, Ack(h));
    steps, t := FinishAcked(s1, h);
    Then(s, Ack(h), steps, t);
    steps := [Ack(h)] + steps;
  }

  lemma {:induction false} FinishUnread(s: State, k: nat) returns (steps: seq<Step>, t: State)
    requires Delivered(s) && s.delivered <= k < |s.stream|
    ensures Leads(s, steps, t) && s.stream[k] in t.finished
    decreases k - s.delivered
  {
    var s1 := Next(s, Read(0));
    DeliveredStep(s, Read(0));
    if k == s.delivered {
      steps, t := FinishRead(s1, |s.handlers|);
    } else {
      steps, t := FinishUnread(s1, k);
    }
    Then(s, Read(0), steps, t);
    steps := [Read(0)] + steps;
  }

  /** A reclaimed payload goes back to the end of the stream, and waits for all before it to be read. */
  lemma FinishReclaimed(s: State, h: nat) returns (steps: seq<Step>, t: State)
    requires Delivered(s) && h < |s.handlers| && s.handlers[h].pc.Acked? && s.handlers[h].reclaim
    ensures Leads(s, steps, t) && s.handlers[h].pc.payload in t.finished
  {
    var s1 := Next(s, Go(h));
    DeliveredStep(s, Go(h));
    assert s1.stream[|s.stream|] == s.handlers[h].pc.payload;
    steps, t := FinishUnread(s1, |s.stream|);
    Then(s, Go(h), steps, t);
    steps := [Go(h)] + steps;
  }

  lemma FinishHeld(s: State, h: nat) returns (steps: seq<Step>, t: State)
    requires Delivered(s) && h < |s.handlers| && s.handlers[h].pc.Holding?
    ensures Leads(s, steps, t) && s.stream[s.handlers[h].pc.eid] in t.finished
  {
    if s.handlers[h].reclaim {
      var s1 := Next(s, Ack(h));
      DeliveredStep(s, Ack(h));
      steps, t := FinishReclaimed(s1, h);
      Then(s, Ack(h), steps, t);
      steps := [Ack(h)] + steps;
    } else {
      steps, t := FinishRead(s, h);
    }
  }

  /** A pending entry nobody holds any more, its runner having died, is claimed once it is stale. */
  lemma FinishAbandoned(s: State, eid: nat) returns (steps: seq<Step>, t: State)
    requires Delivered(s) && eid in s.pel
    requires forall h :: 0 <= h < |s.handlers| && s.handlers[h].pc.Holding? ==> s.handlers[h].pc.eid != eid
    ensures Leads(s, steps, t) && s.stream[eid] in t.finished
  {
    var wait := Tick(STALE_MS + s.pel[eid]);
    var s1 := Next(s, wait);
    var s2 := Next(s1, Claim(0, eid));
    DeliveredStep(s, wait);
    DeliveredStep(s1, Claim(0, eid));
    steps, t := FinishHeld(s2, |s.handlers|);
    Then(s1, Claim(0, eid), steps, t);
    Then(s, wait, [Claim(0, eid)] + steps, t);
    steps := [wait] + ([Claim(0, eid)] + steps);
  }

  lemma FinishPending(s: State, eid: nat) returns (steps: seq<Step>, t: State)
    requires Delivered(s) && eid in s.pel
    ensures Leads(s, steps, t) && s.stream[eid] in t.finished
  {
    if h :| 0 <= h < |s.handlers| && s.handlers[h].pc.Holding? && s.handlers[h].pc.eid == eid {
      steps, t := FinishHeld(s, h);
    } else {
      steps, t := FinishAbandoned(s, eid);
    }
  }

  // ---------- where it is ----------

  lemma {:induction false} Counted(xs: seq<Payload>, p: Payload)
    requires Count(xs, p) > 0
    ensures p in xs
  {
    if xs[|xs| - 1] != p { Counted(xs[..|xs| - 1], p); }
  }

  lemma {:induction false} PendingWhere(stream: seq<Payload>, pel: map<nat, nat>, n: nat, p: Payload) returns (eid: nat)
    requires n <= |stream| && Pending(stream, pel, n, p) > 0
    ensures eid < n && eid in pel && stream[eid] == p
  {
    if n - 1 in pel && stream[n - 1] == p { eid := n - 1; } else { eid := PendingWhere(stream, pel, n - 1, p); }
  }

  lemma {:induction false} HeldWhere(hs: seq<Handler>, running: bool, p: Payload) returns (h: nat)
    requires Held(hs, running, p) > 0
    ensures h < |hs| && (if running then hs[h].pc.Running? else hs[h].pc.Acked?) && hs[h].pc.payload == p
  {
    var n := |hs| - 1;
    if Has(hs[n].pc, running, p) > 0 { h := n; } else { h := HeldWhere(hs[..n], running, p); }
  }

  /** After any run, through crashes and at any timing, a payload that is still unread, pending, in a runner's hands or
      finished can be brought to its end by steps of the runners alone. */
  lemma NothingIsStuck(trace: seq<State>, steps: seq<Step>, i: nat, p: Payload) returns (more: seq<Step>, t: State)
    requires Run(trace, steps) && i < |trace|
    requires trace[i].delivered <= |trace[i].stream| ==> Alive(trace[i], p) >= 1
    ensures trace[i].delivered <= |trace[i].stream|
    ensures Leads(trace[i], more, t) && p in t.finished
  {
    hide Run, Leads, Delivered, Held, Pending, Count;
    var s := trace[i];
    DeliveredInv(trace, steps, i);
    InBounds(s);
    if Count(s.finished, p) > 0 {
      Counted(s.finished, p);
      more, t := [], s;
      Stays(s);
    } else if Held(s.handlers, true, p) > 0 {
      var h := HeldWhere(s.handlers, true, p);
      more, t := FinishRunning(s, h);
    } else if Held(s.handlers, false, p) > 0 {
      var h := HeldWhere(s.handlers, false, p);
      if s.handlers[h].reclaim { more, t := FinishReclaimed(s, h); } else { more, t := FinishAcked(s, h); }
    } else if Pending(s.stream, s.pel, s.delivered, p) > 0 {
      var eid := PendingWhere(s.stream, s.pel, s.delivered, p);
      more, t := FinishPending(s, eid);
    } else {
      Counted(s.stream[s.delivered..], p);
      var k :| 0 <= k < |s.stream[s.delivered..]| && s.stream[s.delivered..][k] == p;
      more, t := FinishUnread(s, s.delivered + k);
    }
  }

  lemma Stays(s: State)
    ensures Leads(s, [], s)
  {}

  lemma InBounds(s: State)
    requires Delivered(s)
    ensures s.delivered <= |s.stream|
  {}

  // ---------- the history is what happened ----------

  function Enqueues(steps: seq<Step>): seq<Payload> {
    if steps == [] then []
    else
      var front, a := Enqueues(steps[..|steps| - 1]), steps[|steps| - 1];
      if a.Enqueue? then front + [a.payload] else front
  }

  /** The payloads counted as enqueued are those that were, in order. */
  lemma {:induction false} EnqueuedExactly(trace: seq<State>, steps: seq<Step>, i: nat)
    requires Run(trace, steps) && i < |trace|
    ensures trace[i].enqueued == Enqueues(steps[..i])
  {
    if i > 0 {
      EnqueuedExactly(trace, steps, i - 1);
      assert steps[..i][..i - 1] == steps[..i - 1];
    }
  }

  /** A crash ends everything its runner was doing, and nothing of any other runner; what it had acknowledged or was
      running is counted as lost. */
  lemma CrashEnds(s: State, o: nat, h: nat)
    requires h < |s.handlers|
    ensures h < |Next(s, Crash(o)).handlers|
    ensures var t, pc := Next(s, Crash(o)), s.handlers[h].pc;
        && t.handlers[h].pc == (if s.handlers[h].owner == o then Over else pc)
        && (s.handlers[h].owner == o && pc.Acked? ==> pc.payload in t.dropped)
        && (s.handlers[h].owner == o && pc.Running? ==> pc.payload in t.killed)
  {
    if s.handlers[h].owner == o {
      if s.handlers[h].pc.Acked? { DoomedHas(s.handlers, o, false, h); }
      if s.handlers[h].pc.Running? { DoomedHas(s.handlers, o, true, h); }
    }
  }

  lemma {:induction false} DoomedHas(hs: seq<Handler>, owner: nat, running: bool, h: nat)
    requires h < |hs| && hs[h].owner == owner && (if running then hs[h].pc.Running? else hs[h].pc.Acked?)
    ensures hs[h].pc.payload in Doomed(hs, owner, running)
  {
    var n := |hs| - 1;
    if h < n {
      DoomedHas(hs[..n], owner, running, h);
    } else {
      assert Doomed(hs, owner, running)[|Doomed(hs[..n], owner, running)|] == hs[h].pc.payload;
    }
  }
}
