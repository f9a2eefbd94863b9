/** The prompt queue: a Redis Stream with one consumer group, read by any number of runners that may crash
    between any two steps.

    An entry's id is its position in the stream.  Each entry that was read or claimed has a handler, the
    piece of a runner that is working on it: it acknowledges the entry and then either starts its task or,
    when reclaiming, adds the payload again.
 */
module WorkQueue {

  type Payload = nat

  const STALE_MS := 120_000  // STALE_THRESHOLD_MS

  datatype Pc =
    | Holding(eid: nat, at: nat)   // read or claimed at `at`, not acknowledged
    | Acked(payload: Payload)      // acknowledged, not started or re-added yet
    | Running(payload: Payload)
    | Over

  datatype Handler = Handler(owner: nat, reclaim: bool, pc: Pc)

  datatype State = State(
    now: nat,
    stream: seq<Payload>,
    delivered: nat,            // the group's last-delivered position
    pel: map<nat, nat>,        // pending entries: id to delivery time
    handlers: seq<Handler>,
    // history
    enqueued: seq<Payload>,
    started: seq<Payload>,
    finished: seq<Payload>,
    dropped: seq<Payload>,     // lost between ack and start, or between ack and re-add
    killed: seq<Payload>)      // lost while running

  ghost predicate Init(s: State) {
    && s.stream == [] && s.delivered == 0 && s.pel == map[] && s.handlers == []
    && s.enqueued == [] && s.started == [] && s.finished == [] && s.dropped == [] && s.killed == []
  }

  datatype Step =
    | Enqueue(payload: Payload)
    | Read(owner: nat)                  // XREADGROUP
    | Claim(owner: nat, eid: nat)       // XAUTOCLAIM, one entry
    | Ack(h: nat)                       // XACK
    | Go(h: nat)                        // start it, or XADD again
    | Finish(h: nat)
    | Crash(owner: nat)
    | Tick(d: nat)

  predicate Enabled(s: State, a: Step) {
    match a
    case Enqueue(p) => p !in s.enqueued
    case Read(_) => s.delivered < |s.stream|
    case Claim(_, eid) => eid in s.pel && s.now - s.pel[eid] >= STALE_MS
    case Ack(h) => h < |s.handlers| && s.handlers[h].pc.Holding? && s.handlers[h].pc.eid < |s.stream|
    case Go(h) => h < |s.handlers| && s.handlers[h].pc.Acked?
    case Finish(h) => h < |s.handlers| && s.handlers[h].pc.Running?
    case Crash(_) => true
    case Tick(d) => true
  }

  /** The payloads the handlers of `owner` had acknowledged (or were running) when it died. */
  function Doomed(hs: seq<Handler>, owner: nat, running: bool): seq<Payload> {
    if hs == [] then []
    else
      var front, h := Doomed(hs[..|hs| - 1], owner, running), hs[|hs| - 1];
      if h.owner == owner && (if running then h.pc.Running? else h.pc.Acked?) then front + [h.pc.payload] else front
  }

  function Bury(hs: seq<Handler>, owner: nat): (r: seq<Handler>)
    ensures |r| == |hs|
    ensures forall i :: 0 <= i < |hs| ==> r[i] == if hs[i].owner == owner then hs[i].(pc := Over) else hs[i]
  {
    seq(|hs|, i requires 0 <= i < |hs| => if hs[i].owner == owner then hs[i].(pc := Over) else hs[i])
  }

  function Next(s: State, a: Step): State
    requires Enabled(s, a)
  {
    match a
    case Enqueue(p) => s.(stream := s.stream + [p], enqueued := s.enqueued + [p])
    case Read(o) =>
      s.(pel := s.pel[s.delivered := s.now], delivered := s.delivered + 1,
         handlers := s.handlers + [Handler(o, false, Holding(s.delivered, s.now))])
    case Claim(o, eid) =>
      s.(pel := s.pel[eid := s.now], handlers := s.handlers + [Handler(o, true, Holding(eid, s.now))])
    case Ack(h) =>
      var eid := s.handlers[h].pc.eid;
      s.(pel := s.pel - {eid}, handlers := s.handlers[h := s.handlers[h].(pc := Acked(s.stream[eid]))])
    case Go(h) =>
      var p := s.handlers[h].pc.payload;
      if s.handlers[h].reclaim
      then s.(stream := s.stream + [p], handlers := s.handlers[h := s.handlers[h].(pc := Over)])
      else s.(started := s.started + [p], handlers := s.handlers[h := s.handlers[h].(pc := Running(p))])
    case Finish(h) =>
      s.(finished := s.finished + [s.handlers[h].pc.payload],
         handlers := s.handlers[h := s.handlers[h].(pc := Over)])
    case Crash(o) =>
      s.(handlers := Bury(s.handlers, o),
         dropped := s.dropped + Doomed(s.handlers, o, false), killed := s.killed + Doomed(s.handlers, o, true))
    case Tick(d) => s.(now := s.now + d)
  }

  ghost predicate Run(trace: seq<State>, steps: seq<Step>) {
    && |trace| == |steps| + 1
    && Init(trace[0])
    && forall i :: 0 <= i < |steps| ==> Enabled(trace[i], steps[i]) && trace[i + 1] == Next(trace[i], steps[i])
  }

  /** The step claims an entry that another handler still holds. */
  predicate Steals(s: State, a: Step) {
    a.Claim? && exists i :: 0 <= i < |s.handlers| && s.handlers[i].pc.Holding? && s.handlers[i].pc.eid == a.eid
  }

  /** No handler has been paused for `STALE_MS` between read (or claim) and ack. */
  ghost predicate Timely(s: State) {
    forall i :: 0 <= i < |s.handlers| && s.handlers[i].pc.Holding? ==> s.now < s.handlers[i].pc.at + STALE_MS
  }

  // ---------- the places a payload can be ----------

  /** How often `p` occurs. */
  function Count(xs: seq<Payload>, p: Payload): nat {
    if xs == [] then 0 else Count(xs[..|xs| - 1], p) + if xs[|xs| - 1] == p then 1 else 0
  }

  function Unread(s: State, p: Payload): nat
    requires s.delivered <= |s.stream|
  {
    Count(s.stream[s.delivered..], p)
  }

  /** Occurrences of `p` among the pending entries below position `n`. */
  function Pending(stream: seq<Payload>, pel: map<nat, nat>, n: nat, p: Payload): nat
    requires n <= |stream|
  {
    if n == 0 then 0
    else Pending(stream, pel, n - 1, p) + if n - 1 in pel && stream[n - 1] == p then 1 else 0
  }

  function Has(pc: Pc, running: bool, p: Payload): nat {
    if running && pc.Running? && pc.payload == p then 1
    else if !running && pc.Acked? && pc.payload == p then 1
    else 0
  }

  function Held(hs: seq<Handler>, running: bool, p: Payload): nat {
    if hs == [] then 0 else Held(hs[..|hs| - 1], running, p) + Has(hs[|hs| - 1].pc, running, p)
  }

  /** Occurrences of `p` over all places: unread, pending, in a runner's hands (acknowledged or running),
      finished, lost. */
  function Everywhere(s: State, p: Payload): nat
    requires s.delivered <= |s.stream|
  {
    Unread(s, p) + Pending(s.stream, s.pel, s.delivered, p) + Held(s.handlers, false, p) + Held(s.handlers, true, p)
    + Count(s.finished, p) + Count(s.dropped, p) + Count(s.killed, p)
  }

  /** Every held entry is pending since it was read or claimed, and in one pair of hands. */
  ghost predicate Grip(s: State) {
    && (forall i :: 0 <= i < |s.handlers| && s.handlers[i].pc.Holding? ==>
          s.handlers[i].pc.eid in s.pel && s.pel[s.handlers[i].pc.eid] == s.handlers[i].pc.at)
    && (forall i, j :: 0 <= i < j < |s.handlers| && s.handlers[i].pc.Holding? && s.handlers[j].pc.Holding? ==>
          s.handlers[i].pc.eid != s.handlers[j].pc.eid)
  }

  ghost predicate Shape(s: State) {
    && s.delivered <= |s.stream|
    && (forall eid :: eid in s.pel ==> eid < s.delivered)
    && Grip(s)
  }

  /** The books for one payload: it is counted once if it was enqueued, and every start is accounted for. */
  ghost predicate Books(s: State, p: Payload) {
    && s.delivered <= |s.stream|
    && Everywhere(s, p) == (if p in s.enqueued then 1 else 0)
    && Count(s.started, p) == Held(s.handlers, true, p) + Count(s.finished, p) + Count(s.killed, p)
  }

  ghost predicate Inv(s: State) {
    Shape(s) && forall p :: Books(s, p)
  }

  // ---------- bookkeeping lemmas ----------

  lemma CountOne(xs: seq<Payload>, x: Payload, p: Payload)
    ensures Count(xs + [x], p) == Count(xs, p) + if x == p then 1 else 0
  {
    assert (xs + [x])[..|xs|] == xs;
  }

  lemma {:induction false} CountConcat(xs: seq<Payload>, ys: seq<Payload>, p: Payload)
    ensures Count(xs + ys, p) == Count(xs, p) + Count(ys, p)
  {
    if ys == [] {
      assert xs + ys == xs;
    } else {
      CountConcat(xs, ys[..|ys| - 1], p);
      assert (xs + ys)[..|xs + ys| - 1] == xs + ys[..|ys| - 1];
    }
  }

  lemma {:induction false} HeldUpdate(hs: seq<Handler>, h: nat, w: Handler, running: bool, p: Payload)
    requires h < |hs|
    ensures Held(hs[h := w], running, p) == Held(hs, running, p) - Has(hs[h].pc, running, p) + Has(w.pc, running, p)
  {
    var n := |hs| - 1;
    if h < n {
      assert hs[h := w][..n] == hs[..n][h := w];
      HeldUpdate(hs[..n], h, w, running, p);
    } else {
      assert hs[h := w][..n] == hs[..n];
    }
  }

  lemma HeldAppend(hs: seq<Handler>, w: Handler, running: bool, p: Payload)
    ensures Held(hs + [w], running, p) == Held(hs, running, p) + Has(w.pc, running, p)
  {
    assert (hs + [w])[..|hs|] == hs;
  }

  lemma {:induction false} HeldBury(hs: seq<Handler>, owner: nat, running: bool, p: Payload)
    ensures Held(hs, running, p) == Held(Bury(hs, owner), running, p) + Count(Doomed(hs, owner, running), p)
  {
    if hs != [] {
      var n := |hs| - 1;
      hide Count, Bury;
      HeldBury(hs[..n], owner, running, p);
      assert Bury(hs, owner)[..n] == Bury(hs[..n], owner);
      if hs[n].owner == owner && (if running then hs[n].pc.Running? else hs[n].pc.Acked?) {
        CountOne(Doomed(hs[..n], owner, running), hs[n].pc.payload, p);
      }
    }
  }

  lemma {:induction false} PendingSame(stream: seq<Payload>, stream': seq<Payload>, pel: map<nat, nat>, pel': map<nat,
                                       nat>,
                                       n: nat, p: Payload)
    requires n <= |stream| && stream <= stream'
    requires forall i :: 0 <= i < n ==> (i in pel <==> i in pel')
    ensures Pending(stream', pel', n, p) == Pending(stream, pel, n, p)
  {
    if n > 0 { PendingSame(stream, stream', pel, pel', n - 1, p); }
  }

  lemma {:induction false} PendingRemove(stream: seq<Payload>, pel: map<nat, nat>, eid: nat, n: nat, p: Payload)
    requires eid < n <= |stream| && eid in pel
    ensures Pending(stream, pel, n, p) == Pending(stream, pel - {eid}, n, p) + if stream[eid] == p then 1 else 0
  {
    if eid < n - 1 {
      PendingRemove(stream, pel, eid, n - 1, p);
    } else {
      PendingSame(stream, stream, pel, pel - {eid}, n - 1, p);
    }
  }

  lemma UnreadAppend(stream: seq<Payload>, delivered: nat, x: Payload, p: Payload)
    requires delivered <= |stream|
    ensures Count((stream + [x])[delivered..], p) == Count(stream[delivered..], p) + if x == p then 1 else 0
  {
    assert (stream + [x])[delivered..] == stream[delivered..] + [x];
    CountOne(stream[delivered..], x, p);
  }

  lemma UnreadHead(stream: seq<Payload>, delivered: nat, p: Payload)
    requires delivered < |stream|
    ensures Count(stream[delivered..], p) ==
            (if stream[delivered] == p then 1 else 0) + Count(stream[delivered + 1..], p)
  {
    assert stream[delivered..] == [stream[delivered]] + stream[delivered + 1..];
    CountConcat([stream[delivered]], stream[delivered + 1..], p);
    CountOne([], stream[delivered], p);
  }

  // ---------- the shape is kept ----------

  /** The grip is lost by stealing, and by nothing else. */
  lemma ShapeIffNotStolen(s: State, a: Step)
    requires Shape(s) && Enabled(s, a)
    ensures Shape(Next(s, a)) <==> !Steals(s, a)
  {
    if a.Ack? {
      ShapeAck(s, a.h);
    } else if Steals(s, a) {
      var i :| 0 <= i < |s.handlers| && s.handlers[i].pc.Holding? && s.handlers[i].pc.eid == a.eid;
      assert Next(s, a).handlers[i] == s.handlers[i];
      assert Next(s, a).handlers[|s.handlers|].pc == Holding(a.eid, s.now);
    }
  }

  /** Where no handler pauses for `STALE_MS`, nothing is stolen. */
  lemma TimelyIsSafe(s: State, a: Step)
    requires Shape(s) && Timely(s) && Enabled(s, a)
    ensures !Steals(s, a)
  {}

  lemma ShapeAck(s: State, h: nat)
    requires Shape(s) && Enabled(s, Ack(h))
    ensures Shape(Next(s, Ack(h)))
  {
    var t := Next(s, Ack(h));
    forall i | 0 <= i < |t.handlers| && t.handlers[i].pc.Holding?
      ensures t.handlers[i].pc.eid in t.pel && t.pel[t.handlers[i].pc.eid] == t.handlers[i].pc.at
    {
      assert i != h && s.handlers[i].pc.eid != s.handlers[h].pc.eid;
    }
  }

  // ---------- the books are kept ----------

  lemma EnqueueBooks(s: State, x: Payload, p: Payload)
    requires Shape(s) && Books(s, p) && Enabled(s, Enqueue(x))
    ensures Books(Next(s, Enqueue(x)), p)
  {
    PendingSame(s.stream, s.stream + [x], s.pel, s.pel, s.delivered, p);
    UnreadAppend(s.stream, s.delivered, x, p);
  }

  /** A read moves an entry from unread to pending; a claim leaves it pending. */
  lemma DeliveryBooks(s: State, a: Step, p: Payload)
    requires Shape(s) && Books(s, p) && Enabled(s, a) && (a.Read? || a.Claim?)
    ensures Books(Next(s, a), p)
  {
    hide Count, Held;
    var t := Next(s, a);
    var w := if a.Read? then Handler(a.owner, false, Holding(s.delivered, s.now))
             else Handler(a.owner, true, Holding(a.eid, s.now));
    assert t.handlers == s.handlers + [w];
    HeldAppend(s.handlers, w, false, p);
    HeldAppend(s.handlers, w, true, p);
    PendingSame(s.stream, s.stream, s.pel, t.pel, s.delivered, p);
    if a.Read? { UnreadHead(s.stream, s.delivered, p); }
  }

  /** A handler takes its entry one step further. */
  lemma HandlerBooks(s: State, a: Step, p: Payload)
    requires Shape(s) && Books(s, p) && Enabled(s, a) && (a.Ack? || a.Go? || a.Finish?)
    ensures Books(Next(s, a), p)
  {
    hide Count, Held, Pending;
    var t, h := Next(s, a), a.h;
    HeldUpdate(s.handlers, h, t.handlers[h], false, p);
    HeldUpdate(s.handlers, h, t.handlers[h], true, p);
    if a.Ack? {
      PendingRemove(s.stream, s.pel, s.handlers[h].pc.eid, s.delivered, p);
    } else if a.Finish? {
      CountOne(s.finished, s.handlers[h].pc.payload, p);
    } else if s.handlers[h].reclaim {
      UnreadAppend(s.stream, s.delivered, s.handlers[h].pc.payload, p);
      PendingSame(s.stream, t.stream, s.pel, t.pel, s.delivered, p);
    } else {
      CountOne(s.started, s.handlers[h].pc.payload, p);
    }
  }

  lemma CrashBooks(s: State, o: nat, p: Payload)
    requires Books(s, p)
    ensures Books(Next(s, Crash(o)), p)
  {
    HeldBury(s.handlers, o, false, p);
    HeldBury(s.handlers, o, true, p);
    CountConcat(s.dropped, Doomed(s.handlers, o, false), p);
    CountConcat(s.killed, Doomed(s.handlers, o, true), p);
  }

  lemma StepInv(s: State, a: Step)
    requires Inv(s) && !Steals(s, a) && Enabled(s, a)
    ensures Inv(Next(s, a))
  {
    ShapeIffNotStolen(s, a);
    forall p ensures Books(Next(s, a), p) {
      assert Books(s, p);
      if a.Enqueue? { EnqueueBooks(s, a.payload, p); }
      else if a.Read? || a.Claim? { DeliveryBooks(s, a, p); }
      else if a.Crash? { CrashBooks(s, a.owner, p); }
      else if !a.Tick? { HandlerBooks(s, a, p); }
    }
  }

  lemma {:induction false} RunInv(trace: seq<State>, steps: seq<Step>, i: nat)
    requires Run(trace, steps) && i < |trace|
    requires forall k :: 0 <= k < i ==> !Steals(trace[k], steps[k])
    ensures Inv(trace[i])
  {
    if i > 0 {
      RunInv(trace, steps, i - 1);
      StepInv(trace[i - 1], steps[i - 1]);
    }
  }

  // ---------- theorems ----------

  /** Through any crashes, every enqueued payload is in exactly one place, counted over all of them, and nothing else is
      anywhere, as long as no claim takes an entry that is still held. */
  lemma Conservation(trace: seq<State>, steps: seq<Step>, i: nat, p: Payload)
    requires Run(trace, steps) && i < |trace| && forall k :: 0 <= k < i ==> !Steals(trace[k], steps[k])
    ensures trace[i].delivered <= |trace[i].stream|
    ensures Everywhere(trace[i], p) == if p in trace[i].enqueued then 1 else 0
  {
    RunInv(trace, steps, i);
    assert Books(trace[i], p);
  }

  /** No payload is executed twice, even through reclaim's ack-then-add; and one that was executed is neither queued nor
      pending any more. */
  lemma AtMostOnce(trace: seq<State>, steps: seq<Step>, i: nat, p: Payload)
    requires Run(trace, steps) && i < |trace| && forall k :: 0 <= k < i ==> !Steals(trace[k], steps[k])
    ensures var s := trace[i];
        && Count(s.started, p) <= 1
        && s.delivered <= |s.stream|
        && (Count(s.started, p) == 1 ==> Unread(s, p) == 0 && Pending(s.stream, s.pel, s.delivered, p) == 0)
  {
    RunInv(trace, steps, i);
    assert Books(trace[i], p);
  }

  /** In particular if no runner is paused for `STALE_MS` between read and ack. */
  lemma {:induction false} TimelyNeverSteals(trace: seq<State>, steps: seq<Step>, i: nat)
    requires Run(trace, steps) && i < |trace| && forall k :: 0 <= k < i ==> Timely(trace[k])
    ensures forall k :: 0 <= k < i ==> !Steals(trace[k], steps[k])
  {
    if i > 0 {
      TimelyNeverSteals(trace, steps, i - 1);
      RunInv(trace, steps, i - 1);
      TimelyIsSafe(trace[i - 1], steps[i - 1]);
    }
  }

  // ---------- without crashes, at any timing ----------

  /** Where a payload can be that is not lost. */
  function Alive(s: State, p: Payload): nat
    requires s.delivered <= |s.stream|
  {
    Unread(s, p) + Pending(s.stream, s.pel, s.delivered, p) + Held(s.handlers, false, p) + Held(s.handlers, true, p)
    + Count(s.finished, p)
  }

  ghost predicate Kept(s: State, p: Payload) {
    && s.delivered <= |s.stream| && (forall eid :: eid in s.pel ==> eid < s.delivered)
    && (p in s.enqueued ==> Alive(s, p) >= 1)
  }

  lemma HandlerKeeps(s: State, a: Step, p: Payload)
    requires Kept(s, p) && Enabled(s, a) && (a.Ack? || a.Go? || a.Finish?)
    ensures Kept(Next(s, a), p)
  {
    hide Count, Held, Pending;
    var t, h := Next(s, a), a.h;
    HeldUpdate(s.handlers, h, t.handlers[h], false, p);
    HeldUpdate(s.handlers, h, t.handlers[h], true, p);
    if a.Ack? {
      AckPending(s.stream, s.pel, s.handlers[h].pc.eid, s.delivered, p);
    } else if a.Finish? {
      CountOne(s.finished, s.handlers[h].pc.payload, p);
    } else if s.handlers[h].reclaim {
      UnreadAppend(s.stream, s.delivered, s.handlers[h].pc.payload, p);
      PendingSame(s.stream, t.stream, s.pel, t.pel, s.delivered, p);
    }
  }

  /** An ack takes at most its own payload from the pending entries: a second ack of the same entry takes none. */
  lemma AckPending(stream: seq<Payload>, pel: map<nat, nat>, eid: nat, n: nat, p: Payload)
    requires n <= |stream| && eid < |stream| && (eid in pel ==> eid < n)
    ensures Pending(stream, pel, n, p) <= Pending(stream, pel - {eid}, n, p) + if stream[eid] == p then 1 else 0
  {
    if eid in pel {
      PendingRemove(stream, pel, eid, n, p);
    } else {
      PendingSame(stream, stream, pel, pel - {eid}, n, p);
    }
  }

  lemma DeliveryKeeps(s: State, a: Step, p: Payload)
    requires Kept(s, p) && Enabled(s, a) && (a.Read? || a.Claim? || a.Enqueue?)
    ensures Kept(Next(s, a), p)
  {
    hide Count, Held;
    var t := Next(s, a);
    PendingSame(s.stream, t.stream, s.pel, t.pel, s.delivered, p);
    if a.Enqueue? {
      UnreadAppend(s.stream, s.delivered, a.payload, p);
    } else {
      var w := t.handlers[|s.handlers|];
      HeldAppend(s.handlers, w, false, p);
      HeldAppend(s.handlers, w, true, p);
      if a.Read? { UnreadHead(s.stream, s.delivered, p); }
    }
  }

  /** Without crashes every enqueued payload is, at any time and whatever the timing, unread, pending, in a runner's
      hands or finished: no ack, claim or re-add loses it. */
  lemma {:induction false} NothingLostWithoutCrash(trace: seq<State>, steps: seq<Step>, i: nat, p: Payload)
    requires Run(trace, steps) && i < |trace| && forall k :: 0 <= k < i ==> !steps[k].Crash?
    ensures trace[i].delivered <= |trace[i].stream|
    ensures p in trace[i].enqueued ==> Alive(trace[i], p) >= 1
    ensures Kept(trace[i], p)
  {
    if i > 0 {
      NothingLostWithoutCrash(trace, steps, i - 1, p);
      var s, a := trace[i - 1], steps[i - 1];
      assert !a.Crash?;
      if a.Read? || a.Claim? || a.Enqueue? {
        DeliveryKeeps(s, a, p);
      } else if !a.Tick? {
        HandlerKeeps(s, a, p);
      }
    }
  }

  /** State `t` can be reached. */
  ghost predicate Reachable(t: State) {
    exists trace, steps :: Run(trace, steps) && |trace| > 0 && trace[|trace| - 1] == t
  }

  lemma Extend(s: State, a: Step)
    requires Reachable(s) && Enabled(s, a)
    ensures Reachable(Next(s, a))
  {
    var trace, steps :| Run(trace, steps) && |trace| > 0 && trace[|trace| - 1] == s;
    var trace', steps' := trace + [Next(s, a)], steps + [a];
    forall i | 0 <= i < |steps'| ensures Enabled(trace'[i], steps'[i]) && trace'[i + 1] == Next(trace'[i], steps'[i]) {
      if i < |steps| { assert trace'[i] == trace[i] && trace'[i + 1] == trace[i + 1] && steps'[i] == steps[i]; }
    }
    assert Run(trace', steps');
  }

  /** The timing is needed: a runner paused for `STALE_MS` between read and ack lets the same payload run twice. */
  lemma PausedRunnerRunsTwice() returns (s: State)
    ensures Reachable(s) && s.started == [7, 7]
  {
    var first := Handler(0, false, Holding(0, 0));
    s := ReclaimedWhilePaused(first);
    Extend(s, Read(1));    s := Next(s, Read(1));
    Extend(s, Ack(2));     s := Next(s, Ack(2));
    Extend(s, Go(2));      s := Next(s, Go(2));
    assert s.handlers[0] == first && s.stream[0] == 7;
    Extend(s, Ack(0));     s := Next(s, Ack(0));
    Extend(s, Go(0));      s := Next(s, Go(0));
  }

  lemma ReclaimedWhilePaused(first: Handler) returns (s: State)
    requires first == Handler(0, false, Holding(0, 0))
    ensures Reachable(s) && s.stream == [7, 7] && s.delivered == 1 && s.started == []
    ensures s.handlers == [first, Handler(1, true, Over)]
  {
    s := State(0, [], 0, map[], [], [], [], [], [], []);
    assert Run([s], []);
    Extend(s, Enqueue(7));      s := Next(s, Enqueue(7));
    Extend(s, Read(0));         s := Next(s, Read(0));
    Extend(s, Tick(STALE_MS));  s := Next(s, Tick(STALE_MS));
    Extend(s, Claim(1, 0));     s := Next(s, Claim(1, 0));
    Extend(s, Ack(1));          s := Next(s, Ack(1));
    Extend(s, Go(1));           s := Next(s, Go(1));
  }
}
