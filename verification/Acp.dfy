/** The ACP client's JSON-RPC plumbing: numbered requests, a table of pending futures, one reader. */
module Acp {
  import opened Wrappers

  type Json = string

  /** An id as JSON-RPC allows it. */
  datatype Id = Num(n: int) | Str(s: string) | Null

  /** A well-formed message from the agent. A request carries the path and content found in it (empty if none) and
      whether the path lies inside the working directory. */
  datatype Msg =
    | Response(id: Id, error: Option<Json>, result: Json)
    | Request(id: Id, name: string, path: string, content: string, inside: bool)
    | Notification(name: string, params: Json)

  /** What the outside does while a message is handled: whether a file callback is set and succeeds, whether the
      update callback succeeds (or is not set), whether the reply can be written. */
  datatype Env = Env(canSave: bool, saveOk: bool, updateOk: bool, writeOk: bool)

  /** A call of the file callback and its outcome. */
  datatype Save = Save(path: string, content: string, ok: bool)

  datatype Out = Call(id: nat, name: string) | Reply(to: Id, result: Json)

  datatype Outcome = Waiting | Result(value: Json) | Error(detail: Json) | Cancelled

  const CLOSED: Json := "subprocess closed"

  // ---------- the client as a value ----------

  /** `outcomes[k]` belongs to request `k + 1`. */
  datatype Model = Model(
    outcomes: seq<Outcome>, pending: set<nat>, outbox: seq<Out>, updates: seq<Json>, saves: seq<Save>, reading: bool)

  function Fresh(): Model {
    Model([], {}, [], [], [], true)
  }

  /** A request counts as sent only if its write succeeds; its table entry is made before. */
  function Send(m: Model, name: string, writeOk: bool): Model {
    var id := |m.outcomes| + 1;
    m.(outcomes := m.outcomes + [Waiting], pending := m.pending + {id},
       outbox := if writeOk then m.outbox + [Call(id, name)] else m.outbox)
  }

  function Complete(m: Model, id: nat, o: Outcome): Model {
    if 1 <= id <= |m.outcomes| && m.outcomes[id - 1] == Waiting
    then m.(outcomes := m.outcomes[id - 1 := o]) else m
  }

  predicate AsksPermission(name: string) {
    name in {"request_permission", "session_request_permission", "session/request_permission"}
  }

  /** The file callback, whose exceptions are swallowed. */
  function Saved(m: Model, path: string, content: string, env: Env): Model {
    if env.canSave then m.(saves := m.saves + [Save(path, content, env.saveOk)]) else m
  }

  /** The reply, unless its write raises. */
  function Replied(m: Model, id: Id, result: Json, env: Env): Model {
    if env.writeOk then m.(outbox := m.outbox + [Reply(id, result)]) else m
  }

  /** A permission request: approved for a path inside the working directory, and then also saved if it carries
      content. */
  function Permit(m: Model, msg: Msg, env: Env): Model
    requires msg.Request?
  {
    if msg.path != "" && msg.inside then
      var m1 := if msg.content != "" then Saved(m, msg.path, msg.content, env) else m;
      Replied(m1, msg.id, "allow_once", env)
    else Replied(m, msg.id, "deny", env)
  }

  function Dispatch(m: Model, msg: Msg, env: Env): Model {
    match msg
    case Response(id, error, result) =>
      if id.Num? && id.n >= 0 && id.n in m.pending then
        Complete(m.(pending := m.pending - {id.n}), id.n,
                 if error.Some? then Error(error.value) else Result(result))
      else m
    case Request(id, name, path, content, _) =>
      if name == "fs/write_text_file" then Replied(Saved(m, path, content, env), id, "null", env)
      else if AsksPermission(name) then Permit(m, msg, env)
      else Replied(m, id, "null", env)
    case Notification(name, params) =>
      if name == "session/update" then m.(updates := m.updates + [params]) else m
  }

  /** The handler raises, which ends the reader. */
  predicate Breaks(msg: Msg, env: Env) {
    || (msg.Request? && !env.writeOk)
    || (msg.Notification? && msg.name == "session/update" && !env.updateOk)
  }

  /** `wait_for` gives up: the future is cancelled first, its entry removed when the caller resumes. */
  function Cancel(m: Model, id: nat): Model { Complete(m, id, Cancelled) }

  function Forget(m: Model, id: nat): Model { m.(pending := m.pending - {id}) }

  function FailAll(os: seq<Outcome>, pending: set<nat>): (r: seq<Outcome>)
    ensures |r| == |os|
    ensures forall k :: 0 <= k < |os| ==> r[k] == if os[k] == Waiting && k + 1 in pending then Error(CLOSED) else os[k]
  {
    seq(|os|, k requires 0 <= k < |os| => if os[k] == Waiting && k + 1 in pending then Error(CLOSED) else os[k])
  }

  /** The reader's `finally`. */
  function End(m: Model): Model {
    m.(outcomes := FailAll(m.outcomes, m.pending), pending := {}, reading := false)
  }

  /** A line of input: one that is blank or does not parse; one over the stream's limit, with undecodable bytes or not
      holding an object, at which the reader raises; or a message with what happens around it. */
  datatype Line = Junk | Raising | Message(msg: Msg, env: Env)

  /** Does the reader end at this line? */
  predicate EndsAt(l: Line) {
    l.Raising? || (l.Message? && Breaks(l.msg, l.env))
  }

  function DispatchAll(m: Model, lines: seq<Line>): Model {
    if lines == [] then m
    else
      var m1, l := DispatchAll(m, lines[..|lines| - 1]), lines[|lines| - 1];
      if l.Message? then Dispatch(m1, l.msg, l.env) else m1
  }

  /** How many lines the reader takes: up to the first one at which it raises. */
  function Taken(lines: seq<Line>): (n: nat)
    ensures n <= |lines|
  {
    if lines == [] then 0
    else if EndsAt(lines[0]) then 1
    else 1 + Taken(lines[1..])
  }

  // ---------- the client itself ----------

  class Future {
    var state: Outcome

    constructor ()
      ensures state == Waiting
    {
      state := Waiting;
    }

    /** set_result / set_exception / cancel, guarded by `not done()`. */
    method Settle(o: Outcome)
      modifies this
      ensures state == if old(state) == Waiting then o else old(state)
    {
      if state == Waiting { state := o; }
    }
  }

  class ACPClient {
    var nextId: nat
    var pending: map<nat, Future>
    var outbox: seq<Out>
    var updates: seq<Json>
    var saves: seq<Save>
    var reading: bool
    ghost var futures: seq<Future>   // every future ever made; request k + 1 owns futures[k]

    ghost predicate Valid()
      reads this
    {
      && nextId == |futures|
      && (forall i, j :: 0 <= i < j < |futures| ==> futures[i] != futures[j])
      && (forall id :: id in pending ==> 1 <= id <= nextId && pending[id] == futures[id - 1])
    }

    ghost function View(): Model
      reads this, futures
    {
      Model(seq(|futures|, k requires 0 <= k < |futures| reads this, futures => futures[k].state),
            pending.Keys, outbox, updates, saves, reading)
    }

    constructor ()
      ensures Valid() && View() == Fresh()
    {
      nextId, pending, outbox, updates, saves, reading, futures := 0, map[], [], [], [], true, [];
    }

    /** The first half of `_request`: number the call, table its future, write the line. */
    method SendRequest(name: string, writeOk: bool) returns (fut: Future)
      requires Valid()
      modifies this
      ensures Valid() && View() == Send(old(View()), name, writeOk)
      ensures fresh(fut) && futures == old(futures) + [fut]
    {
      nextId := nextId + 1;
      fut := new Future();
      pending := pending[nextId := fut];
      futures := futures + [fut];
      if writeOk { outbox := outbox + [Call(nextId, name)]; }
    }

    /** `on_fs_write`, if it is set; what it raises is logged only. */
    method CallSave(path: string, content: string, env: Env)
      requires Valid()
      modifies this`saves
      ensures Valid() && View() == Saved(old(View()), path, content, env)
    {
      if env.canSave { saves := saves + [Save(path, content, env.saveOk)]; }
    }

    method Respond(id: Id, result: Json, env: Env) returns (raised: bool)
      requires Valid()
      modifies this`outbox
      ensures Valid() && View() == Replied(old(View()), id, result, env) && raised == !env.writeOk
    {
      if env.writeOk { outbox := outbox + [Reply(id, result)]; }
      raised := !env.writeOk;
    }

    /** A request from the agent, by its name. */
    method Serve(msg: Msg, env: Env) returns (raised: bool)
      requires Valid() && msg.Request?
      modifies this`saves, this`outbox
      ensures Valid() && View() == Dispatch(old(View()), msg, env) && raised == Breaks(msg, env)
    {
      if msg.name == "fs/write_text_file" {
        CallSave(msg.path, msg.content, env);
        raised := Respond(msg.id, "null", env);
      } else if AsksPermission(msg.name) {
        var approved := msg.path != "" && msg.inside;
        if approved && msg.content != "" { CallSave(msg.path, msg.content, env); }
        raised := Respond(msg.id, if approved then "allow_once" else "deny", env);
      } else {
        raised := Respond(msg.id, "null", env);
      }
    }

    /** A response settles the future it names, if that is still pending. */
    method Resolve(id: Id, error: Option<Json>, result: Json)
      requires Valid()
      modifies this`pending, futures
      ensures Valid() && futures == old(futures)
      ensures forall env :: View() == Dispatch(old(View()), Response(id, error, result), env)
    {
      if id.Num? && id.n >= 0 && id.n in pending {
        var fut := pending[id.n];
        pending := map k | k in pending && k != id.n :: pending[k];
        fut.Settle(if error.Some? then Error(error.value) else Result(result));
      }
    }

    /** One message, in the order of the source's tests. */
    method Receive(msg: Msg, env: Env) returns (raised: bool)
      requires Valid()
      modifies this, futures
      ensures Valid() && futures == old(futures) && View() == Dispatch(old(View()), msg, env)
      ensures raised == Breaks(msg, env)
    {
      raised := false;
      if msg.Response? {
        Resolve(msg.id, msg.error, msg.result);
      } else if msg.Request? {
        raised := Serve(msg, env);
      } else if msg.name == "session/update" {
        updates := updates + [msg.params];
        raised := !env.updateOk;
      }
    }

    /** The caller's timer fires: `wait_for` cancels the future it holds. */
    method CancelFuture(fut: Future, ghost id: nat)
      requires Valid() && 1 <= id <= nextId && fut == futures[id - 1]
      modifies fut
      ensures Valid() && futures == old(futures) && View() == Cancel(old(View()), id)
    {
      fut.Settle(Cancelled);
    }

    /** The timed-out caller resumes and removes its entry. */
    method ForgetRequest(id: nat)
      requires Valid()
      modifies this
      ensures Valid() && futures == old(futures) && View() == Forget(old(View()), id)
    {
      pending := map k | k in pending && k != id :: pending[k];
    }

    /** The reader's `finally`: fail what is still in flight, then empty the table. */
    method EndReading()
      requires Valid()
      modifies this, futures
      ensures Valid() && futures == old(futures) && View() == End(old(View()))
    {
      var todo := pending.Keys;
      while todo != {}
        invariant Valid() && todo <= pending.Keys
        invariant futures == old(futures) && pending == old(pending) && outbox == old(outbox) && updates == old(updates)
        invariant saves == old(saves)
        invariant forall k :: 0 <= k < |futures| ==>
            futures[k].state == if old(futures[k].state) == Waiting && k + 1 in pending && k + 1 !in todo
                                then Error(CLOSED) else old(futures[k].state)
      {
        var id :| id in todo;
        assert pending[id] == futures[id - 1];
        pending[id].Settle(Error(CLOSED));
        todo := todo - {id};
      }
      pending, reading := map[], false;
    }

    /** `_read_loop`: dispatch every line that parses, until end of file or until reading, decoding or a handler
        raises. */
    method ReadLoop(lines: seq<Line>)
      requires Valid()
      modifies this, futures
      ensures Valid() && futures == old(futures) && View() == End(DispatchAll(old(View()), lines[..Taken(lines)]))
    {
      var i, raised := 0, false;
      while i < |lines| && !raised
        invariant 0 <= i <= |lines| && Valid() && futures == old(futures)
        invariant View() == DispatchAll(old(View()), lines[..i])
        invariant Taken(lines) == if raised then i else i + Taken(lines[i..])
      {
        assert lines[..i + 1][..i] == lines[..i] && lines[i..][1..] == lines[i + 1..];
        match lines[i] {
          case Junk =>
          case Raising => raised := true;
          case Message(msg, env) => raised := Receive(msg, env);
        }
        i := i + 1;
      }
      EndReading();
    }
  }

  // ---------- runs ----------

  datatype Step =
    | DoSend(name: string, writeOk: bool)
    | DoReceive(msg: Msg, env: Env)
    | DoCancel(id: nat)
    | DoForget(id: nat)
    | DoEnd

  function Next(m: Model, a: Step): Model {
    match a
    case DoSend(name, ok) => Send(m, name, ok)
    case DoReceive(msg, env) => if Breaks(msg, env) then End(Dispatch(m, msg, env)) else Dispatch(m, msg, env)
    case DoCancel(id) => Cancel(m, id)
    case DoForget(id) => Forget(m, id)
    case DoEnd => End(m)
  }

  /** A caller removes its entry only after its future was cancelled; nothing is received after the reader has ended. */
  predicate Enabled(m: Model, a: Step) {
    && (a.DoForget? ==> 1 <= a.id <= |m.outcomes| && m.outcomes[a.id - 1] == Cancelled)
    && (a.DoReceive? || a.DoEnd? ==> m.reading)
  }

  /** The step ends the reader. */
  predicate Ends(a: Step) {
    a.DoEnd? || (a.DoReceive? && Breaks(a.msg, a.env))
  }

  ghost predicate Run(trace: seq<Model>, steps: seq<Step>) {
    && |trace| == |steps| + 1
    && trace[0] == Fresh()
    && forall i :: 0 <= i < |steps| ==> Enabled(trace[i], steps[i]) && trace[i + 1] == Next(trace[i], steps[i])
  }

  /** Every unresolved request is pending, and besides them only cancelled ones whose caller has not resumed yet. */
  ghost predicate Inv(m: Model) {
    && (forall id :: id in m.pending ==> 1 <= id <= |m.outcomes| && m.outcomes[id - 1] in {Waiting, Cancelled})
    && (forall k :: 0 <= k < |m.outcomes| && m.outcomes[k] == Waiting ==> k + 1 in m.pending)
  }

  lemma StepInv(m: Model, a: Step)
    requires Inv(m) && Enabled(m, a)
    ensures Inv(Next(m, a))
  {
    match a
    case DoSend(_, _) =>
    case DoReceive(msg, _) => if msg.Request? {} else if msg.Response? {} else {}
    case DoCancel(_) =>
    case DoForget(_) =>
    case DoEnd =>
  }

  lemma {:induction false} RunInv(trace: seq<Model>, steps: seq<Step>, i: nat)
    requires Run(trace, steps) && i < |trace|
    ensures Inv(trace[i])
  {
    if i > 0 {
      hide Next, Enabled, Inv;
      RunInv(trace, steps, i - 1);
      StepInv(trace[i - 1], steps[i - 1]);
    } else {
      assert Inv(Fresh());
    }
  }

  // ---------- outcomes ----------

  /** Step `a` can give request `id` the outcome `o`. */
  ghost predicate AnsweredBy(a: Step, id: nat, o: Outcome) {
    || (a.DoReceive? && a.msg.Response? && a.msg.id == Num(id) &&
          o == if a.msg.error.Some? then Error(a.msg.error.value) else Result(a.msg.result))
    || (a == DoCancel(id) && o == Cancelled)
    || (Ends(a) && o == Error(CLOSED))
  }

  lemma StepOutcome(m: Model, a: Step, k: nat)
    requires Inv(m) && Enabled(m, a) && k < |m.outcomes|
    ensures var n := Next(m, a);
        && k < |n.outcomes|
        && (m.outcomes[k] != Waiting ==> n.outcomes[k] == m.outcomes[k])
        && (m.outcomes[k] == Waiting && n.outcomes[k] != Waiting ==> AnsweredBy(a, k + 1, n.outcomes[k]))
  {}

  /** A request's outcome, once it has one, is final: a late response or a second one changes nothing. */
  lemma {:induction false} OutcomeIsFinal(trace: seq<Model>, steps: seq<Step>, i: nat, j: nat, k: nat)
    requires Run(trace, steps) && i <= j < |trace| && k < |trace[i].outcomes|
    ensures k < |trace[j].outcomes|
    ensures trace[i].outcomes[k] != Waiting ==> trace[j].outcomes[k] == trace[i].outcomes[k]
  {
    if i < j {
      OutcomeIsFinal(trace, steps, i, j - 1, k);
      RunInv(trace, steps, j - 1);
      StepOutcome(trace[j - 1], steps[j - 1], k);
    }
  }

  /** Step `i` found request `k + 1` waiting and gave it the outcome it has at `j`. */
  ghost predicate IsSource(trace: seq<Model>, steps: seq<Step>, i: nat, j: nat, k: nat)
    requires Run(trace, steps) && i < j < |trace| && k < |trace[j].outcomes|
  {
    && k < |trace[i].outcomes| && trace[i].outcomes[k] == Waiting
    && AnsweredBy(steps[i], k + 1, trace[j].outcomes[k])
  }

  /** Every outcome has a source: a response that carries the request's own id, its own time-out, or the reader's end.
      */
  lemma {:induction false} OutcomeHasSource(trace: seq<Model>, steps: seq<Step>, j: nat, k: nat)
    requires Run(trace, steps) && j < |trace| && k < |trace[j].outcomes| && trace[j].outcomes[k] != Waiting
    ensures exists i :: 0 <= i < j && IsSource(trace, steps, i, j, k)
  {
    var m, a := trace[j - 1], steps[j - 1];
    RunInv(trace, steps, j - 1);
    if k < |m.outcomes| {
      StepOutcome(m, a, k);
      if m.outcomes[k] != Waiting {
        OutcomeHasSource(trace, steps, j - 1, k);
        var i :| 0 <= i < j - 1 && IsSource(trace, steps, i, j - 1, k);
        assert IsSource(trace, steps, i, j, k);
      } else {
        assert IsSource(trace, steps, j - 1, j, k);
      }
    }
  }

  /** And only one: such a step settles the request for good. */
  lemma SourceIsUnique(trace: seq<Model>, steps: seq<Step>, i: nat, i': nat, j: nat, k: nat)
    requires Run(trace, steps) && i < j < |trace| && i' < j && k < |trace[j].outcomes|
    requires IsSource(trace, steps, i, j, k) && IsSource(trace, steps, i', j, k)
    ensures i == i'
  {
    RunInv(trace, steps, i);
    RunInv(trace, steps, i');
    SourceSettles(trace[i], steps[i], k, trace[j].outcomes[k]);
    SourceSettles(trace[i'], steps[i'], k, trace[j].outcomes[k]);
    if i < i' { OutcomeIsFinal(trace, steps, i + 1, i', k); }
    if i' < i { OutcomeIsFinal(trace, steps, i' + 1, i, k); }
  }

  lemma SourceSettles(m: Model, a: Step, k: nat, o: Outcome)
    requires Inv(m) && Enabled(m, a) && k < |m.outcomes| && m.outcomes[k] == Waiting && AnsweredBy(a, k + 1, o)
    ensures k < |Next(m, a).outcomes| && Next(m, a).outcomes[k] != Waiting
  {}

  /** When the reader ends, nobody is left waiting; afterwards only requests begun later can be. */
  lemma {:induction false} EndLeavesNobodyWaiting(trace: seq<Model>, steps: seq<Step>, i: nat, j: nat, k: nat)
    requires Run(trace, steps) && i < j < |trace| && Ends(steps[i]) && k < |trace[i].outcomes|
    ensures k < |trace[j].outcomes| && trace[j].outcomes[k] != Waiting
    ensures trace[i + 1].pending == {}
  {
    RunInv(trace, steps, i);
    OutcomeIsFinal(trace, steps, i + 1, j, k);
  }

  /** And those never get an answer: a request to a client whose reader has ended, as the pool may hand it out, waits
      until its own time-out. */
  lemma {:induction false} DeafAfterEnd(trace: seq<Model>, steps: seq<Step>, i: nat, j: nat, k: nat)
    requires Run(trace, steps) && i < j < |trace| && Ends(steps[i])
    requires |trace[i].outcomes| <= k < |trace[j].outcomes|
    ensures trace[j].outcomes[k] == Waiting || trace[j].outcomes[k] == Cancelled
    ensures !trace[j].reading
  {
    EndsReading(trace, steps, i, j);
    if i + 1 < j && k < |trace[j - 1].outcomes| { DeafAfterEnd(trace, steps, i, j - 1, k); }
    if i + 1 < j { EndsReading(trace, steps, i, j - 1); }
  }

  lemma {:induction false} EndsReading(trace: seq<Model>, steps: seq<Step>, i: nat, j: nat)
    requires Run(trace, steps) && i < j < |trace| && Ends(steps[i])
    ensures !trace[j].reading && |trace[i].outcomes| == |trace[i + 1].outcomes|
  {
    if i + 1 < j { EndsReading(trace, steps, i, j - 1); }
  }

  /** A timed-out request leaves the table for good, once its caller has resumed. */
  lemma {:induction false} ForgottenForGood(trace: seq<Model>, steps: seq<Step>, i: nat, j: nat)
    requires Run(trace, steps) && i < j < |trace| && steps[i].DoForget?
    ensures steps[i].id <= |trace[j].outcomes| && steps[i].id !in trace[j].pending
  {
    if i + 1 < j { ForgottenForGood(trace, steps, i, j - 1); }
  }

  // ---------- ids and replies ----------

  function CallIds(out: seq<Out>): seq<nat> {
    if out == [] then []
    else CallIds(out[..|out| - 1]) + if out[|out| - 1].Call? then [out[|out| - 1].id] else []
  }

  /** The requests of the agent among the steps whose reply could be written, in order. */
  function Asked(steps: seq<Step>): seq<Msg> {
    if steps == [] then []
    else
      var front, a := Asked(steps[..|steps| - 1]), steps[|steps| - 1];
      if a.DoReceive? && a.msg.Request? && a.env.writeOk then front + [a.msg] else front
  }

  function Replies(out: seq<Out>): seq<Out> {
    if out == [] then []
    else
      var front, o := Replies(out[..|out| - 1]), out[|out| - 1];
      if o.Reply? then front + [o] else front
  }

  /** A request for permission, under any of its three names. */
  predicate ForPermission(msg: Msg) {
    msg.Request? &&
    (msg.name == "request_permission" || msg.name == "session_request_permission"
     || msg.name == "session/request_permission")
  }

  /** What the agent may expect: permission exactly for a path inside the working directory, an empty result
      otherwise. */
  predicate Fits(o: Out, msg: Msg)
    requires msg.Request?
  {
    && o.Reply? && o.to == msg.id
    && (ForPermission(msg) ==> (o.result == "allow_once" <==> msg.path != "" && msg.inside))
    && (ForPermission(msg) && o.result != "allow_once" ==> o.result == "deny")
    && (!ForPermission(msg) ==> o.result == "null")
  }

  lemma OutboxOne(out: seq<Out>, o: Out)
    ensures CallIds(out + [o]) == if o.Call? then CallIds(out) + [o.id] else CallIds(out)
    ensures Replies(out + [o]) == if o.Reply? then Replies(out) + [o] else Replies(out)
  {
    assert (out + [o])[..|out|] == out;
  }

  /** What one step adds to the outbox. */
  lemma StepOut(m: Model, a: Step)
    ensures var n := Next(m, a);
        if a.DoSend? && a.writeOk then n.outbox == m.outbox + [Call(|m.outcomes| + 1, a.name)]
        else if a.DoReceive? && a.msg.Request? && a.env.writeOk then
          && |n.outbox| == |m.outbox| + 1 && n.outbox == m.outbox + [n.outbox[|m.outbox|]]
          && Fits(n.outbox[|m.outbox|], a.msg)
        else n.outbox == m.outbox
  {
    if a.DoReceive? && a.msg.Request? {
      if a.msg.name == "fs/write_text_file" {} else if AsksPermission(a.msg.name) {} else {}
    }
  }

  ghost predicate Increasing(ids: seq<nat>) {
    forall i, j :: 0 <= i < j < |ids| ==> ids[i] < ids[j]
  }

  ghost predicate AtMost(ids: seq<nat>, n: nat) {
    forall k :: 0 <= k < |ids| ==> ids[k] <= n
  }

  lemma PushHigher(ids: seq<nat>, n: nat)
    requires Increasing(ids) && AtMost(ids, n)
    ensures Increasing(ids + [n + 1]) && AtMost(ids + [n + 1], n + 1)
  {}

  lemma StepCount(m: Model, a: Step)
    ensures |Next(m, a).outcomes| == |m.outcomes| + if a.DoSend? then 1 else 0
  {}

  ghost predicate FreshIds(m: Model) {
    Increasing(CallIds(m.outbox)) && AtMost(CallIds(m.outbox), |m.outcomes|)
  }

  lemma FreshStep(m: Model, a: Step)
    requires FreshIds(m)
    ensures FreshIds(Next(m, a))
  {
    hide CallIds, Next, Replies, Increasing, Fits;
    var n := Next(m, a);
    StepOut(m, a);
    StepCount(m, a);
    FitsReply();
    PushHigher(CallIds(m.outbox), |m.outcomes|);
    if a.DoSend? && a.writeOk {
      OutboxOne(m.outbox, Call(|m.outcomes| + 1, a.name));
    } else if n.outbox != m.outbox {
      OutboxOne(m.outbox, n.outbox[|m.outbox|]);
    }
  }

  /** Request ids are never reused: they go out in strictly increasing order. */
  lemma {:induction false} IdsAreFresh(trace: seq<Model>, steps: seq<Step>, i: nat)
    requires Run(trace, steps) && i < |trace|
    ensures FreshIds(trace[i])
  {
    if i > 0 {
      hide Next, FreshIds;
      IdsAreFresh(trace, steps, i - 1);
      FreshStep(trace[i - 1], steps[i - 1]);
    }
  }

  /** The replies written are, in order, exactly one for each agent request whose reply could be written: with its id
      and the permission its path deserves, whichever kind of request it is and whatever the file callback does. */
  lemma {:induction false} OneReplyEach(trace: seq<Model>, steps: seq<Step>, i: nat)
    requires Run(trace, steps) && i < |trace|
    ensures var out, asked := Replies(trace[i].outbox), Asked(steps[..i]);
        |out| == |asked| && forall k :: 0 <= k < |out| ==> asked[k].Request? && Fits(out[k], asked[k])
  {
    if i > 0 {
      hide CallIds, Next, Replies, Fits;
      var m, n := trace[i - 1], trace[i];
      OneReplyEach(trace, steps, i - 1);
      StepOut(m, steps[i - 1]);
      FitsReply();
      assert steps[..i][..i - 1] == steps[..i - 1];
      if n.outbox != m.outbox { OutboxOne(m.outbox, n.outbox[|m.outbox|]); }
    }
  }

  lemma FitsReply()
    ensures forall o: Out, msg: Msg :: msg.Request? && Fits(o, msg) ==> o.Reply?
  {}

  /** The step is a write request, or a permission request with content for a path inside the working directory; and a
      file callback is set. */
  predicate Grants(a: Step) {
    && a.DoReceive? && a.msg.Request? && a.env.canSave
    && (|| a.msg.name == "fs/write_text_file"
        || (ForPermission(a.msg) && a.msg.path != "" && a.msg.inside && a.msg.content != ""))
  }

  function Granted(steps: seq<Step>): seq<Save> {
    if steps == [] then []
    else
      var front, a := Granted(steps[..|steps| - 1]), steps[|steps| - 1];
      if Grants(a) then front + [Save(a.msg.path, a.msg.content, a.env.saveOk)] else front
  }

  lemma StepSaves(m: Model, a: Step)
    ensures Next(m, a).saves ==
            if Grants(a) then m.saves + [Save(a.msg.path, a.msg.content, a.env.saveOk)] else m.saves
  {
    match a
    case DoReceive(msg, _) => if msg.Request? { if ForPermission(msg) {} else {} } else {}
    case _ =>
  }

  /** The file callback gets the files of such requests, in order; nothing else is ever saved, and none is skipped. */
  lemma {:induction false} SavesAreGranted(trace: seq<Model>, steps: seq<Step>, i: nat)
    requires Run(trace, steps) && i < |trace|
    ensures trace[i].saves == Granted(steps[..i])
  {
    if i > 0 {
      hide Next, Grants;
      SavesAreGranted(trace, steps, i - 1);
      StepSaves(trace[i - 1], steps[i - 1]);
      assert steps[..i][..i - 1] == steps[..i - 1];
    }
  }

  /** An update for the callback. */
  predicate Updates(a: Step) {
    a.DoReceive? && a.msg.Notification? && a.msg.name == "session/update"
  }

  function Told(steps: seq<Step>): seq<Json> {
    if steps == [] then []
    else
      var front, a := Told(steps[..|steps| - 1]), steps[|steps| - 1];
      if Updates(a) then front + [a.msg.params] else front
  }

  /** The reader survives an update if and only if the callback does not raise; and then nothing else changes. */
  lemma StepUpdates(m: Model, a: Step)
    requires Enabled(m, a)
    ensures Next(m, a).updates == if Updates(a) then m.updates + [a.msg.params] else m.updates
    ensures Updates(a) ==>
        && (Next(m, a).reading <==> a.env.updateOk)
        && (a.env.updateOk ==> Next(m, a) == m.(updates := m.updates + [a.msg.params]))
        && (!a.env.updateOk ==> Next(m, a).pending == {})
  {
    match a
    case DoReceive(msg, _) => if msg.Request? { if ForPermission(msg) {} else {} } else {}
    case DoSend(_, _) =>
    case DoCancel(_) =>
    case DoForget(_) =>
    case DoEnd =>
  }

  /** The update callback gets the updates the agent sends, in order and once each, and nothing else; as long as the
      reader lives any message is taken. */
  lemma {:induction false} UpdatesAreDelivered(trace: seq<Model>, steps: seq<Step>, i: nat)
    requires Run(trace, steps) && i < |trace|
    ensures trace[i].updates == Told(steps[..i])
    ensures 0 < i && Updates(steps[i - 1]) ==> (trace[i].reading <==> steps[i - 1].env.updateOk)
    ensures trace[i].reading ==> forall msg, env :: Enabled(trace[i], DoReceive(msg, env))
  {
    assert trace[i].reading ==> forall msg, env :: Enabled(trace[i], DoReceive(msg, env));
    if i > 0 {
      hide Next, Enabled, Updates;
      UpdatesAreDelivered(trace, steps, i - 1);
      StepUpdates(trace[i - 1], steps[i - 1]);
      assert steps[..i][..i - 1] == steps[..i - 1];
    }
  }

  /** Whatever is read leaves the reader alive exactly unless the reply to a request, of any kind, cannot be written or
      the update callback raises. */
  lemma ReaderSurvivesIff(m: Model, a: Step)
    requires Enabled(m, a) && a.DoReceive?
    ensures Next(m, a).reading <==>
        && (a.msg.Request? ==> a.env.writeOk)
        && (Updates(a) ==> a.env.updateOk)
  {
    match a.msg
    case Response(_, _, _) =>
    case Request(_, name, _, _, _) => if AsksPermission(name) {} else {}
    case Notification(_, _) =>
  }
}
