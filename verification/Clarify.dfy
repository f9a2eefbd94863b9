/** The clarify handshake between the agent, Redis, the runner and the API.

    One prompt of one session is live.  Every Redis command is one step, and the steps of
    the agent threads, the runner's poll loop, one waiter task per request, any number of API
    calls and the clock interleave freely; publishing events and writing the message row touch
    none of this state and are steps of the module Turn.  Runner-side steps take no time: the
    clock may only advance while every runner-side task is waiting (`Quiet`).  Times are in
    milliseconds.
 */
module Clarify {
  import opened Numbers

  type Id = string
  type Choice = string

  const CANCEL: Choice := "已取消"
  const TIMEOUT: Choice := "超时"
  const POLL_MS := 1_000            // the poll loop's wait on the prompt
  const SLICE_MS := 1_000           // longest single wait on the pub/sub channel
  const CLARIFY_MS := 240_000       // clarify_timeout_seconds
  const KEY_TTL_MS := 300_000       // confirm key
  const CANCEL_TTL_MS := 120_000    // cancel flag
  const RESP_TTL_MS := 60_000       // response list
  const BLPOP_MS := 300_000         // the agent's own patience

  // ---------- state ----------

  /** A request as the agent pushed it: when, and behind how many others. */
  datatype Pushed = Pushed(id: Id, at: nat, ahead: nat)

  datatype Runner =
    | Polling(due: nat)      // waiting on the prompt until `due`, then LPOP
    | Handling(id: Id)       // popped; recorded, announced, and its task about to be created

  datatype Pc =
    | Started                // task created
    | Subscribed             // first GET is next
    | Head                   // loop test
    | Blocked(wake: nat)     // inside get_message
    | Woken                  // a notification was read, GET is next
    | CancelCheck
    | Taking(choice: Choice) // GET returned a value, DEL is next
    | Resolved(choice: Choice)
    | Answered(choice: Choice)

  /** One waiter task.  `ack` is the unread reply to SUBSCRIBE, `notes` the unread notifications. */
  datatype Waiter = Waiter(id: Id, pc: Pc, ack: bool, notes: nat, deadline: nat)

  datatype KeyVal = KeyVal(choice: Choice, expires: nat)
  datatype RespList = RespList(value: Choice, expires: nat)

  /** The agent thread behind one request; `late` marks a wait begun after the answer list had expired. */
  datatype Agent = Asked | Waiting(until: nat, late: bool) | Got(choice: Choice) | GaveUp(late: bool)

  datatype State = State(
    now: nat,
    queue: seq<Id>,              // hermes:clarify:req:{sid}
    runner: Runner,
    waiters: seq<Waiter>,        // in the order of their creation
    keys: map<Id, KeyVal>,       // confirm:{cid}:{id}
    inflight: multiset<Id>,      // API calls between SET and PUBLISH
    cancelUntil: nat,            // acp:cancel:{cid}
    resp: map<Id, RespList>,     // hermes:clarify:resp:{sid}:{id}
    agents: map<Id, Agent>,
    // history
    pushed: seq<Pushed>,
    given: map<Id, seq<Choice>>, // every value RPUSHed on each response list
    submitted: set<(Id, Choice)>,
    everCancelled: bool)

  ghost predicate Init(s: State) {
    && s.queue == [] && s.runner == Polling(s.now + POLL_MS) && s.waiters == []
    && s.keys == map[] && s.inflight == multiset{} && s.resp == map[] && s.agents == map[]
    && s.pushed == [] && s.given == map[] && s.submitted == {} && !s.everCancelled
    && s.cancelUntil == 0
  }

  predicate Live(s: State, id: Id) {
    id in s.keys && s.now < s.keys[id].expires
  }

  // ---------- steps ----------

  datatype Step =
    | Push(id: Id)                      // agent: RPUSH request
    | Await(id: Id)                     // agent: BLPOP begins
    | GiveUp(id: Id)                    // agent: BLPOP times out
    | RunnerStep
    | WaiterStep(i: nat)
    | UserSet(id: Id, choice: Choice)   // API: SET confirm key
    | UserPublish(id: Id)               // API: PUBLISH notification
    | RequestCancel
    | ClearCancel
    | Tick(d: nat)

  predicate Listening(w: Waiter) {
    !w.pc.Started? && !w.pc.Resolved? && !w.pc.Answered?
  }

  predicate CanStep(now: nat, w: Waiter) {
    match w.pc
    case Answered(_) => false
    case Blocked(wake) => w.ack || w.notes > 0 || now >= wake
    case _ => true
  }

  /** What one task does next (`wait_for_confirmation`, then deliver). */
  function WaiterNext(s: State, w: Waiter): Waiter {
    match w.pc
    case Started => w.(pc := Subscribed, ack := true)
    case Subscribed =>
      if Live(s, w.id) then w.(pc := Taking(s.keys[w.id].choice))
      else w.(pc := Head, deadline := s.now + CLARIFY_MS)
    case Head =>
      if s.now >= w.deadline then w.(pc := Resolved(TIMEOUT))
      else w.(pc := Blocked(Min(w.deadline, s.now + SLICE_MS)))
    case Blocked(_) =>
      if w.ack then w.(pc := CancelCheck, ack := false)
      else if w.notes > 0 then w.(pc := Woken, notes := w.notes - 1)
      else w.(pc := CancelCheck)
    case Woken =>
      if Live(s, w.id) then w.(pc := Taking(s.keys[w.id].choice)) else w.(pc := CancelCheck)
    case CancelCheck =>
      if s.now < s.cancelUntil then w.(pc := Resolved(CANCEL)) else w.(pc := Head)
    case Taking(c) => w.(pc := Resolved(c))
    case Resolved(c) => w.(pc := Answered(c))
    case Answered(_) => w
  }

  /** RPUSH on the response list: a blocked BLPOP is served at once, otherwise the list is kept. */
  function Deliver(s: State, id: Id, c: Choice): State {
    var s1 := s.(given := s.given[id := (if id in s.given then s.given[id] else []) + [c]]);
    if id in s.agents && s.agents[id].Waiting? then s1.(agents := s.agents[id := Got(c)])
    else s1.(resp := s.resp[id := RespList(c, s.now + RESP_TTL_MS)])
  }

  function StepWaiter(s: State, i: nat): State
    requires i < |s.waiters|
  {
    var w := s.waiters[i];
    var s1 := s.(waiters := s.waiters[i := WaiterNext(s, w)]);
    match w.pc
    case Taking(_) => s1.(keys := s.keys - {w.id})
    case Resolved(c) => Deliver(s1, w.id, c)
    case _ => s1
  }

  function StepRunner(s: State): State {
    match s.runner
    case Polling(_) =>
      if s.queue == [] then s.(runner := Polling(s.now + POLL_MS))
      else s.(runner := Handling(s.queue[0]), queue := s.queue[1..])
    case Handling(id) =>
      s.(runner := Polling(s.now + POLL_MS), waiters := s.waiters + [Waiter(id, Started, false, 0, 0)])
  }

  function Notify(ws: seq<Waiter>): (r: seq<Waiter>)
    ensures |r| == |ws|
    ensures forall i :: 0 <= i < |ws| ==>
      r[i] == if Listening(ws[i]) then ws[i].(notes := ws[i].notes + 1) else ws[i]
  {
    if ws == [] then [] else
      [if Listening(ws[0]) then ws[0].(notes := ws[0].notes + 1) else ws[0]] + Notify(ws[1..])
  }

  /** Every runner-side task is waiting and none has to act before time `t`. */
  ghost predicate Quiet(s: State, t: nat) {
    && s.runner.Polling? && t <= s.runner.due
    && forall i :: 0 <= i < |s.waiters| ==>
        || s.waiters[i].pc.Answered?
        || (s.waiters[i].pc.Blocked? && !s.waiters[i].ack && s.waiters[i].notes == 0 && t <= s.waiters[i].pc.wake)
  }

  ghost predicate Enabled(s: State, a: Step) {
    match a
    case Push(id) => id !in s.agents
    case Await(id) => id in s.agents && s.agents[id].Asked?
    case GiveUp(id) => id in s.agents && s.agents[id].Waiting? && s.now >= s.agents[id].until
    case RunnerStep => s.runner.Polling? ==> s.now >= s.runner.due
    case WaiterStep(i) => i < |s.waiters| && CanStep(s.now, s.waiters[i])
    case UserSet(_, _) => true
    case UserPublish(id) => id in s.inflight
    case RequestCancel => true
    case ClearCancel => true
    case Tick(d) => d > 0 && Quiet(s, s.now + d)
  }

  function StepAwait(s: State, id: Id): State {
    if id in s.resp && s.now < s.resp[id].expires then
      s.(agents := s.agents[id := Got(s.resp[id].value)], resp := s.resp - {id})
    else
      s.(agents := s.agents[id := Waiting(s.now + BLPOP_MS, id in s.given)])
  }

  function Apply(s: State, a: Step): State
    requires Enabled(s, a)
  {
    match a
    case Push(id) =>
      s.(queue := s.queue + [id], pushed := s.pushed + [Pushed(id, s.now, |s.queue|)],
         agents := s.agents[id := Asked])
    case Await(id) => StepAwait(s, id)
    case GiveUp(id) => s.(agents := s.agents[id := GaveUp(s.agents[id].late)])
    case RunnerStep => StepRunner(s)
    case WaiterStep(i) => StepWaiter(s, i)
    case UserSet(id, c) =>
      s.(keys := s.keys[id := KeyVal(c, s.now + KEY_TTL_MS)], inflight := s.inflight + multiset{id},
         submitted := s.submitted + {(id, c)})
    case UserPublish(id) => s.(inflight := s.inflight - multiset{id}, waiters := Notify(s.waiters))
    case RequestCancel => s.(cancelUntil := s.now + CANCEL_TTL_MS, everCancelled := true)
    case ClearCancel => s.(cancelUntil := 0)
    case Tick(d) => s.(now := s.now + d)
  }

  /** A run: an initial state and the states its steps lead through. */
  ghost predicate Run(trace: seq<State>, steps: seq<Step>) {
    && |trace| == |steps| + 1
    && Init(trace[0])
    && forall i :: 0 <= i < |steps| ==> Enabled(trace[i], steps[i]) && trace[i + 1] == Apply(trace[i], steps[i])
  }

  // ---------- invariants ----------

  function InHand(r: Runner): seq<Id> {
    if r.Polling? then [] else [r.id]
  }

  /** How many requests have left the queue. */
  function Popped(s: State): nat {
    |s.waiters| + |InHand(s.runner)|
  }

  /** Requests leave the queue in the order they were pushed, each for exactly one task. */
  ghost predicate Fifo(s: State) {
    && |s.pushed| == Popped(s) + |s.queue|
    && (forall i :: 0 <= i < |s.waiters| ==> s.waiters[i].id == s.pushed[i].id)
    && (!s.runner.Polling? ==> s.runner.id == s.pushed[|s.waiters|].id)
    && (forall i :: Popped(s) <= i < |s.pushed| ==> s.pushed[i].id == s.queue[i - Popped(s)])
    && (forall i, j :: 0 <= i < j < |s.pushed| ==> s.pushed[i].id != s.pushed[j].id)
    && (forall i :: 0 <= i < |s.pushed| ==> s.pushed[i].id in s.agents)
  }

  /** A response list was written at most once, by its own request's waiter. */
  ghost predicate GivenOk(s: State, i: nat)
    requires i < |s.pushed|
  {
    if i < |s.waiters| && s.waiters[i].pc.Answered?
    then s.pushed[i].id in s.given && s.given[s.pushed[i].id] == [s.waiters[i].pc.choice]
    else s.pushed[i].id !in s.given
  }

  ghost predicate Once(s: State) {
    && (forall i :: 0 <= i < |s.pushed| ==> GivenOk(s, i))
    && (forall id :: id in s.given ==> id in s.agents)
  }

  predicate HasChoice(pc: Pc) {
    pc.Taking? || pc.Resolved? || pc.Answered?
  }

  /** Where an answer may come from. */
  ghost predicate Legit(s: State, p: Pushed, deadline: nat, c: Choice) {
    || (p.id, c) in s.submitted
    || (c == CANCEL && s.everCancelled)
    || (c == TIMEOUT && p.at + CLARIFY_MS <= deadline <= s.now)
  }

  ghost predicate LegitOk(s: State, i: nat)
    requires i < |s.waiters| <= |s.pushed|
  {
    HasChoice(s.waiters[i].pc) ==> Legit(s, s.pushed[i], s.waiters[i].deadline, s.waiters[i].pc.choice)
  }

  ghost predicate Sound(s: State) {
    && |s.waiters| <= |s.pushed|
    && (forall i :: 0 <= i < |s.waiters| ==> LegitOk(s, i))
    && (forall id :: id in s.keys ==> (id, s.keys[id].choice) in s.submitted)
    && (s.cancelUntil > 0 ==> s.everCancelled)
  }

  /** No wake-up is lost: an unread answer leaves a notification behind, sent or about to be. */
  ghost predicate AwakeOk(s: State, i: nat)
    requires i < |s.waiters|
  {
    var w := s.waiters[i];
    (w.pc.Head? || w.pc.Blocked? || w.pc.CancelCheck?) && Live(s, w.id) ==> w.notes > 0 || w.id in s.inflight
  }

  ghost predicate Awake(s: State) {
    forall i :: 0 <= i < |s.waiters| ==> AwakeOk(s, i)
  }

  /** The latest time at which request `p` can still be unanswered. */
  function Bound(p: Pushed): nat {
    p.at + (p.ahead + 1) * POLL_MS + CLARIFY_MS
  }

  function Due(s: State): nat {
    if s.runner.Polling? then s.runner.due else s.now + POLL_MS
  }

  ghost predicate InTime(now: nat, w: Waiter, p: Pushed) {
    match w.pc
    case Started => p.at <= now && now + CLARIFY_MS <= Bound(p)
    case Subscribed => p.at <= now && now + CLARIFY_MS <= Bound(p)
    case Head => p.at + CLARIFY_MS <= w.deadline <= Bound(p) && now <= w.deadline
    case Blocked(wake) => p.at + CLARIFY_MS <= w.deadline <= Bound(p) && now <= wake <= w.deadline
    case Woken => p.at + CLARIFY_MS <= w.deadline <= Bound(p) && now <= w.deadline
    case CancelCheck => p.at + CLARIFY_MS <= w.deadline <= Bound(p) && now <= w.deadline
    case Answered(_) => true
    case _ => now <= Bound(p)
  }

  /** Request `i` is ahead of its bound, wherever it is. */
  ghost predicate TimeOk(s: State, i: nat)
    requires i < |s.pushed|
  {
    && s.pushed[i].at <= s.now
    && if i < |s.waiters| then InTime(s.now, s.waiters[i], s.pushed[i])
       else if i < Popped(s) then s.now + CLARIFY_MS <= Bound(s.pushed[i])
       else Due(s) + (i - Popped(s)) * POLL_MS + CLARIFY_MS <= Bound(s.pushed[i])
  }

  ghost predicate Timed(s: State) {
    && s.now <= Due(s) <= s.now + POLL_MS
    && (forall i :: 0 <= i < |s.pushed| ==> TimeOk(s, i))
  }

  /** What the agent thread behind request `p` has been told. */
  ghost predicate AgentOk(s: State, p: Pushed) {
    && p.id in s.agents
    && match s.agents[p.id]
       case Asked => p.id in s.given ==> p.id in s.resp
       case Waiting(until, late) => p.at + BLPOP_MS <= until && (late <==> p.id in s.given)
       case Got(c) => p.id in s.given && s.given[p.id] == [c]
       case GaveUp(late) => late || p.ahead >= 59
  }

  ghost predicate Told(s: State) {
    && (forall i :: 0 <= i < |s.pushed| ==> AgentOk(s, s.pushed[i]))
    && (forall id :: id in s.resp ==> id in s.given && s.given[id] == [s.resp[id].value])
  }

  ghost predicate Inv(s: State) {
    Fifo(s) && Once(s) && Sound(s) && Awake(s) && Timed(s) && Told(s)
  }
}
