/** One single-agent turn seen three ways: the runner's accumulator and event log, the stored
    message row, and the browsers that fold the log.

    The steps of the reader loop (chunks), the prompt coroutine (clarify requests, finalize, done),
    the waiter tasks (clarify answers) and everything else in the conversation interleave freely.
    A stored-row write is one step together with the accumulator change it saves.
 */
module Turn {
  import opened Wrappers
  import opened Chat

  const COMPLETE := "complete"
  const CANCELLED := "cancelled"

  datatype Row = Row(text: string, status: string, clarifies: seq<Entry>)

  datatype Phase = Running | Finalized | Finished

  /** How far one clarify question has come. */
  datatype Stage = Recorded(question: string) | Announced | Responded(choice: string) | Closed

  datatype State = State(
    cid: Id, mid: Id,
    base: nat,                   // length of the log when the message row was created
    log: seq<Event>,
    row: Row,
    begun: bool,                 // start was published
    phase: Phase,
    acc: string,                 // acc["text"]
    unsent: Option<string>,      // a chunk appended to acc whose token is not published yet
    clarifies: seq<Entry>,       // acc["clarifies"]
    cancelled: bool,             // acc["cancelled"]
    stages: map<Id, Stage>,
    // history
    sent: string,                // the published deltas, concatenated
    doneText: string,            // the text carried by done
    late: nat)                   // chunks that arrived between finalize and done

  predicate Mentions(b: Body, id: Id) {
    (b.ConfirmRequest? && b.request.id == id) || (b.ConfirmResponse? && b.requestId == id)
  }

  /** An event that is about something else: another message or another question. */
  predicate Foreign(s: State, e: Event) {
    && e.conversation == s.cid
    && (e.body.ConfirmRequest? || e.body.ConfirmResponse? || e.body.mid != s.mid)
    && forall id :: id in s.stages ==> !Mentions(e.body, id)
  }

  /** Events that decorate the message without touching its text or status. */
  predicate Side(b: Body) {
    b.ToolCall? || b.Thought? || b.Plan? || b.File?
  }

  ghost predicate Init(s: State) {
    && s.base == |s.log|
    && (forall i :: 0 <= i < |s.log| ==> Foreign(s, s.log[i]))
    && s.row == Row("", STREAMING, [])
    && !s.begun && s.phase == Running && s.acc == "" && s.unsent == None && s.clarifies == []
    && !s.cancelled && s.stages == map[] && s.sent == "" && s.late == 0
  }

  datatype Step =
    | Begin
    | Chunk(delta: string)       // on_update: acc["text"] += delta
    | SendToken                  //            then publish
    | Decorate(body: Body)
    | NoteCancel
    | Record(id: Id, question: string)
    | Announce(id: Id, question: string)
    | Respond(id: Id, choice: string)
    | Close(id: Id)
    | Finalize(cancelled: bool)  // the status was decided from the flag a little earlier
    | PublishDone
    | Elsewhere(e: Event)

  ghost predicate Enabled(s: State, a: Step) {
    match a
    case Begin => !s.begun
    case Chunk(d) => s.begun && d != "" && s.unsent.None?
    case SendToken => s.unsent.Some?
    case Decorate(b) => s.begun && Side(b) && b.mid == s.mid
    case NoteCancel => s.begun
    case Record(id, _) =>
      && s.begun && s.phase.Running? && id !in s.stages
      && forall i :: 0 <= i < |s.log| ==> !Mentions(s.log[i].body, id)
    case Announce(id, q) => id in s.stages && s.stages[id] == Recorded(q)
    case Respond(id, _) => id in s.stages && s.stages[id] == Announced
    case Close(id) => id in s.stages && s.stages[id].Responded?
    case Finalize(cancelled) =>
      && s.begun && s.phase.Running? && (cancelled ==> s.cancelled)
      && forall id :: id in s.stages ==> !s.stages[id].Recorded?
    case PublishDone => s.phase.Finalized?
    case Elsewhere(e) => Foreign(s, e)
  }

  function OutcomeOf(choice: string): string {
    if choice == "已取消" then CANCELLED else if choice == "超时" then "timeout" else "answered"
  }

  /** `_update_clarify`: every entry with this id gets the outcome. */
  function Settle(es: seq<Entry>, id: Id, status: string, choice: string): (r: seq<Entry>)
    ensures |r| == |es|
    ensures forall i :: 0 <= i < |es| ==>
        r[i] == if es[i].id == id then es[i].(status := status, choice := choice) else es[i]
  {
    if es == [] then []
    else
      [if es[0].id == id then es[0].(status := status, choice := choice) else es[0]]
      + Settle(es[1..], id, status, choice)
  }

  function Publish(s: State, b: Body): State {
    s.(log := s.log + [Event(s.cid, b)])
  }

  function Next(s: State, a: Step): State
    requires Enabled(s, a)
  {
    match a
    case Begin => Publish(s, Start(s.mid)).(begun := true)
    case Chunk(d) =>
      s.(acc := s.acc + d, unsent := Some(d), late := if s.phase.Finalized? then s.late + 1 else s.late)
    case SendToken =>
      Publish(s, Token(s.mid, s.unsent.value)).(unsent := None, sent := s.sent + s.unsent.value)
    case Decorate(b) => Publish(s, b)
    case NoteCancel => s.(cancelled := true)
    case Record(id, q) =>
      var es := s.clarifies + [Entry(id, q, PENDING, "")];
      s.(clarifies := es, row := s.row.(clarifies := es), stages := s.stages[id := Recorded(q)])
    case Announce(id, q) =>
      Publish(s, ConfirmRequest(s.mid, Request(id, q))).(stages := s.stages[id := Announced])
    case Respond(id, c) =>
      Publish(s, ConfirmResponse(s.mid, id, c)).(stages := s.stages[id := Responded(c)])
    case Close(id) =>
      var c := s.stages[id].choice;
      var es := Settle(s.clarifies, id, OutcomeOf(c), c);
      s.(clarifies := es, row := s.row.(clarifies := es), stages := s.stages[id := Closed])
    case Finalize(c) => s.(row := Row(s.acc, if c then CANCELLED else COMPLETE, s.clarifies), phase := Finalized)
    case PublishDone =>
      Publish(s, Done(s.mid, s.row.status, Some(s.acc))).(phase := Finished, doneText := s.acc)
    case Elsewhere(e) => s.(log := s.log + [e])
  }

  ghost predicate Run(trace: seq<State>, steps: seq<Step>) {
    && |trace| == |steps| + 1
    && Init(trace[0])
    && forall i :: 0 <= i < |steps| ==> Enabled(trace[i], steps[i]) && trace[i + 1] == Next(trace[i], steps[i])
  }

  // ---------- what a browser shows ----------

  /** The text a client that followed the log shows. */
  function Shown(s: State): string {
    if s.phase.Finished? then s.doneText else s.sent
  }

  function ShownStatus(s: State): string {
    if s.phase.Finished? then s.row.status else STREAMING
  }

  /** A message that has seen nothing of the turn yet: absent, or the blank placeholder. */
  predicate Blank(m: Option<Message>) {
    m.Some? ==> m.value.text == "" && m.value.status == STREAMING
  }

  ghost predicate Shows(m: Option<Message>, s: State) {
    if s.begun then m.Some? && m.value.text == Shown(s) && m.value.status == ShownStatus(s) else Blank(m)
  }

  /** The events of the log that belong to the message. */
  predicate OwnEvent(s: State, b: Body) {
    || b == Start(s.mid)
    || (b.Token? && b.mid == s.mid)
    || (Side(b) && b.mid == s.mid)
    || (s.phase.Finished? && b == Done(s.mid, s.row.status, Some(s.doneText)))
  }

  ghost predicate LogOk(s: State, i: nat)
    requires i < |s.log|
  {
    var b := s.log[i].body;
    && s.log[i].conversation == s.cid
    && (b.ConfirmRequest? || b.ConfirmResponse? || b.mid != s.mid || (i >= s.base && OwnEvent(s, b)))
  }

  /** How far publishing has come beside the row. */
  predicate Published(s: State) {
    && (s.late == 0 ==> s.acc == s.row.text)
    && (s.late == 1 && s.unsent.Some? ==> s.sent == s.row.text)
    && ((s.late == 1 && s.unsent.None?) || s.late > 1 ==> |s.sent| > |s.row.text|)
  }

  /** Accumulator, row and phases. */
  ghost predicate Core(s: State) {
    && s.base <= |s.log|
    && s.acc == s.sent + (if s.unsent.Some? then s.unsent.value else "")
    && (s.phase.Running? ==> s.row.status == STREAMING && s.row.text == "" && s.late == 0)
    && (!s.phase.Running? ==> s.begun && (s.row.status == COMPLETE || s.row.status == CANCELLED))
    && (!s.begun ==> s.sent == "" && s.unsent.None? && s.phase.Running? && s.stages == map[])
    && (s.unsent.Some? ==> s.unsent.value != "")
    && (s.phase.Finalized? ==> |s.row.text| + s.late <= |s.acc| && (s.late == 0 ==> s.acc == s.row.text))
    && (s.phase.Finalized? ==> Published(s))
    && (s.phase.Finished? ==> |s.row.text| + s.late <= |s.doneText| && (s.late == 0 ==> s.doneText == s.row.text))
  }

  ghost predicate Inv(s: State) {
    Core(s) && forall i :: 0 <= i < |s.log| ==> LogOk(s, i)
  }

  lemma StepCore(s: State, a: Step)
    requires Core(s) && Enabled(s, a)
    ensures Core(Next(s, a))
  {}

  lemma StepFrame(s: State, a: Step)
    requires Enabled(s, a)
    ensures s.log <= Next(s, a).log && Next(s, a).base == s.base
    ensures Next(s, a).cid == s.cid && Next(s, a).mid == s.mid
    ensures s.phase.Finished? ==>
        && Next(s, a).phase.Finished? && Next(s, a).row.status == s.row.status
        && Next(s, a).doneText == s.doneText
  {}

  /** An old entry of the log stays in order, and so is the new one. */
  lemma StepLog(s: State, a: Step, i: nat)
    requires Inv(s) && Enabled(s, a) && i < |Next(s, a).log|
    ensures LogOk(Next(s, a), i)
  {
    StepFrame(s, a);
    if i < |s.log| { assert LogOk(s, i); }
  }

  lemma StepInv(s: State, a: Step)
    requires Inv(s) && Enabled(s, a)
    ensures Inv(Next(s, a))
    ensures s.log <= Next(s, a).log && Next(s, a).base == s.base
    ensures Next(s, a).cid == s.cid && Next(s, a).mid == s.mid
  {
    hide Next, Enabled, Core, LogOk;
    StepCore(s, a);
    StepFrame(s, a);
    forall i | 0 <= i < |Next(s, a).log| ensures LogOk(Next(s, a), i) {
      StepLog(s, a, i);
    }
  }

  lemma {:induction false} RunInv(trace: seq<State>, steps: seq<Step>, i: nat)
    requires Run(trace, steps) && i < |trace|
    ensures Inv(trace[i])
    ensures trace[i].cid == trace[0].cid && trace[i].mid == trace[0].mid && trace[i].base == trace[0].base
  {
    if i > 0 {
      RunInv(trace, steps, i - 1);
      StepInv(trace[i - 1], steps[i - 1]);
    }
  }

  lemma StepShows(s: State, a: Step, m: Option<Message>)
    requires Inv(s) && Enabled(s, a) && Shows(m, s)
    ensures var t := Next(s, a);
        if t.log == s.log then Shows(m, t)
        else |t.log| == |s.log| + 1 && t.log == s.log + [t.log[|s.log|]] &&
             Shows(Follow(m, s.mid, t.log[|s.log|].body), t)
  {
    match a
    case Begin =>
    case Chunk(_) =>
    case SendToken =>
    case Decorate(_) =>
    case PublishDone =>
    case Elsewhere(_) =>
    case _ =>
  }

  /** A client attached at or before the turn's first event, holding at most the blank placeholder, always shows
      the published deltas, and after done the text of done. */
  lemma {:induction false} AttachedShows(trace: seq<State>, steps: seq<Step>, j: nat, p: nat, m: Option<Message>)
    requires Run(trace, steps) && j < |trace| && p <= trace[0].base && Blank(m)
    ensures p <= |trace[j].log| && Shows(FollowAll(m, trace[j].mid, trace[j].log[p..]), trace[j])
  {
    var s := trace[j];
    RunInv(trace, steps, j);
    if j == 0 {
      var es := s.log[p..];
      forall i | 0 <= i < |es| ensures Follow(m, s.mid, es[i].body) == m {
        assert Foreign(s, s.log[p + i]);
      }
      FollowNone(m, s.mid, es);
    } else {
      hide Next, Enabled, LogOk, Shows;
      var r := trace[j - 1];
      AttachedShows(trace, steps, j - 1, p, m);
      RunInv(trace, steps, j - 1);
      var seen := FollowAll(m, r.mid, r.log[p..]);
      StepShows(r, steps[j - 1], seen);
      if s.log != r.log {
        var e := s.log[|r.log|];
        assert s.log[p..] == r.log[p..] + [e];
        FollowOne(m, r.mid, r.log[p..], e);
      } else {
        assert s.log[p..] == r.log[p..];
      }
    }
  }
}
