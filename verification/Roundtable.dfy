/** A roundtable turn: N agents answer in parallel into one log, then one merge.

    The slot streams interleave freely.  Stopping a client cancels its reader, which may cut off a chunk that is
    already in the buffer but not yet published (`cut`).  Stopping one whose reader has failed raises: a slot is then
    over without a reply event, and a merge ends the turn with nothing stored.
 */
module Roundtable {
  import opened Wrappers
  import opened Chat
  import opened Text

  /** How a slot's prompt ended, and whether its result is in yet. */
  datatype Pc =
    | Talking
    | Stopped(status: string)   // rt_reply_done still to be published
    | Ended(status: string)
    | Crashed                   // stopping its client raised, no matter what it has said

  datatype Slot = Slot(buf: string, unsent: string, pc: Pc, sent: string, cut: string)

  datatype Phase = Answering | Merging | Lost | Finalized | Finished

  datatype Row = Row(replies: seq<Reply>, merged: Merged, status: string)

  datatype State = State(
    cid: Id, mid: Id, agents: seq<Id>,
    base: nat, log: seq<Event>, row: Option<Row>,
    begun: bool, phase: Phase, mergeBegun: bool,
    slots: seq<Slot>,
    merged: string, mergeUnsent: string, mergeSent: string)

  /** Texts shown for a slot that failed without a word (`silent`) or raised (`CRASHED`). */
  const SILENT := "（该助手作答失败）"
  const CRASHED := "（作答失败）"

  function SilentText(agent: Id, status: string): string {
    if status == "timeout" then "（" + agent + " 超时未响应）" else SILENT
  }

  function SlotsOf(agents: seq<Id>): (r: seq<RtAgent>)
    ensures |r| == |agents| && forall i :: 0 <= i < |agents| ==> r[i] == RtAgent(i, agents[i])
  {
    seq(|agents|, i requires 0 <= i < |agents| => RtAgent(i, agents[i]))
  }

  ghost predicate Init(s: State) {
    && s.base == |s.log|
    && (forall i :: 0 <= i < |s.log| ==> s.log[i].conversation == s.cid && !Own(s, s.log[i].body))
    && s.row == None && !s.begun && s.phase == Answering && !s.mergeBegun
    && |s.slots| == |s.agents|
    && (forall i :: 0 <= i < |s.slots| ==> s.slots[i] == Slot("", "", Talking, "", ""))
    && s.merged == "" && s.mergeUnsent == "" && s.mergeSent == ""
  }

  /** Is the event about this message? */
  predicate Own(s: State, b: Body) {
    !b.ConfirmRequest? && !b.ConfirmResponse? && b.mid == s.mid
  }

  datatype Step =
    | Begin
    | SlotChunk(i: nat, delta: string)
    | SlotSend(i: nat)
    | SlotStop(i: nat, status: string)     // complete, timeout or error
    | SlotReply(i: nat)
    | SlotCrash(i: nat)
    | Decorate(file: FileRef)
    | MergeBegin
    | MergeCopy
    | MergeChunk(delta: string)
    | MergeSend
    | MergeFinalize
    | MergeCrash
    | GiveUp(status: string)               // cancelled, or no usable reply
    | PublishError
    | PublishDone
    | Elsewhere(e: Event)

  predicate Over(p: Pc) { p.Ended? || p.Crashed? }

  predicate AllOver(s: State) {
    forall i :: 0 <= i < |s.slots| ==> Over(s.slots[i].pc)
  }

  function TextOf(slot: Slot): string {
    if slot.pc.Crashed? then CRASHED else slot.buf
  }

  function StatusOf(slot: Slot): string {
    if slot.pc.Ended? || slot.pc.Stopped? then slot.pc.status else "error"
  }

  predicate Usable(slot: Slot) {
    StatusOf(slot) == "complete" && !IsBlank(TextOf(slot))
  }

  /** `ok_slots`: the slots worth merging, in slot order. */
  function OkSlots(slots: seq<Slot>): (r: seq<nat>)
    ensures forall k :: 0 <= k < |r| ==> r[k] < |slots| && Usable(slots[r[k]])
    ensures forall i :: 0 <= i < |slots| && Usable(slots[i]) ==> i in r
  {
    if slots == [] then []
    else
      var n := |slots| - 1;
      var front := OkSlots(slots[..n]);
      if Usable(slots[n]) then front + [n] else front
  }

  predicate Enabled(s: State, a: Step) {
    match a
    case Begin => !s.begun
    case SlotChunk(i, d) => s.begun && i < |s.slots| && s.slots[i].pc == Talking && d != "" && s.slots[i].unsent == ""
    case SlotSend(i) => i < |s.slots| && s.slots[i].pc == Talking && s.slots[i].unsent != ""
    case SlotStop(i, st) =>
      s.begun && i < |s.slots| && s.slots[i].pc == Talking && st in {"complete", "timeout", "error"}
    case SlotReply(i) => i < |s.slots| && s.slots[i].pc.Stopped?
    case SlotCrash(i) => s.begun && i < |s.slots| && s.slots[i].pc == Talking
    case Decorate(_) => s.begun
    case MergeBegin => s.begun && s.phase == Answering && AllOver(s) && OkSlots(s.slots) != []
    case MergeCopy => s.phase == Merging && |OkSlots(s.slots)| == 1 && s.merged == ""
    case MergeChunk(d) => s.phase == Merging && |OkSlots(s.slots)| > 1 && d != "" && s.mergeUnsent == ""
    case MergeSend => s.phase == Merging && s.mergeUnsent != ""
    case MergeFinalize => s.phase == Merging && (|OkSlots(s.slots)| == 1 ==> s.merged != "" && s.mergeUnsent == "")
    case MergeCrash => s.phase == Merging && |OkSlots(s.slots)| > 1
    case GiveUp(st) =>
      && s.begun && s.phase == Answering && AllOver(s)
      && (st == "cancelled" || (st == "error" && OkSlots(s.slots) == []))
    case PublishError => s.phase == Finalized && s.row.Some? && s.row.value.status == "error"
    case PublishDone => s.phase == Finalized && s.row.Some?
    case Elsewhere(e) => e.conversation == s.cid && !Own(s, e.body)
  }

  function Publish(s: State, b: Body): State {
    s.(log := s.log + [Event(s.cid, b)])
  }

  function RepliesOf(agents: seq<Id>, slots: seq<Slot>): (r: seq<Reply>)
    requires |agents| == |slots|
    ensures |r| == |agents|
    ensures forall i :: 0 <= i < |r| ==> r[i] == Reply(agents[i], TextOf(slots[i]), StatusOf(slots[i]))
  {
    seq(|agents|, i requires 0 <= i < |agents| => Reply(agents[i], TextOf(slots[i]), StatusOf(slots[i])))
  }

  function Next(s: State, a: Step): State
    requires |s.slots| == |s.agents| && Enabled(s, a)
  {
    match a
    case Begin => Publish(s, RtStart(s.mid, SlotsOf(s.agents))).(begun := true)
    case SlotChunk(i, d) => s.(slots := s.slots[i := s.slots[i].(buf := s.slots[i].buf + d, unsent := d)])
    case SlotSend(i) =>
      var u := s.slots[i].unsent;
      Publish(s, RtToken(s.mid, i, u)).(slots := s.slots[i := s.slots[i].(unsent := "", sent := s.slots[i].sent + u)])
    case SlotStop(i, st) =>
      var w := s.slots[i];
      var text := if w.buf == "" && st != "complete" then SilentText(s.agents[i], st) else w.buf;
      s.(slots := s.slots[i := Slot(text, "", Stopped(st), w.sent, w.unsent)])
    case SlotReply(i) =>
      var st := s.slots[i].pc.status;
      Publish(s, RtReplyDone(s.mid, i, st)).(slots := s.slots[i := s.slots[i].(pc := Ended(st))])
    case SlotCrash(i) =>
      var w := s.slots[i];
      s.(slots := s.slots[i := Slot(w.buf, "", Crashed, w.sent, w.unsent)])
    case Decorate(f) => Publish(s, File(s.mid, f))
    case MergeBegin => Publish(s, MergeStart(s.mid)).(phase := Merging, mergeBegun := true)
    case MergeCopy =>
      var t := TextOf(s.slots[OkSlots(s.slots)[0]]);
      s.(merged := t, mergeUnsent := t)
    case MergeChunk(d) => s.(merged := s.merged + d, mergeUnsent := d)
    case MergeSend =>
      Publish(s, MergeToken(s.mid, s.mergeUnsent)).(mergeUnsent := "", mergeSent := s.mergeSent + s.mergeUnsent)
    case MergeFinalize =>
      s.(row := Some(Row(RepliesOf(s.agents, s.slots), Merged(s.merged, "complete"), "complete")), phase := Finalized)
    case MergeCrash => s.(phase := Lost)
    case GiveUp(st) =>
      s.(row := Some(Row(RepliesOf(s.agents, s.slots), Merged("", st), st)), phase := Finalized)
    case PublishError => Publish(s, Error(s.mid))
    case PublishDone => Publish(s, Done(s.mid, s.row.value.status, None)).(phase := Finished)
    case Elsewhere(e) => s.(log := s.log + [e])
  }

  ghost predicate Run(trace: seq<State>, steps: seq<Step>) {
    && |trace| == |steps| + 1
    && Init(trace[0])
    && forall i :: 0 <= i < |steps| ==>
        |trace[i].slots| == |trace[i].agents| && Enabled(trace[i], steps[i]) && trace[i + 1] == Next(trace[i], steps[i])
  }

  // ---------- invariants ----------

  predicate IsMerge(s: State, b: Body) { (b.MergeStart? || b.MergeToken?) && b.mid == s.mid }

  predicate IsSlot(s: State, b: Body) { (b.RtToken? || b.RtReplyDone?) && b.mid == s.mid }

  /** The runner's buffer is what it published, then what was cut off; or a stand-in for silence. */
  predicate SlotOk(agent: Id, w: Slot) {
    match w.pc
    case Talking => w.buf == w.sent + w.unsent && w.cut == ""
    case Crashed => w.unsent == "" && w.buf == w.sent + w.cut
    case Stopped(st) => StoppedOk(agent, w, st)
    case Ended(st) => StoppedOk(agent, w, st)
  }

  predicate StoppedOk(agent: Id, w: Slot, st: string) {
    && w.unsent == "" && st in {"complete", "timeout", "error"}
    && w.buf == if w.sent + w.cut == "" && st != "complete" then SilentText(agent, st) else w.sent + w.cut
  }

  ghost predicate SlotsInv(s: State) {
    |s.slots| == |s.agents| && forall i :: 0 <= i < |s.slots| ==> SlotOk(s.agents[i], s.slots[i])
  }

  ghost predicate PhaseInv(s: State) {
    && |s.slots| == |s.agents| && s.base <= |s.log|
    && (s.phase != Answering ==> s.begun && AllOver(s))
    && (s.mergeBegun <==> s.phase == Merging || s.phase == Lost || (s.row.Some? && s.row.value.status == "complete"))
    && (s.row.Some? <==> s.phase == Finalized || s.phase == Finished)
    && (!s.begun ==> forall i :: 0 <= i < |s.slots| ==> s.slots[i] == Slot("", "", Talking, "", ""))
    && (s.phase == Answering ==> s.merged == "" && s.mergeUnsent == "" && s.mergeSent == "")
    && (s.phase == Merging || s.phase == Lost ==> s.merged == s.mergeSent + s.mergeUnsent)
    && (s.row.Some? ==>
          && s.row.value.replies == RepliesOf(s.agents, s.slots)
          && s.row.value.merged == Merged(s.mergeSent + s.mergeUnsent, s.row.value.status))
  }

  ghost predicate Inv(s: State) {
    SlotsInv(s) && PhaseInv(s)
  }

  /** What never changes, and what only the phase protects. */
  ghost predicate Steady(s: State, t: State) {
    t.cid == s.cid && t.mid == s.mid && t.base == s.base && t.agents == s.agents && s.log <= t.log
  }

  predicate SlotStep(a: Step) {
    a.SlotChunk? || a.SlotSend? || a.SlotStop? || a.SlotReply? || a.SlotCrash?
  }

  lemma SlotStepInv(s: State, a: Step)
    requires Inv(s) && Enabled(s, a) && SlotStep(a)
    ensures Inv(Next(s, a)) && Steady(s, Next(s, a))
  {
    var t := Next(s, a);
    assert AllOver(s) ==> Over(s.slots[a.i].pc);
    assert t == s.(slots := t.slots, log := t.log);
    assert t.slots == s.slots[a.i := t.slots[a.i]];
    assert SlotOk(s.agents[a.i], t.slots[a.i]);
  }

  predicate MergeStep(a: Step) {
    a.MergeBegin? || a.MergeCopy? || a.MergeChunk? || a.MergeSend? || a.MergeFinalize? || a.MergeCrash?
  }

  lemma MergeStepPhase(s: State, a: Step)
    requires PhaseInv(s) && Enabled(s, a) && MergeStep(a)
    ensures PhaseInv(Next(s, a))
  {
    match a
    case MergeBegin =>
    case MergeCopy =>
    case MergeChunk(_) =>
    case MergeSend =>
    case MergeFinalize =>
    case MergeCrash =>
  }

  lemma OtherStepPhase(s: State, a: Step)
    requires PhaseInv(s) && Enabled(s, a) && !SlotStep(a) && !MergeStep(a)
    ensures PhaseInv(Next(s, a))
  {}

  lemma OtherStepInv(s: State, a: Step)
    requires Inv(s) && Enabled(s, a) && !SlotStep(a)
    ensures SlotsInv(Next(s, a)) && Steady(s, Next(s, a))
  {}

  lemma StepInv(s: State, a: Step)
    requires Inv(s) && Enabled(s, a)
    ensures Inv(Next(s, a)) && Steady(s, Next(s, a))
  {
    if SlotStep(a) {
      SlotStepInv(s, a);
    } else {
      OtherStepInv(s, a);
      if MergeStep(a) { MergeStepPhase(s, a); } else { OtherStepPhase(s, a); }
    }
  }

  lemma {:induction false} RunInv(trace: seq<State>, steps: seq<Step>, i: nat)
    requires Run(trace, steps) && i < |trace|
    ensures Inv(trace[i])
    ensures trace[i].cid == trace[0].cid && trace[i].mid == trace[0].mid && trace[i].base == trace[0].base
    ensures trace[i].agents == trace[0].agents
  {
    if i > 0 {
      RunInv(trace, steps, i - 1);
      StepInv(trace[i - 1], steps[i - 1]);
    }
  }

  // ---------- what a browser shows ----------

  function SlotShown(pc: Pc): string {
    if pc.Ended? then pc.status else STREAMING
  }

  function MergeShown(s: State): string {
    if !s.mergeBegun then "pending" else if s.phase == Finished then "complete" else STREAMING
  }

  /** A message that has seen nothing of the turn: absent, or the placeholder row. */
  ghost predicate Fresh(m: Option<Message>, s: State) {
    m.Some? ==>
      && m.value.replies == BlankReplies(SlotsOf(s.agents))
      && m.value.merged == Some(Merged("", "pending"))
  }

  ghost predicate Shows(m: Option<Message>, s: State) {
    && |s.slots| == |s.agents|
    && if !s.begun then Fresh(m, s)
       else
         && m.Some? && |m.value.replies| == |s.slots|
         && (forall i :: 0 <= i < |s.slots| ==>
               m.value.replies[i] == Reply(s.agents[i], s.slots[i].sent, SlotShown(s.slots[i].pc)))
         && m.value.merged == Some(Merged(s.mergeSent, MergeShown(s)))
  }

  /** Agents announced in slot order need no sorting. */
  lemma {:induction false} SortedAlready(agents: seq<RtAgent>)
    requires forall i, j :: 0 <= i < j < |agents| ==> agents[i].slot <= agents[j].slot
    ensures SortBySlot(agents) == agents
  {
    if agents != [] { SortedAlready(agents[1..]); }
  }

  lemma BeginShows(s: State, m: Option<Message>)
    requires Inv(s) && Enabled(s, Begin) && Shows(m, s)
    ensures Shows(Follow(m, s.mid, RtStart(s.mid, SlotsOf(s.agents))), Next(s, Begin))
  {
    SortedAlready(SlotsOf(s.agents));
  }

  /** What one step does to a client that shows the state: nothing if it publishes nothing, else exactly what the
      event says. */
  ghost predicate Followed(s: State, t: State, m: Option<Message>) {
    if t.log == s.log then Shows(m, t)
    else |t.log| == |s.log| + 1 && t.log == s.log + [t.log[|s.log|]] && Shows(Follow(m, s.mid, t.log[|s.log|].body), t)
  }

  /** Reply `i` of the message is what slot `i` of the state shows. */
  ghost predicate ShowsSlot(m: Message, s: State, i: nat) {
    && i < |s.slots| == |s.agents| && i < |m.replies|
    && m.replies[i] == Reply(s.agents[i], s.slots[i].sent, SlotShown(s.slots[i].pc))
  }

  /** Where only slot `i` and reply `i` moved, showing slot `i` is enough. */
  lemma OneSlotShows(s: State, t: State, i: nat, m: Message, m': Message)
    requires Shows(Some(m), s) && s.begun && i < |s.slots| && |t.slots| == |s.slots|
    requires t == s.(slots := s.slots[i := t.slots[i]], log := t.log)
    requires |m'.replies| == |m.replies| && m' == m.(replies := m.replies[i := m'.replies[i]])
    requires ShowsSlot(m', t, i)
    ensures Shows(Some(m'), t)
  {}

  lemma SlotMoves(s: State, a: Step, m: Message)
    requires Inv(s) && Enabled(s, a) && SlotStep(a) && s.begun && ShowsSlot(m, s, a.i)
    ensures var t := Next(s, a);
        && t == s.(slots := s.slots[a.i := t.slots[a.i]], log := t.log)
        && (t.log == s.log ==> ShowsSlot(m, t, a.i))
        && (t.log != s.log ==>
              && |t.log| == |s.log| + 1 && t.log == s.log + [t.log[|s.log|]]
              && var b := t.log[|s.log|].body;
              && b.mid == s.mid && !b.ConfirmRequest? && !b.ConfirmResponse?
              && var m' := Touch(m, b);
              && |m'.replies| == |m.replies| && m' == m.(replies := m.replies[a.i := m'.replies[a.i]])
              && ShowsSlot(m', t, a.i))
  {}

  lemma SlotStepShows(s: State, a: Step, m: Option<Message>)
    requires Inv(s) && Enabled(s, a) && SlotStep(a) && Shows(m, s)
    ensures Followed(s, Next(s, a), m)
  {
    hide Next, Enabled, Touch, ShowsSlot;
    var t := Next(s, a);
    SlotReady(s, a, m);
    SlotMoves(s, a, m.value);
    OneSlotShows(s, t, a.i, m.value, if t.log == s.log then m.value else Touch(m.value, t.log[|s.log|].body));
  }

  lemma SlotReady(s: State, a: Step, m: Option<Message>)
    requires Inv(s) && Enabled(s, a) && SlotStep(a) && Shows(m, s)
    ensures s.begun && a.i < |s.slots| && m.Some? && |m.value.replies| == |s.slots| && ShowsSlot(m.value, s, a.i)
  {}

  lemma MergeStepShows(s: State, a: Step, m: Option<Message>)
    requires Inv(s) && Enabled(s, a) && MergeStep(a) && Shows(m, s)
    ensures Followed(s, Next(s, a), m)
  {
    hide OkSlots, SlotOk, Usable;
    match a
    case MergeBegin =>
    case MergeCopy =>
    case MergeChunk(_) =>
    case MergeSend =>
    case MergeFinalize =>
    case MergeCrash =>
  }

  lemma OtherStepShows(s: State, a: Step, m: Option<Message>)
    requires Inv(s) && Enabled(s, a) && !SlotStep(a) && !MergeStep(a) && !a.Begin? && Shows(m, s)
    ensures Followed(s, Next(s, a), m)
  {
    hide OkSlots, SlotOk, Usable;
    match a
    case Decorate(_) =>
    case GiveUp(_) =>
    case PublishError =>
    case PublishDone =>
    case Elsewhere(_) =>
  }

  lemma StepShows(s: State, a: Step, m: Option<Message>)
    requires Inv(s) && Enabled(s, a) && Shows(m, s)
    ensures Followed(s, Next(s, a), m)
  {
    if SlotStep(a) {
      SlotStepShows(s, a, m);
    } else if MergeStep(a) {
      MergeStepShows(s, a, m);
    } else if a.Begin? {
      BeginShows(s, m);
    } else {
      OtherStepShows(s, a, m);
    }
  }

  /** What a client that starts from `m` and replays the log from position `p` shows. */
  function Replay(m: Option<Message>, s: State, p: nat): Option<Message> {
    FollowAll(m, s.mid, if p <= |s.log| then s.log[p..] else [])
  }

  lemma InitShows(s: State, m: Option<Message>, p: nat)
    requires Init(s) && p <= s.base && Fresh(m, s)
    ensures Shows(Replay(m, s, p), s)
  {
    var es := s.log[p..];
    forall i | 0 <= i < |es| ensures Follow(m, s.mid, es[i].body) == m {
      assert !Own(s, s.log[p + i].body);
    }
    FollowNone(m, s.mid, es);
  }

  lemma ReplayStep(s: State, t: State, m: Option<Message>, p: nat)
    requires p <= |s.log| && t.mid == s.mid
    requires t.log == s.log || (|t.log| == |s.log| + 1 && t.log == s.log + [t.log[|s.log|]])
    ensures Replay(m, t, p) ==
            if t.log == s.log then Replay(m, s, p) else Follow(Replay(m, s, p), s.mid, t.log[|s.log|].body)
  {
    if t.log != s.log {
      assert t.log[p..] == s.log[p..] + [t.log[|s.log|]];
      FollowOne(m, s.mid, s.log[p..], t.log[|s.log|]);
    }
  }

  lemma AttachedStep(s: State, a: Step, t: State, m: Option<Message>, p: nat)
    requires Inv(s) && Enabled(s, a) && t == Next(s, a) && p <= s.base && Shows(Replay(m, s, p), s)
    ensures Shows(Replay(m, t, p), t)
  {
    StepInv(s, a);
    StepShows(s, a, Replay(m, s, p));
    ReplayStep(s, t, m, p);
  }

  /** At every point of every interleaving, a client attached at or before the start shows in reply `i` exactly what
      slot `i` published, in slot order, and in the merged text exactly what the merge published. */
  lemma {:induction false} AttachedShows(trace: seq<State>, steps: seq<Step>, j: nat, p: nat, m: Option<Message>)
    requires Run(trace, steps) && j < |trace| && p <= trace[0].base && Fresh(m, trace[0])
    ensures Shows(Replay(m, trace[j], p), trace[j])
  {
    hide Next, Enabled, Shows, Replay, Inv, Init, Fresh;
    if j == 0 {
      InitShows(trace[0], m, p);
    } else {
      AttachedShows(trace, steps, j - 1, p, m);
      RunInv(trace, steps, j - 1);
      AttachedStep(trace[j - 1], steps[j - 1], trace[j], m, p);
    }
  }

  // ---------- interleaving independence ----------

  /** The deltas slot `i` has in the log, in order. */
  function SlotText(mid: Id, i: nat, log: seq<Event>): string {
    if log == [] then ""
    else
      var b := log[|log| - 1].body;
      SlotText(mid, i, log[..|log| - 1]) + if b.RtToken? && b.mid == mid && b.slot == i then b.delta else ""
  }

  lemma SlotTextOne(mid: Id, i: nat, log: seq<Event>, e: Event)
    ensures SlotText(mid, i, log + [e]) ==
            SlotText(mid, i, log)
            + if e.body.RtToken? && e.body.mid == mid && e.body.slot == i then e.body.delta else ""
  {
    assert (log + [e])[..|log|] == log;
  }

  lemma {:induction false} SlotTextNone(mid: Id, i: nat, log: seq<Event>)
    requires forall k :: 0 <= k < |log| ==> !(log[k].body.RtToken? && log[k].body.mid == mid)
    ensures SlotText(mid, i, log) == ""
  {
    if log != [] { SlotTextNone(mid, i, log[..|log| - 1]); }
  }

  lemma SentStep(s: State, a: Step, i: nat)
    requires Inv(s) && Enabled(s, a) && i < |s.slots| && s.slots[i].sent == SlotText(s.mid, i, s.log)
    ensures var t := Next(s, a); t.slots[i].sent == SlotText(t.mid, i, t.log)
  {
    hide SlotText, SlotOk, AllOver, OkSlots;
    var t := Next(s, a);
    if t.log != s.log {
      var e := t.log[|s.log|];
      assert t.log == s.log + [e];
      SlotTextOne(s.mid, i, s.log, e);
    }
  }

  lemma SentInit(s: State, i: nat)
    requires Init(s) && i < |s.slots|
    ensures s.slots[i].sent == SlotText(s.mid, i, s.log)
  {
    assert forall k :: 0 <= k < |s.log| ==> !Own(s, s.log[k].body);
    SlotTextNone(s.mid, i, s.log);
  }

  lemma {:induction false} SentIsProjection(trace: seq<State>, steps: seq<Step>, j: nat, i: nat)
    requires Run(trace, steps) && j < |trace| && i < |trace[0].agents|
    ensures i < |trace[j].slots| && trace[j].slots[i].sent == SlotText(trace[j].mid, i, trace[j].log)
  {
    hide Next, Enabled, SlotText;
    RunInv(trace, steps, j);
    if j == 0 {
      SentInit(trace[0], i);
    } else {
      SentIsProjection(trace, steps, j - 1, i);
      RunInv(trace, steps, j - 1);
      SentStep(trace[j - 1], steps[j - 1], i);
    }
  }

  /** What the agent of slot `i` has said so far. */
  function SaidBy(steps: seq<Step>, i: nat): string {
    if steps == [] then ""
    else
      var front, a := SaidBy(steps[..|steps| - 1], i), steps[|steps| - 1];
      if a.SlotChunk? && a.i == i then front + a.delta else front
  }

  /** What the slot has published, still holds, and lost. */
  function Heard(w: Slot): string {
    w.sent + w.unsent + w.cut
  }

  lemma HeardStep(s: State, a: Step, i: nat)
    requires Inv(s) && Enabled(s, a) && i < |s.slots|
    ensures i < |Next(s, a).slots|
    ensures Heard(Next(s, a).slots[i]) == Heard(s.slots[i]) + if a.SlotChunk? && a.i == i then a.delta else ""
  {
    hide OkSlots, AllOver, PhaseInv;
    assert SlotOk(s.agents[i], s.slots[i]);
    if SlotStep(a) && a.i == i {
      match a
      case SlotChunk(_, d) => assert s.slots[i].sent + d + "" == s.slots[i].sent + "" + "" + d;
      case SlotSend(_) => assert s.slots[i].sent + s.slots[i].unsent + "" + "" == s.slots[i].sent + s.slots[i].unsent;
      case SlotStop(_, _) => assert s.slots[i].sent + "" + s.slots[i].unsent == s.slots[i].sent + s.slots[i].unsent;
      case SlotReply(_) =>
      case SlotCrash(_) => assert s.slots[i].sent + "" + s.slots[i].unsent == s.slots[i].sent + s.slots[i].unsent;
    }
  }

  lemma {:induction false} HeardIsSaid(trace: seq<State>, steps: seq<Step>, j: nat, i: nat)
    requires Run(trace, steps) && j < |trace| && i < |trace[0].agents|
    ensures i < |trace[j].slots| && Heard(trace[j].slots[i]) == SaidBy(steps[..j], i)
  {
    hide Next, Enabled, SlotsInv, Heard;
    if j == 0 {
      NothingHeard(trace[0], i);
    } else {
      HeardIsSaid(trace, steps, j - 1, i);
      RunInv(trace, steps, j - 1);
      HeardStep(trace[j - 1], steps[j - 1], i);
      assert steps[..j][..j - 1] == steps[..j - 1];
    }
  }

  lemma NothingHeard(s: State, i: nat)
    requires Init(s) && i < |s.slots|
    ensures Heard(s.slots[i]) == ""
  {}

  /** A client shows in reply `i` all its agent has said, if and only if no chunk of it is waiting or cut off. */
  lemma ShownIsSaid(trace: seq<State>, steps: seq<Step>, j: nat, p: nat, m: Option<Message>, i: nat)
    requires Run(trace, steps) && j < |trace| && p <= trace[0].base && Fresh(m, trace[0])
    requires i < |trace[0].agents| && trace[j].begun
    ensures var r, s := Replay(m, trace[j], p), trace[j];
        && r.Some? && i < |r.value.replies| && i < |s.slots|
        && r.value.replies[i].agentId == trace[0].agents[i]
        && r.value.replies[i].text <= SaidBy(steps[..j], i)
        && (r.value.replies[i].text == SaidBy(steps[..j], i) <==> s.slots[i].unsent == "" && s.slots[i].cut == "")
  {
    RunInv(trace, steps, j);
    AttachedShows(trace, steps, j, p, m);
    HeardIsSaid(trace, steps, j, i);
    SentPart(trace[j].slots[i]);
  }

  lemma SentPart(w: Slot)
    ensures w.sent <= Heard(w) && (w.sent == Heard(w) <==> w.unsent == "" && w.cut == "")
  {
    assert Heard(w)[..|w.sent|] == w.sent;
  }

  /** Two runs in which an agent says the same, and nothing of it waits or was cut off, show the same reply, however
      the slots interleave and whatever the other agents say. */
  lemma OrderIrrelevant(trace: seq<State>, steps: seq<Step>, trace': seq<State>, steps': seq<Step>,
                        j: nat, j': nat, p: nat, p': nat, m: Option<Message>, i: nat)
    requires Run(trace, steps) && Run(trace', steps') && j < |trace| && j' < |trace'|
    requires trace[0].agents == trace'[0].agents
    requires Fresh(m, trace[0]) && i < |trace[0].agents| && trace[j].begun && trace'[j'].begun
    requires p <= trace[0].base && p' <= trace'[0].base
    requires SaidBy(steps[..j], i) == SaidBy(steps'[..j'], i)
    requires i < |trace[j].slots| && trace[j].slots[i].unsent == trace[j].slots[i].cut == ""
    requires i < |trace'[j'].slots| && trace'[j'].slots[i].unsent == trace'[j'].slots[i].cut == ""
    ensures var r, r' := Replay(m, trace[j], p), Replay(m, trace'[j'], p');
        && r.Some? && r'.Some? && i < |r.value.replies| && i < |r'.value.replies|
        && r.value.replies[i].text == r'.value.replies[i].text == SaidBy(steps[..j], i)
        && r.value.replies[i].agentId == r'.value.replies[i].agentId == trace[0].agents[i]
  {
    ShownIsSaid(trace, steps, j, p, m, i);
    ShownIsSaid(trace', steps', j', p', m, i);
  }
}
