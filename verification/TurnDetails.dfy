/** What a turn publishes and stores besides its text: tool calls, thoughts, plans and files, its status, and the
    wording of its questions. */
module TurnDetails {
  import opened Wrappers
  import opened Chat
  import opened ChatContents
  import opened Turn
  import opened TurnTheorems

  // ---------- tool calls, thoughts, plans and files ----------

  /** The message's own events of this kind, in order. */
  function Sides(mid: Id, log: seq<Event>): seq<Body> {
    if log == [] then []
    else
      var front, b := Sides(mid, log[..|log| - 1]), log[|log| - 1].body;
      if Side(b) && b.mid == mid then front + [b] else front
  }

  function Decorations(steps: seq<Step>): seq<Body> {
    if steps == [] then []
    else
      var front, a := Decorations(steps[..|steps| - 1]), steps[|steps| - 1];
      if a.Decorate? then front + [a.body] else front
  }

  lemma SidesOne(mid: Id, log: seq<Event>, e: Event)
    ensures Sides(mid, log + [e]) == Sides(mid, log) + if Side(e.body) && e.body.mid == mid then [e.body] else []
  {
    assert (log + [e])[..|log|] == log;
  }

  lemma {:induction false} NoSides(mid: Id, log: seq<Event>)
    requires forall k :: 0 <= k < |log| ==> !(Side(log[k].body) && log[k].body.mid == mid)
    ensures Sides(mid, log) == []
  {
    if log != [] { NoSides(mid, log[..|log| - 1]); }
  }

  lemma SidesStep(s: State, a: Step)
    requires Enabled(s, a)
    ensures Sides(s.mid, Next(s, a).log) == Sides(s.mid, s.log) + if a.Decorate? then [a.body] else []
  {
    hide Sides;
    var t := Next(s, a);
    if t.log != s.log {
      assert t.log == s.log + [t.log[|s.log|]];
      SidesOne(s.mid, s.log, t.log[|s.log|]);
    }
  }

  lemma SidesInit(s: State)
    requires Init(s)
    ensures Sides(s.mid, s.log) == []
  {
    assert forall k :: 0 <= k < |s.log| ==> Foreign(s, s.log[k]);
    NoSides(s.mid, s.log);
  }

  /** Each tool call, thought, plan and file of the agent is in the log once, in the order of its making, and nothing
      else of that kind is. */
  lemma {:induction false} SidesAreDecorations(trace: seq<State>, steps: seq<Step>, j: nat)
    requires Run(trace, steps) && j < |trace|
    ensures Sides(trace[0].mid, trace[j].log) == Decorations(steps[..j])
  {
    hide Next, Enabled, Sides;
    RunInv(trace, steps, j);
    if j == 0 {
      SidesInit(trace[0]);
    } else {
      SidesAreDecorations(trace, steps, j - 1);
      RunInv(trace, steps, j - 1);
      SidesStep(trace[j - 1], steps[j - 1]);
      assert steps[..j][..j - 1] == steps[..j - 1];
    }
  }

  // ---------- the status ----------

  ghost predicate StatusOk(s: State, steps: seq<Step>) {
    && (s.cancelled <==> NoteCancel in steps)
    && (s.phase.Running? ==> s.row.status == "streaming" && Finalize(true) !in steps && Finalize(false) !in steps)
    && (!s.phase.Running? ==>
          || (Finalize(false) in steps && s.row.status == "complete")
          || (Finalize(true) in steps && NoteCancel in steps && s.row.status == "cancelled"))
  }

  lemma StatusStep(s: State, steps: seq<Step>, a: Step)
    requires Enabled(s, a) && StatusOk(s, steps)
    ensures StatusOk(Next(s, a), steps + [a])
  {}

  /** A row is streaming until it is finalized, and then complete, or cancelled if it was finalized as cancelled, which
      takes a cancel seen before; any cancel seen before makes that possible. */
  lemma {:induction false} StatusHasSource(trace: seq<State>, steps: seq<Step>, j: nat)
    requires Run(trace, steps) && j < |trace|
    ensures StatusOk(trace[j], steps[..j])
    ensures var s := trace[j];
        s.begun && s.phase.Running? && (forall id :: id in s.stages ==> !s.stages[id].Recorded?) ==>
          Enabled(s, Finalize(false)) && (Enabled(s, Finalize(true)) <==> NoteCancel in steps[..j])
  {
    if j > 0 {
      hide Next, StatusOk;
      StatusHasSource(trace, steps, j - 1);
      StatusStep(trace[j - 1], steps[..j - 1], steps[j - 1]);
      assert steps[..j] == steps[..j - 1] + [steps[j - 1]];
    }
    CancelFlag(trace[j], steps[..j]);
  }

  lemma CancelFlag(s: State, steps: seq<Step>)
    ensures StatusOk(s, steps) ==> (s.cancelled <==> NoteCancel in steps)
  {}

  // ---------- the wording of questions ----------

  lemma {:induction false} PendingIff(es: seq<Entry>, id: Id)
    ensures FirstPending(es, id).Some? <==> HasPending(es, id)
  {
    if es != [] {
      var front, e := es[..|es| - 1], es[|es| - 1];
      PendingIff(front, id);
      assert es == front + [e];
      PendingAppend(front, e, id);
    }
  }

  lemma FirstPendingAppend(es: seq<Entry>, e: Entry, id: Id)
    ensures FirstPending(es + [e], id) ==
            if FirstPending(es, id).Some? then FirstPending(es, id)
            else if e.id == id && e.status == PENDING then Some(e.question) else None
  {
    assert (es + [e])[..|es|] == es;
  }

  lemma {:induction false} SettleSnoc(es: seq<Entry>, id: Id, status: string, choice: string)
    requires es != []
    ensures var n := |es| - 1;
        Settle(es, id, status, choice) == Settle(es[..n], id, status, choice)
          + [if es[n].id == id then es[n].(status := status, choice := choice) else es[n]]
  {}

  lemma {:induction false} FirstPendingSettle(es: seq<Entry>, qid: Id, status: string, choice: string, id: Id)
    requires status != PENDING
    ensures FirstPending(Settle(es, qid, status, choice), id) == if id == qid then None else FirstPending(es, id)
  {
    if es != [] {
      var n := |es| - 1;
      FirstPendingSettle(es[..n], qid, status, choice, id);
      SettleSnoc(es, qid, status, choice);
      FirstPendingAppend(Settle(es[..n], qid, status, choice),
                         if es[n].id == qid then es[n].(status := status, choice := choice) else es[n], id);
    }
  }

  lemma {:induction false} NotAsked(asked: Option<string>, id: Id, es: seq<Event>)
    requires forall k :: 0 <= k < |es| ==> !Mentions(es[k].body, id)
    ensures QuestionAfter(asked, id, es) == asked
  {
    if es != [] {
      assert forall k :: 0 <= k < |es| - 1 ==> es[..|es| - 1][k] == es[k];
      NotAsked(asked, id, es[..|es| - 1]);
    }
  }

  lemma AskedOne(asked: Option<string>, id: Id, es: seq<Event>, e: Event)
    ensures var before := QuestionAfter(asked, id, es);
        QuestionAfter(asked, id, es + [e]) ==
          if e.body.ConfirmResponse? && e.body.requestId == id then None
          else if e.body.ConfirmRequest? && e.body.request.id == id && before.None? then Some(e.body.request.question)
          else before
  {
    assert (es + [e])[..|es|] == es;
  }

  /** While a question is open the row has it in the words in which it was recorded, and so has every log reader,
      whether it started with nothing or with the stored question. */
  ghost predicate Worded(s: State, p: nat, id: Id) {
    && p <= |s.log|
    && (id in s.stages && s.stages[id].Recorded? ==>
          && FirstPending(s.clarifies, id) == Some(s.stages[id].question)
          && forall asked :: QuestionAfter(asked, id, s.log[p..]) == asked)
    && (id in s.stages && s.stages[id] == Announced ==>
          FirstPending(s.clarifies, id).Some? && ReadsAs(s, p, id, FirstPending(s.clarifies, id)))
    && (id !in s.stages ==> FirstPending(s.clarifies, id) == None)
  }

  ghost predicate ReadsAs(s: State, p: nat, id: Id, question: Option<string>)
    requires p <= |s.log|
  {
    && QuestionAfter(None, id, s.log[p..]) == question
    && QuestionAfter(question, id, s.log[p..]) == question
  }

  /** The step says something to the log about this question. */
  predicate Speaks(a: Step, id: Id) {
    (a.Announce? || a.Respond?) && a.id == id
  }

  lemma LogSilent(s: State, a: Step, p: nat, id: Id)
    requires p <= |s.log| && Enabled(s, a) && !Speaks(a, id) && id in s.stages
    ensures p <= |Next(s, a).log|
    ensures forall asked :: QuestionAfter(asked, id, Next(s, a).log[p..]) == QuestionAfter(asked, id, s.log[p..])
  {
    hide QuestionAfter;
    var t := Next(s, a);
    if t.log != s.log {
      var e := t.log[|s.log|];
      assert t.log[p..] == s.log[p..] + [e];
      forall asked ensures QuestionAfter(asked, id, t.log[p..]) == QuestionAfter(asked, id, s.log[p..]) {
        AskedOne(asked, id, s.log[p..], e);
      }
    }
  }

  lemma RecordWords(s: State, a: Step, p: nat)
    requires p <= |s.log| && a.Record? && Enabled(s, a) && FirstPending(s.clarifies, a.id) == None
    ensures Worded(Next(s, a), p, a.id)
  {
    FirstPendingAppend(s.clarifies, Entry(a.id, a.question, PENDING, ""), a.id);
    forall asked ensures QuestionAfter(asked, a.id, s.log[p..]) == asked {
      NotAsked(asked, a.id, s.log[p..]);
    }
  }

  lemma AnnounceWords(s: State, a: Step, p: nat)
    requires a.Announce? && Enabled(s, a) && Worded(s, p, a.id)
    ensures Worded(Next(s, a), p, a.id)
  {
    hide QuestionAfter;
    var t := Next(s, a);
    var e := t.log[|s.log|];
    assert t.log[p..] == s.log[p..] + [e];
    AskedOne(None, a.id, s.log[p..], e);
    AskedOne(Some(a.question), a.id, s.log[p..], e);
  }

  lemma EntriesWord(s: State, a: Step, id: Id)
    requires Enabled(s, a) && (a.Record? || a.Close? ==> a.id != id)
    ensures FirstPending(Next(s, a).clarifies, id) == FirstPending(s.clarifies, id)
  {
    hide FirstPending;
    if a.Record? { FirstPendingAppend(s.clarifies, Entry(a.id, a.question, PENDING, ""), id); }
    if a.Close? {
      var c := s.stages[a.id].choice;
      FirstPendingSettle(s.clarifies, a.id, OutcomeOf(c), c, id);
    }
  }

  lemma StageOf(s: State, a: Step, id: Id)
    requires Enabled(s, a)
    ensures !Speaks(a, id) && (a.Record? || a.Close? ==> a.id != id) ==>
        && (id in Next(s, a).stages <==> id in s.stages)
        && (id in s.stages ==> Next(s, a).stages[id] == s.stages[id])
    ensures (a.Close? || a.Respond?) && a.id == id ==> id in Next(s, a).stages
    ensures a.Close? && a.id == id ==> Next(s, a).stages[id] == Closed
    ensures a.Respond? && a.id == id ==> Next(s, a).stages[id].Responded?
  {}

  lemma WordedStep(s: State, a: Step, p: nat, id: Id)
    requires Worded(s, p, id) && Enabled(s, a)
    ensures Worded(Next(s, a), p, id)
  {
    StageOf(s, a, id);
    StepFrame(s, a);
    if a.Record? && a.id == id {
      RecordWords(s, a, p);
    } else if a.Announce? && a.id == id {
      AnnounceWords(s, a, p);
    } else {
      hide Next, Enabled, QuestionAfter, FirstPending;
      if !(a.Close? && a.id == id) { EntriesWord(s, a, id); }
      if id in s.stages && !Speaks(a, id) { LogSilent(s, a, p, id); }
    }
  }

  lemma WordedInit(s: State, p: nat, id: Id)
    requires Init(s) && p <= s.base
    ensures Worded(s, p, id)
  {}

  lemma {:induction false} WordedInv(trace: seq<State>, steps: seq<Step>, j: nat, p: nat, id: Id)
    requires Run(trace, steps) && j < |trace| && p <= trace[0].base
    ensures Worded(trace[j], p, id)
  {
    hide Next, Enabled, Worded;
    if j == 0 {
      WordedInit(trace[0], p, id);
    } else {
      WordedInv(trace, steps, j - 1, p, id);
      WordedStep(trace[j - 1], steps[j - 1], p, id);
    }
  }

  lemma OpenBefore(s: State, a: Step, id: Id)
    requires Enabled(s, a) && id in s.stages
    ensures id in Next(s, a).stages
    ensures Next(s, a).stages[id] != Closed ==> s.stages[id] != Closed && !((a.Record? || a.Close?) && a.id == id)
  {}

  /** As long as a question is not settled its words never change. */
  lemma {:induction false} WordsStay(trace: seq<State>, steps: seq<Step>, i: nat, j: nat, id: Id)
    requires Run(trace, steps) && i <= j < |trace| && id in trace[i].stages
    ensures id in trace[j].stages
    ensures trace[j].stages[id] != Closed ==>
        FirstPending(trace[j].clarifies, id) == FirstPending(trace[i].clarifies, id)
  {
    hide Next, Enabled, FirstPending;
    if i < j {
      WordsStay(trace, steps, i, j - 1, id);
      OpenBefore(trace[j - 1], steps[j - 1], id);
      if trace[j].stages[id] != Closed { EntriesWord(trace[j - 1], steps[j - 1], id); }
    }
  }

  /** Every client that shows an announced question asks it in the words stored in the row, whether it followed the log
      from the start or loaded the row at time `i` and then replayed the log. */
  lemma QuestionsAgree(trace: seq<State>, steps: seq<Step>, i: nat, j: nat, p: nat, c: Client, rows: seq<Stored>,
                       at: nat, id: Id)
    requires Run(trace, steps) && i <= j < |trace| && p <= trace[0].base
    requires c.active == trace[0].cid && !HasRequest(c.pending, id)
    requires trace[i].phase.Running? && SnapshotOf(trace[i], rows, at)
    requires id in trace[j].stages && trace[j].stages[id] == Announced
    ensures p <= |trace[j].log|
    ensures var s, asked := trace[j], FirstPending(trace[j].row.clarifies, id);
        && asked.Some?
        && Question(ApplyAll(c, s.log[p..]).pending, id) == asked
        && Question(ApplyAll(OpenConversation(s.cid, rows), s.log[p..]).pending, id) == asked
  {
    hide Next, Enabled, FirstPending, QuestionAfter, Question, ApplyAll, Restored;
    var s, late := trace[j], OpenConversation(trace[j].cid, rows);
    RunInv(trace, steps, i);
    RunInv(trace, steps, j);
    RunAsks(trace, steps, i, p);
    RunAsks(trace, steps, j, p);
    WordedInv(trace, steps, i, p, id);
    WordedInv(trace, steps, j, p, id);
    LogScoped(s, p);
    AllMine(s.log[p..], s.cid);
    QuestionIffOpen(c.pending, id);
    QuestionsShown(c, s.log[p..], id);
    assert FirstStreaming(rows) == at;
    QuestionsShown(late, s.log[p..], id);
    RestoredQuestions(rows[at].clarifies, id);
    if id in trace[i].stages { WordsStay(trace, steps, i, j, id); }
  }

  /** Events about a question of the turn name its message and its conversation. */
  ghost predicate Addressed(s: State) {
    forall k, id :: 0 <= k < |s.log| && id in s.stages && Mentions(s.log[k].body, id) ==>
      s.log[k].conversation == s.cid && s.log[k].body.mid == s.mid
  }

  lemma AddressedStep(s: State, a: Step)
    requires Addressed(s) && Enabled(s, a)
    ensures Addressed(Next(s, a))
  {
    var t := Next(s, a);
    forall k, id | 0 <= k < |t.log| && id in t.stages && Mentions(t.log[k].body, id)
      ensures t.log[k].conversation == t.cid && t.log[k].body.mid == t.mid
    {
      if k < |s.log| { assert t.log[k] == s.log[k]; }
    }
  }

  lemma {:induction false} QuestionsAreAddressed(trace: seq<State>, steps: seq<Step>, j: nat)
    requires Run(trace, steps) && j < |trace|
    ensures Addressed(trace[j])
  {
    if j > 0 {
      hide Next, Enabled, Addressed;
      QuestionsAreAddressed(trace, steps, j - 1);
      AddressedStep(trace[j - 1], steps[j - 1]);
    }
  }

  /** The agent is never kept from speaking: once the turn has begun every chunk, tool call, thought, plan and file
      can be handled, at any point, a chunk as soon as the one before it is published; and a finalized turn can be
      finished. */
  lemma NothingIsRefused(trace: seq<State>, steps: seq<Step>, j: nat, delta: string, b: Body)
    requires Run(trace, steps) && j < |trace| && delta != "" && Side(b) && b.mid == trace[0].mid
    ensures var s := trace[j];
        && (!s.begun ==> Enabled(s, Begin))
        && (s.begun ==> Enabled(s, Decorate(b)) && Enabled(s, NoteCancel))
        && (s.begun && s.unsent.None? ==> Enabled(s, Chunk(delta)))
        && (s.unsent.Some? ==> Enabled(s, SendToken))
        && (s.phase.Finalized? ==> Enabled(s, PublishDone))
  {
    RunInv(trace, steps, j);
  }
}
