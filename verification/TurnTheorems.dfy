/** The agreement of log, browsers and stored row over every run of a turn. */
module TurnTheorems {
  import opened Wrappers
  import opened Chat
  import opened Turn

  // ---------- agreement at done ----------

  ghost predicate Frozen(s: State, t: State) {
    && !t.phase.Running? && t.row.text == s.row.text && t.row.status == s.row.status
    && t.cid == s.cid && t.mid == s.mid && s.log <= t.log
    && (s.phase.Finished? ==> t.phase.Finished? && t.doneText == s.doneText && t.late == s.late)
  }

  lemma FrozenStep(s: State, a: Step)
    requires Enabled(s, a) && !s.phase.Running?
    ensures Frozen(s, Next(s, a))
  {}

  /** Once finalized, the stored text and status never change again; once done is published, neither does its text. */
  lemma {:induction false} RowFrozen(trace: seq<State>, steps: seq<Step>, j: nat, k: nat)
    requires Run(trace, steps) && j <= k < |trace| && !trace[j].phase.Running?
    ensures Frozen(trace[j], trace[k])
  {
    if j < k {
      RowFrozen(trace, steps, j, k - 1);
      FrozenStep(trace[k - 1], steps[k - 1]);
    }
  }

  /** The message after done: later events from the log cannot move its text or status. */
  lemma {:induction false} DoneSticks(s: State, m: Message, es: seq<Event>)
    requires Inv(s) && s.phase.Finished? && m.text == s.doneText && m.status == s.row.status
    requires forall i :: 0 <= i < |es| ==> es[i] in s.log
    ensures var r := FollowAll(Some(m), s.mid, es);
        r.Some? && r.value.text == s.doneText && r.value.status == s.row.status
  {
    if es != [] {
      var front, e := es[..|es| - 1], es[|es| - 1];
      assert forall i :: 0 <= i < |front| ==> front[i] == es[i];
      DoneSticks(s, m, front);
      assert e in s.log;
      var k :| 0 <= k < |s.log| && s.log[k] == e;
      assert LogOk(s, k);
    }
  }

  lemma {:induction false} FollowConcat(m: Option<Message>, id: Id, xs: seq<Event>, ys: seq<Event>)
    ensures FollowAll(m, id, xs + ys) == FollowAll(FollowAll(m, id, xs), id, ys)
  {
    if ys == [] {
      assert xs + ys == xs;
    } else {
      FollowConcat(m, id, xs, ys[..|ys| - 1]);
      assert (xs + ys)[..|xs + ys| - 1] == xs + ys[..|ys| - 1];
    }
  }

  lemma {:induction false} FollowKeeps(m: Message, id: Id, es: seq<Event>)
    ensures FollowAll(Some(m), id, es).Some?
  {
    if es != [] { FollowKeeps(m, id, es[..|es| - 1]); }
  }

  function DoneEvent(s: State): Event {
    Event(s.cid, Done(s.mid, s.row.status, Some(s.doneText)))
  }

  lemma DonePublished(s: State, a: Step)
    requires Enabled(s, a) && !s.phase.Finished? && Next(s, a).phase.Finished?
    ensures var t := Next(s, a); t.log == s.log + [DoneEvent(t)]
  {}

  lemma {:induction false} DoneInLog(trace: seq<State>, steps: seq<Step>, j: nat)
    requires Run(trace, steps) && j < |trace| && trace[j].phase.Finished?
    ensures DoneEvent(trace[j]) in trace[j].log
  {
    if j > 0 {
      var s, t := trace[j - 1], trace[j];
      if s.phase.Finished? {
        DoneInLog(trace, steps, j - 1);
        FrozenStep(s, steps[j - 1]);
        var i :| 0 <= i < |s.log| && s.log[i] == DoneEvent(s);
        assert t.log[i] == s.log[i];
      } else {
        DonePublished(s, steps[j - 1]);
      }
    }
  }

  /** A client that holds the message, sees anything (`pre`), then done, then log events (`post`), shows the done
      text. */
  lemma ShowsAfterDone(s: State, c: Client, pre: seq<Event>, post: seq<Event>)
    requires Inv(s) && s.phase.Finished? && c.active == s.cid && Lookup(c, s.mid).Some?
    requires forall i :: 0 <= i < |post| ==> post[i] in s.log
    ensures var m := Lookup(ApplyAll(c, pre + [DoneEvent(s)] + post), s.mid);
        m.Some? && m.value.text == s.doneText && m.value.status == s.row.status
  {
    hide FollowAll, Mine, ApplyAll, Inv;
    LogEventsScoped(s, post);
    AllMine(post, s.cid);
    AllMine([DoneEvent(s)], s.cid);
    MineConcat(pre, [DoneEvent(s)], s.cid);
    MineConcat(pre + [DoneEvent(s)], post, s.cid);
    ClientProjects(c, pre + [DoneEvent(s)] + post, s.mid);
    FoldsPastDone(s, Lookup(c, s.mid), Mine(pre, s.cid), post);
  }

  lemma LogEventsScoped(s: State, es: seq<Event>)
    requires Inv(s) && forall i :: 0 <= i < |es| ==> es[i] in s.log
    ensures Scoped(es, s.cid)
  {
    forall i | 0 <= i < |es| ensures es[i].conversation == s.cid {
      var k :| 0 <= k < |s.log| && s.log[k] == es[i];
      assert LogOk(s, k);
    }
  }

  lemma FoldsPastDone(s: State, m: Option<Message>, pre: seq<Event>, post: seq<Event>)
    requires Inv(s) && s.phase.Finished? && m.Some?
    requires forall i :: 0 <= i < |post| ==> post[i] in s.log
    ensures var r := FollowAll(m, s.mid, pre + [DoneEvent(s)] + post);
        r.Some? && r.value.text == s.doneText && r.value.status == s.row.status
  {
    FollowConcat(m, s.mid, pre + [DoneEvent(s)], post);
    FollowOne(m, s.mid, pre, DoneEvent(s));
    FollowKeeps(m.value, s.mid, pre);
    var m1 := FollowAll(m, s.mid, pre + [DoneEvent(s)]);
    DoneSticks(s, m1.value, post);
  }

  /** Whatever a client missed, repeated, reordered or got of other conversations before `done` (`pre`) and whatever
      log events it replays after it (`post`): if it holds the message when done arrives it ends with the text of done
      and the stored status. That text is the stored text, then and ever after, exactly if no chunk arrived between
      finalize and done. */
  lemma {:induction false} AgreementAtDone(trace: seq<State>, steps: seq<Step>, j: nat, k: nat, c: Client,
                                           pre: seq<Event>, post: seq<Event>)
    requires Run(trace, steps) && j <= k < |trace| && trace[j].phase.Finished?
    requires c.active == trace[j].cid && Lookup(c, trace[j].mid).Some?
    requires forall i :: 0 <= i < |post| ==> post[i] in trace[k].log
    ensures DoneEvent(trace[j]) in trace[j].log
    ensures var m := Lookup(ApplyAll(c, pre + [DoneEvent(trace[j])] + post), trace[j].mid);
        && m.Some? && m.value.text == trace[j].doneText && m.value.status == trace[k].row.status
        && (m.value.text == trace[k].row.text <==> trace[j].late == 0)
  {
    DoneInLog(trace, steps, j);
    RowFrozen(trace, steps, j, k);
    RunInv(trace, steps, k);
    assert DoneEvent(trace[k]) == DoneEvent(trace[j]);
    ShowsAfterDone(trace[k], c, pre, post);
  }

  /** A chunk handled between the two does split them: the browser ends with "ab", the row keeps "a". */
  lemma LateChunkSplits() returns (trace: seq<State>, steps: seq<Step>)
    ensures Run(trace, steps) && |trace| > 0
    ensures var s := trace[|trace| - 1];
        s.phase.Finished? && s.late == 1 && s.doneText == "ab" && s.row.text == "a"
  {
    var s0 := State("c", "m", 0, [], Row("", STREAMING, []), false, Running, "", None, [], false, map[], "", "", 0);
    var s1 := Next(s0, Begin);
    var s2 := Next(s1, Chunk("a"));
    var s3 := Next(s2, SendToken);
    var s4 := Next(s3, Finalize(false));
    var s5 := Next(s4, Chunk("b"));
    var s6 := Next(s5, PublishDone);
    assert s6.doneText == "" + "a" + "b" == "ab";
    trace := [s0, s1, s2, s3, s4, s5, s6];
    steps := [Begin, Chunk("a"), SendToken, Finalize(false), Chunk("b"), PublishDone];
  }

  // ---------- clarify questions ----------

  /** The stage of a question decides both what the row says and what the log says. */
  ghost predicate Asks(s: State, p: nat) {
    && p <= s.base <= |s.log|
    && s.row.clarifies == s.clarifies
    && (forall id :: id in s.stages ==> (HasPending(s.clarifies, id) <==> s.stages[id] != Closed))
    && (forall id :: HasPending(s.clarifies, id) ==> id in s.stages)
    && (forall id, open :: id in s.stages ==>
          OpenAfter(open, id, s.log[p..]) == if s.stages[id].Recorded? then open else s.stages[id] == Announced)
  }

  lemma PendingAppend(es: seq<Entry>, e: Entry, id: Id)
    ensures HasPending(es + [e], id) <==> HasPending(es, id) || (e.id == id && e.status == PENDING)
  {
    var all := es + [e];
    if HasPending(all, id) {
      var i :| 0 <= i < |all| && all[i].id == id && all[i].status == PENDING;
      assert i < |es| ==> es[i] == all[i];
    }
    if HasPending(es, id) {
      var i :| 0 <= i < |es| && es[i].id == id && es[i].status == PENDING;
      assert all[i] == es[i];
    }
    assert all[|es|] == e;
  }

  lemma PendingSettle(es: seq<Entry>, qid: Id, status: string, choice: string, id: Id)
    requires status != PENDING
    ensures HasPending(Settle(es, qid, status, choice), id) <==> HasPending(es, id) && id != qid
  {
    var r := Settle(es, qid, status, choice);
    if HasPending(es, id) && id != qid {
      var i :| 0 <= i < |es| && es[i].id == id && es[i].status == PENDING;
      assert r[i].id == id && r[i].status == PENDING;
    }
    if HasPending(r, id) {
      var i :| 0 <= i < |r| && r[i].id == id && r[i].status == PENDING;
      assert es[i].id == id && es[i].status == PENDING;
    }
  }

  lemma {:induction false} NoMention(open: bool, id: Id, es: seq<Event>)
    requires forall i :: 0 <= i < |es| ==> !Mentions(es[i].body, id)
    ensures OpenAfter(open, id, es) == open
  {
    if es != [] {
      var front := es[..|es| - 1];
      assert forall i :: 0 <= i < |front| ==> front[i] == es[i];
      NoMention(open, id, front);
    }
  }

  lemma AsksOutcome(choice: string)
    ensures OutcomeOf(choice) != PENDING
  {}

  lemma AsksRecord(s: State, a: Step, p: nat)
    requires Asks(s, p) && a.Record? && Enabled(s, a)
    ensures Asks(Next(s, a), p)
  {
    var t := Next(s, a);
    forall id ensures HasPending(t.clarifies, id) <==> HasPending(s.clarifies, id) || id == a.id {
      PendingAppend(s.clarifies, Entry(a.id, a.question, PENDING, ""), id);
    }
    forall open ensures OpenAfter(open, a.id, s.log[p..]) == open {
      NoMention(open, a.id, s.log[p..]);
    }
  }

  lemma AsksClose(s: State, a: Step, p: nat)
    requires Asks(s, p) && a.Close? && Enabled(s, a)
    ensures Asks(Next(s, a), p)
  {
    var t, c := Next(s, a), s.stages[a.id].choice;
    AsksOutcome(c);
    forall id ensures HasPending(t.clarifies, id) <==> HasPending(s.clarifies, id) && id != a.id {
      PendingSettle(s.clarifies, a.id, OutcomeOf(c), c, id);
    }
  }

  lemma AsksStep(s: State, a: Step, p: nat)
    requires Asks(s, p) && Enabled(s, a) && !a.Record? && !a.Close?
    ensures Asks(Next(s, a), p)
  {
    var t := Next(s, a);
    if t.log != s.log {
      var e := t.log[|s.log|];
      assert t.log[p..] == s.log[p..] + [e];
      forall id, open | id in t.stages
        ensures OpenAfter(open, id, t.log[p..]) ==
                if t.stages[id].Recorded? then open else t.stages[id] == Announced
      {
        OpenOne(open, id, s.log[p..], e);
      }
    }
  }

  lemma {:induction false} RunAsks(trace: seq<State>, steps: seq<Step>, i: nat, p: nat)
    requires Run(trace, steps) && i < |trace| && p <= trace[0].base
    ensures Asks(trace[i], p)
  {
    if i > 0 {
      RunAsks(trace, steps, i - 1, p);
      var s, a := trace[i - 1], steps[i - 1];
      if a.Record? { AsksRecord(s, a, p); } else if a.Close? { AsksClose(s, a, p); } else { AsksStep(s, a, p); }
    }
  }

  /** The log says that question `id` was answered with `choice`. */
  ghost predicate Said(s: State, id: Id, choice: string) {
    exists k :: 0 <= k < |s.log| && s.log[k].body == ConfirmResponse(s.mid, id, choice)
  }

  ghost predicate EntryOk(s: State, i: nat)
    requires i < |s.clarifies|
  {
    var e := s.clarifies[i];
    e.id in s.stages && (s.stages[e.id] == Closed ==> Said(s, e.id, e.choice) && e.status == OutcomeOf(e.choice))
  }

  ghost predicate Truthful(s: State) {
    && s.row.clarifies == s.clarifies
    && (forall id :: id in s.stages && s.stages[id].Responded? ==> Said(s, id, s.stages[id].choice))
    && (forall i :: 0 <= i < |s.clarifies| ==> EntryOk(s, i))
  }

  lemma SaidStep(s: State, a: Step, id: Id, choice: string)
    requires Enabled(s, a)
    ensures Said(s, id, choice) ==> Said(Next(s, a), id, choice)
    ensures a == Respond(id, choice) ==> Said(Next(s, a), id, choice)
  {
    var t := Next(s, a);
    if Said(s, id, choice) {
      var k :| 0 <= k < |s.log| && s.log[k].body == ConfirmResponse(s.mid, id, choice);
      assert t.log[k] == s.log[k];
    }
    if a == Respond(id, choice) { assert t.log[|s.log|].body == ConfirmResponse(t.mid, id, choice); }
  }

  lemma TruthfulStep(s: State, a: Step)
    requires Truthful(s) && Enabled(s, a)
    ensures Truthful(Next(s, a))
  {
    var t := Next(s, a);
    forall id | id in t.stages && t.stages[id].Responded? ensures Said(t, id, t.stages[id].choice) {
      SaidStep(s, a, id, t.stages[id].choice);
    }
    forall i | 0 <= i < |t.clarifies| ensures EntryOk(t, i) {
      SaidStep(s, a, t.clarifies[i].id, t.clarifies[i].choice);
      if i < |s.clarifies| { assert EntryOk(s, i); }
    }
  }

  /** A settled question stores the very answer the log announced, and the outcome that goes with it; row and
      accumulator agree. */
  lemma {:induction false} StoredAnswersAreTrue(trace: seq<State>, steps: seq<Step>, i: nat)
    requires Run(trace, steps) && i < |trace|
    ensures Truthful(trace[i])
  {
    if i > 0 {
      StoredAnswersAreTrue(trace, steps, i - 1);
      TruthfulStep(trace[i - 1], steps[i - 1]);
    }
  }

  // ---------- a late joiner ----------

  /** The rows a reload returns: the turn's message somewhere in the list, no other streaming message before it. */
  ghost predicate SnapshotOf(s: State, rows: seq<Stored>, i: nat) {
    && i < |rows|
    && rows[i].message.id == s.mid && rows[i].message.text == s.row.text && rows[i].message.status == s.row.status
    && rows[i].clarifies == s.row.clarifies
    && (forall j :: 0 <= j < |rows| && j != i ==> rows[j].message.id != s.mid)
    && (forall j :: 0 <= j < i ==> rows[j].message.status != STREAMING)
  }

  lemma {:induction false} FindAt(ms: seq<Message>, i: nat, id: Id)
    requires i < |ms| && ms[i].id == id && forall j :: 0 <= j < i ==> ms[j].id != id
    ensures Find(ms, id) == i
  {
    if i > 0 { FindAt(ms[1..], i - 1, id); }
  }

  /** The events of the log from position `p` on, as the clients of this conversation see them. */
  lemma LogScoped(s: State, p: nat)
    requires Inv(s) && p <= |s.log|
    ensures Scoped(s.log[p..], s.cid)
  {
    var es := s.log[p..];
    forall i | 0 <= i < |es| ensures es[i].conversation == s.cid {
      assert LogOk(s, p + i);
    }
  }

  /** A client attached from the start shows the published text, and exactly the announced, unanswered questions. */
  lemma EarlyClient(trace: seq<State>, steps: seq<Step>, j: nat, p: nat, c: Client, id: Id)
    requires Run(trace, steps) && j < |trace| && p <= trace[0].base
    requires c.active == trace[0].cid && Blank(Lookup(c, trace[0].mid)) && !HasRequest(c.pending, id)
    ensures p <= |trace[j].log|
    ensures var s := trace[j]; var r := ApplyAll(c, s.log[p..]);
        && Shows(Lookup(r, s.mid), s)
        && (id in s.stages ==> (HasRequest(r.pending, id) <==> s.stages[id] == Announced))
  {
    var s := trace[j];
    RunInv(trace, steps, j);
    LogScoped(s, p);
    ClientProjects(c, s.log[p..], s.mid);
    ClientProjects(c, s.log[p..], id);
    AttachedShows(trace, steps, j, p, Lookup(c, s.mid));
    RunAsks(trace, steps, j, p);
  }

  /** A client that loads the stored row at time `i`, while the turn streams, and replays the log from any point at or
      before the row's creation shows at time `j` what the early client shows, and the same open questions, plus at
      most those it found recorded but that are not announced yet. */
  lemma LateJoinerAgrees(trace: seq<State>, steps: seq<Step>, i: nat, j: nat, p: nat, rows: seq<Stored>, at: nat,
                         id: Id)
    requires Run(trace, steps) && i <= j < |trace| && p <= trace[0].base
    requires trace[i].phase.Running? && SnapshotOf(trace[i], rows, at)
    ensures p <= |trace[j].log|
    ensures var s := trace[j]; var r := ApplyAll(OpenConversation(s.cid, rows), s.log[p..]);
        && (s.begun ==> Shows(Lookup(r, s.mid), s))
        && (id in s.stages ==>
              (HasRequest(r.pending, id) <==>
                 || s.stages[id] == Announced
                 || (s.stages[id].Recorded? && HasPending(trace[i].row.clarifies, id))))
  {
    var s, c := trace[j], OpenConversation(trace[j].cid, rows);
    RunInv(trace, steps, i);
    RunInv(trace, steps, j);
    LogScoped(s, p);
    assert FirstStreaming(rows) == at;
    FindAt(Messages(rows), at, s.mid);
    ClientProjects(c, s.log[p..], s.mid);
    ClientProjects(c, s.log[p..], id);
    AttachedShows(trace, steps, j, p, Lookup(c, s.mid));
    RunAsks(trace, steps, j, p);
    RestoredExactly(rows[at].clarifies, id);
  }

  /** A client that loads the row once it is final shows the stored text and opens no stream. Before done it agrees
      with the early client exactly when nothing waits to be published and no chunk came after finalize, or a single
      one did and waits; from done on, exactly when none came in between. */
  lemma FinalSnapshotAgrees(trace: seq<State>, steps: seq<Step>, i: nat, j: nat, rows: seq<Stored>, at: nat)
    requires Run(trace, steps) && i <= j < |trace|
    requires !trace[i].phase.Running? && SnapshotOf(trace[i], rows, at)
    ensures var s, m := trace[j], Lookup(OpenConversation(trace[j].cid, rows), trace[j].mid);
        && m.Some? && m.value.text == s.row.text && m.value.status == s.row.status
        && (s.phase.Finished? ==> (m.value.text == Shown(s) <==> s.late == 0))
        && (s.phase.Finalized? ==>
              (m.value.text == Shown(s) <==> (s.late == 0 && s.unsent.None?) || (s.late == 1 && s.unsent.Some?)))
  {
    RunInv(trace, steps, i);
    RunInv(trace, steps, j);
    RowFrozen(trace, steps, i, j);
    FindAt(Messages(rows), at, trace[j].mid);
  }

  /** A reload between the recording and the announcement of a question does show it early. */
  lemma ReloadShowsEarly() returns (trace: seq<State>, steps: seq<Step>, rows: seq<Stored>)
    ensures Run(trace, steps) && |trace| > 0
    ensures var s := trace[|trace| - 1];
        && SnapshotOf(s, rows, 0)
        && HasRequest(ApplyAll(OpenConversation(s.cid, rows), s.log).pending, "q")
        && !HasRequest(ApplyAll(Client(s.cid, [], []), s.log).pending, "q")
  {
    trace, steps := JustRecorded();
    var s := trace[2];
    rows := [Stored(Message("m", "agent", "", STREAMING, [], None, [], "", [], []), s.clarifies)];
    assert s.log[0..] == s.log;
    LateJoinerAgrees(trace, steps, 2, 2, 0, rows, 0, "q");
    EarlyClient(trace, steps, 2, 0, Client("c", [], []), "q");
  }

  /** A turn that has begun and recorded its first question. */
  lemma JustRecorded() returns (trace: seq<State>, steps: seq<Step>)
    ensures Run(trace, steps) && |trace| == 3
    ensures trace[0].cid == "c" && trace[0].mid == "m" && trace[0].base == 0
    ensures var s := trace[2];
        && s.cid == "c" && s.mid == "m" && s.phase == Running && s.row == Row("", STREAMING, s.clarifies)
        && s.stages == map["q" := Recorded("go on?")] && HasPending(s.clarifies, "q")
  {
    var s0 := State("c", "m", 0, [], Row("", STREAMING, []), false, Running, "", None, [], false, map[], "", "", 0);
    var s1 := Next(s0, Begin);
    var s2 := Next(s1, Step.Record("q", "go on?"));
    trace, steps := [s0, s1, s2], [Begin, Step.Record("q", "go on?")];
    assert s2.clarifies[0] == Entry("q", "go on?", PENDING, "");
  }

  // ---------- the entries themselves ----------

  /** `acc["clarifies"]` and its writes to the message row. Each method keeps step with the turn. */
  class ClarifyLedger {
    var entries: seq<Entry>
    var row: Row

    /** The ledger holds what the turn's state says. */
    ghost predicate Matches(s: State)
      reads this
    {
      entries == s.clarifies && row == s.row
    }

    constructor (r: Row)
      ensures entries == [] && row == r
      ensures forall s: State :: Init(s) && r == s.row ==> Matches(s)
    {
      entries, row := [], r;
    }

    /** `_record_clarify`. */
    method Record(id: Id, question: string)
      modifies this
      ensures entries == old(entries) + [Entry(id, question, PENDING, "")]
      ensures row == old(row).(clarifies := entries)
      ensures forall s: State :: old(Matches(s)) && Enabled(s, Step.Record(id, question)) ==>
          Matches(Next(s, Step.Record(id, question)))
    {
      entries := entries + [Entry(id, question, PENDING, "")];
      row := row.(clarifies := entries);
    }

    /** `_update_clarify`: walk the entries and settle those with this id, in place. */
    method Update(id: Id, choice: string)
      modifies this
      ensures entries == Settle(old(entries), id, OutcomeOf(choice), choice)
      ensures row == old(row).(clarifies := entries)
      ensures forall s: State :: old(Matches(s)) && Enabled(s, Step.Close(id)) && s.stages[id].choice == choice ==>
          Matches(Next(s, Step.Close(id)))
    {
      var i := 0;
      while i < |entries|
        invariant 0 <= i <= |entries| == |old(entries)|
        invariant row == old(row)
        invariant forall k :: 0 <= k < i ==> entries[k] == Settle(old(entries), id, OutcomeOf(choice), choice)[k]
        invariant forall k :: i <= k < |entries| ==> entries[k] == old(entries)[k]
      {
        if entries[i].id == id {
          entries := entries[i := entries[i].(status := OutcomeOf(choice), choice := choice)];
        }
        i := i + 1;
      }
      row := row.(clarifies := entries);
    }

    /** `_finalize` stores text and status, and the entries as they are. */
    method Finalize(text: string, status: string)
      modifies this`row
      ensures row == Row(text, status, entries)
      ensures forall s: State, c: bool ::
          && old(Matches(s)) && Enabled(s, Step.Finalize(c)) && text == s.acc
          && status == (if c then CANCELLED else COMPLETE) ==>
          Matches(Next(s, Step.Finalize(c)))
    {
      row := Row(text, status, entries);
    }
  }
}
