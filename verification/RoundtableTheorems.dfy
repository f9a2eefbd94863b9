/** What a roundtable stores, how that compares to what its agents said and its clients show, and how it ends. */
module RoundtableTheorems {
  import opened Wrappers
  import opened Chat
  import opened Text
  import opened Roundtable

  // ---------- what is stored ----------

  /** The stored reply list has one entry per agent in slot order, and entry `i` is what every attached client shows,
      exactly unless a chunk of slot `i` was cut off or the slot failed without a word; of a crashed slot, whose stored
      text is the stand-in, exactly if it said the stand-in itself. Its status is the stored one exactly if the slot did
      not crash. */
  lemma StoredReplies(trace: seq<State>, steps: seq<Step>, j: nat, p: nat, m: Option<Message>, i: nat)
    requires Run(trace, steps) && j < |trace| && trace[j].row.Some?
    requires Fresh(m, trace[0]) && i < |trace[0].agents| && p <= trace[0].base
    ensures var s, r := trace[j], Replay(m, trace[j], p);
        && |s.row.value.replies| == |s.agents| == |s.slots| && i < |s.agents|
        && s.row.value.replies[i].agentId == s.agents[i]
        && r.Some? && |r.value.replies| == |s.agents|
        && (s.slots[i].pc.Ended? <==> r.value.replies[i].status == s.row.value.replies[i].status)
        && (r.value.replies[i].text == s.row.value.replies[i].text <==>
              if s.slots[i].pc.Crashed? then s.slots[i].sent == CRASHED
              else s.slots[i].cut == "" && (s.slots[i].sent != "" || s.row.value.replies[i].status == "complete"))
  {
    RunInv(trace, steps, j);
    AttachedShows(trace, steps, j, p, m);
    var s := trace[j];
    assert SlotOk(s.agents[i], s.slots[i]) && Over(s.slots[i].pc);
  }

  /** Step `a` is among the first `j`. */
  ghost predicate EndedBy(trace: seq<State>, steps: seq<Step>, j: nat, a: Step)
    requires Run(trace, steps) && j < |trace|
  {
    exists m :: 0 <= m < j && steps[m] == a
  }

  ghost predicate EndHasSource(trace: seq<State>, steps: seq<Step>, j: nat, i: nat)
    requires Run(trace, steps) && j < |trace| && i < |trace[j].slots|
  {
    match trace[j].slots[i].pc
    case Talking => true
    case Stopped(st) => EndedBy(trace, steps, j, SlotStop(i, st))
    case Ended(st) => EndedBy(trace, steps, j, SlotStop(i, st))
    case Crashed => EndedBy(trace, steps, j, SlotCrash(i))
  }

  lemma EndStep(s: State, a: Step, i: nat)
    requires Inv(s) && Enabled(s, a) && i < |s.slots|
    ensures var pc, pc' := s.slots[i].pc, Next(s, a).slots[i].pc;
        || pc' == pc
        || (pc'.Stopped? && a == SlotStop(i, pc'.status))
        || (pc.Stopped? && pc' == Ended(pc.status))
        || (pc'.Crashed? && a == SlotCrash(i))
  {
    hide OkSlots, AllOver, PhaseInv;
  }

  lemma {:induction false} EndsHaveSources(trace: seq<State>, steps: seq<Step>, j: nat, i: nat)
    requires Run(trace, steps) && j < |trace| && i < |trace[0].agents|
    ensures i < |trace[j].slots| && EndHasSource(trace, steps, j, i)
  {
    hide Next, Enabled;
    RunInv(trace, steps, j);
    if j == 0 {
      AllTalk(trace[0], i);
    } else {
      hide Inv;
      EndsHaveSources(trace, steps, j - 1, i);
      RunInv(trace, steps, j - 1);
      EndStep(trace[j - 1], steps[j - 1], i);
    }
  }

  lemma AllTalk(s: State, i: nat)
    requires Init(s) && i < |s.slots|
    ensures s.slots[i].pc == Talking
  {}

  /** A stored reply has the status its prompt ended with, and its text is all its agent had said; only where the agent
      had said nothing and failed, or its client could not be stopped, is it a stand-in. */
  lemma StoredIsSaid(trace: seq<State>, steps: seq<Step>, j: nat, i: nat)
    requires Run(trace, steps) && j < |trace| && trace[j].row.Some? && i < |trace[0].agents|
    ensures i < |trace[j].row.value.replies|
    ensures var r, said := trace[j].row.value.replies[i], SaidBy(steps[..j], i);
        || (EndedBy(trace, steps, j, SlotStop(i, r.status))
            && r.text == if said != "" || r.status == "complete" then said
                         else if r.status == "timeout" then "（" + trace[0].agents[i] + " 超时未响应）"
                         else "（该助手作答失败）")
        || (EndedBy(trace, steps, j, SlotCrash(i)) && r.status == "error" && r.text == "（作答失败）")
  {
    hide SaidBy, EndedBy;
    RunInv(trace, steps, j);
    HeardIsSaid(trace, steps, j, i);
    EndsHaveSources(trace, steps, j, i);
    SaidText(trace[j], i);
  }

  lemma SaidText(s: State, i: nat)
    requires Inv(s) && s.row.Some? && i < |s.agents|
    ensures i < |s.slots| && i < |s.row.value.replies| && Over(s.slots[i].pc)
    ensures var r, w := s.row.value.replies[i], s.slots[i];
        && (w.pc.Ended? ==>
              && r.status == w.pc.status
              && r.text == if Heard(w) != "" || r.status == "complete" then Heard(w)
                           else if r.status == "timeout" then "（" + s.agents[i] + " 超时未响应）"
                           else "（该助手作答失败）")
        && (w.pc.Crashed? ==> r.status == "error" && r.text == "（作答失败）")
  {
    assert SlotOk(s.agents[i], s.slots[i]);
    var w := s.slots[i];
    assert w.sent + "" + w.cut == w.sent + w.cut;
  }

  /** The merged text shown after done is the stored one exactly if no chunk of the merge was cut off. */
  lemma StoredMerge(trace: seq<State>, steps: seq<Step>, j: nat, p: nat, m: Option<Message>)
    requires Run(trace, steps) && j < |trace| && trace[j].phase == Finished
    requires trace[j].row.Some? && trace[j].row.value.status == "complete"
    requires Fresh(m, trace[0]) && p <= trace[0].base
    ensures var s, r := trace[j], Replay(m, trace[j], p);
        && r.Some? && r.value.merged.Some?
        && r.value.merged.value.status == s.row.value.merged.status
        && (r.value.merged.value.text == s.row.value.merged.text <==> s.mergeUnsent == "")
  {
    RunInv(trace, steps, j);
    AttachedShows(trace, steps, j, p, m);
  }

  // ---------- the bad cases do occur ----------

  lemma Extend(trace: seq<State>, steps: seq<Step>, a: Step)
    requires Run(trace, steps) && |trace[|steps|].slots| == |trace[|steps|].agents| && Enabled(trace[|steps|], a)
    ensures Run(trace + [Next(trace[|steps|], a)], steps + [a])
  {
    hide Next, Enabled, Init;
    var trace', steps' := trace + [Next(trace[|steps|], a)], steps + [a];
    assert trace'[0] == trace[0];
    forall i | 0 <= i < |steps'|
      ensures |trace'[i].slots| == |trace'[i].agents| && Enabled(trace'[i], steps'[i])
      ensures trace'[i + 1] == Next(trace'[i], steps'[i])
    {
      if i < |steps| { assert trace'[i] == trace[i] && trace'[i + 1] == trace[i + 1] && steps'[i] == steps[i]; }
    }
  }

  /** A run in which slot `i` says `text`, publishes it or is stopped before it can, and ends. */
  lemma Answer(trace: seq<State>, steps: seq<Step>, i: nat, text: string, sends: bool)
    returns (trace': seq<State>, steps': seq<Step>)
    requires Run(trace, steps) && trace[|steps|].begun && |trace[|steps|].slots| == |trace[|steps|].agents|
    requires i < |trace[|steps|].slots| && trace[|steps|].slots[i] == Slot("", "", Talking, "", "") && text != ""
    ensures Run(trace', steps')
    ensures var s, t := trace[|steps|], trace'[|steps'|];
        && |t.slots| == |s.slots| && t == s.(log := t.log, slots := s.slots[i := t.slots[i]])
        && t.slots[i] == Slot(text, "", Ended("complete"), if sends then text else "", if sends then "" else text)
  {
    var s := trace[|steps|];
    Extend(trace, steps, SlotChunk(i, text));
    trace', steps' := trace + [Next(s, SlotChunk(i, text))], steps + [SlotChunk(i, text)];
    assert "" + text == text;
    if sends {
      var u := trace'[|steps'|];
      Extend(trace', steps', SlotSend(i));
      trace', steps' := trace' + [Next(u, SlotSend(i))], steps' + [SlotSend(i)];
    }
    var v := trace'[|steps'|];
    Extend(trace', steps', SlotStop(i, "complete"));
    trace', steps' := trace' + [Next(v, SlotStop(i, "complete"))], steps' + [SlotStop(i, "complete")];
    var w := trace'[|steps'|];
    Extend(trace', steps', SlotReply(i));
    trace', steps' := trace' + [Next(w, SlotReply(i))], steps' + [SlotReply(i)];
    assert trace'[|steps'|].slots == s.slots[i := trace'[|steps'|].slots[i]];
  }

  /** A roundtable of these agents that has just begun. */
  lemma Opening(agents: seq<Id>) returns (trace: seq<State>, steps: seq<Step>)
    ensures Run(trace, steps)
    ensures trace[0].agents == agents && trace[0].base == 0 && Fresh(None, trace[0])
    ensures var s := trace[|steps|];
        && s.begun && s.phase == Answering && s.agents == agents && |s.slots| == |agents|
        && s.row == None && s.merged == s.mergeUnsent == s.mergeSent == ""
        && forall i :: 0 <= i < |s.slots| ==> s.slots[i] == Slot("", "", Talking, "", "")
  {
    var quiet := seq(|agents|, i requires 0 <= i < |agents| => Slot("", "", Talking, "", ""));
    var s := State("c", "m", agents, 0, [], None, false, Answering, false, quiet, "", "", "");
    assert Run([s], []);
    Extend([s], [], Begin);
    trace, steps := [s] + [Next(s, Begin)], [] + [Begin];
  }

  /** The one chunk of a slot is cut off when its client is stopped: clients show an empty reply, the row stores the
      chunk. */
  lemma CutReplyDiffers() returns (trace: seq<State>, steps: seq<Step>)
    ensures Run(trace, steps)
    ensures var s, r := trace[|steps|], Replay(None, trace[|steps|], 0);
        && s.row.Some? && |s.row.value.replies| == 1
        && r.Some? && |r.value.replies| == 1
        && r.value.replies[0].text == "" && s.row.value.replies[0].text == "x"
  {
    trace, steps := Opening(["a"]);
    trace, steps := Answer(trace, steps, 0, "x", false);
    var s := trace[|steps|];
    Extend(trace, steps, GiveUp("cancelled"));
    trace, steps := trace + [Next(s, GiveUp("cancelled"))], steps + [GiveUp("cancelled")];
    AttachedShows(trace, steps, |steps|, 0, None);
  }

  /** A slot speaks, then its reader fails and stopping its client raises: clients go on showing what it said, as
      streaming, and the row stores the stand-in as an error. */
  lemma CrashedReplyDiffers() returns (trace: seq<State>, steps: seq<Step>)
    ensures Run(trace, steps)
    ensures var s, r := trace[|steps|], Replay(None, trace[|steps|], 0);
        && s.row.Some? && s.row.value.replies == [Reply("a", CRASHED, "error")]
        && r.Some? && r.value.replies == [Reply("a", "x", STREAMING)]
        && s.slots == [Slot("x", "", Crashed, "x", "")]
  {
    trace, steps := Opening(["a"]);
    trace, steps := Crash(trace, steps, 0, "x");
    var s := trace[|steps|];
    Extend(trace, steps, GiveUp("cancelled"));
    trace, steps := trace + [Next(s, GiveUp("cancelled"))], steps + [GiveUp("cancelled")];
    AttachedShows(trace, steps, |steps|, 0, None);
  }

  /** A run in which slot `i` says `text`, publishes it and crashes. */
  lemma Crash(trace: seq<State>, steps: seq<Step>, i: nat, text: string)
    returns (trace': seq<State>, steps': seq<Step>)
    requires Run(trace, steps) && trace[|steps|].begun && |trace[|steps|].slots| == |trace[|steps|].agents|
    requires i < |trace[|steps|].slots| && trace[|steps|].slots[i] == Slot("", "", Talking, "", "") && text != ""
    ensures Run(trace', steps') && trace'[0] == trace[0]
    ensures var s, t := trace[|steps|], trace'[|steps'|];
        t == s.(log := t.log, slots := s.slots[i := Slot(text, "", Crashed, text, "")])
  {
    var s := trace[|steps|];
    Extend(trace, steps, SlotChunk(i, text));
    trace', steps' := trace + [Next(s, SlotChunk(i, text))], steps + [SlotChunk(i, text)];
    assert "" + text == text;
    var u := trace'[|steps'|];
    Extend(trace', steps', SlotSend(i));
    trace', steps' := trace' + [Next(u, SlotSend(i))], steps' + [SlotSend(i)];
    var v := trace'[|steps'|];
    Extend(trace', steps', SlotCrash(i));
    trace', steps' := trace' + [Next(v, SlotCrash(i))], steps' + [SlotCrash(i)];
    assert trace'[|steps'|].slots == s.slots[i := trace'[|steps'|].slots[i]];
  }

  /** The last chunk of a merge is cut off: clients show an empty merged text, the row stores the chunk. */
  lemma CutMergeDiffers() returns (trace: seq<State>, steps: seq<Step>)
    ensures Run(trace, steps)
    ensures var s, r := trace[|steps|], Replay(None, trace[|steps|], 0);
        && s.phase == Finished && s.row.Some? && s.row.value.status == "complete"
        && r.Some? && r.value.merged.Some?
        && r.value.merged.value.text == "" && s.row.value.merged.text == "z"
  {
    trace, steps := StoppedMerge();
    var s := trace[|steps|];
    Extend(trace, steps, PublishDone);
    trace, steps := trace + [Next(s, PublishDone)], steps + [PublishDone];
    AttachedShows(trace, steps, |steps|, 0, None);
  }

  lemma RunNonEmpty(trace: seq<State>, steps: seq<Step>)
    requires Run(trace, steps)
    ensures |trace| == |steps| + 1
  {}

  lemma StoppedMerge() returns (trace: seq<State>, steps: seq<Step>)
    ensures Run(trace, steps)
    ensures var s := trace[|steps|];
        && s.begun && s.phase == Finalized && s.mergeBegun && |s.slots| == |s.agents| && s.mergeSent == ""
        && s.row.Some? && s.row.value.status == "complete" && s.row.value.merged.text == "z"
  {
    hide OkSlots, Run;
    trace, steps := TwoReplies();
    RunNonEmpty(trace, steps);
    var s := trace[|steps|];
    Extend(trace, steps, MergeChunk("z"));
    var t := Next(s, MergeChunk("z"));
    trace, steps := trace + [t], steps + [MergeChunk("z")];
    assert t == s.(merged := "z", mergeUnsent := "z");
    Extend(trace, steps, MergeFinalize);
    trace, steps := trace + [Next(t, MergeFinalize)], steps + [MergeFinalize];
  }

  /** Two usable replies and a merge that has just started. */
  lemma TwoReplies() returns (trace: seq<State>, steps: seq<Step>)
    ensures Run(trace, steps)
    ensures Fresh(None, trace[0])
    ensures var s := trace[|steps|];
        && s.begun && s.phase == Merging && s.mergeBegun && |s.slots| == |s.agents| && |OkSlots(s.slots)| == 2
        && s.row == None && s.merged == s.mergeUnsent == s.mergeSent == ""
  {
    trace, steps := Opening(["a", "b"]);
    trace, steps := Answer(trace, steps, 0, "x", true);
    trace, steps := Answer(trace, steps, 1, "y", true);
    var s := trace[|steps|];
    assert !IsSpace("x"[0]) && !IsSpace("y"[0]);
    BothUsable(s.slots);
    Extend(trace, steps, MergeBegin);
    trace, steps := trace + [Next(s, MergeBegin)], steps + [MergeBegin];
  }

  lemma BothUsable(slots: seq<Slot>)
    requires |slots| == 2 && Usable(slots[0]) && Usable(slots[1])
    ensures OkSlots(slots) == [0, 1]
  {
    assert slots[..1][..0] == [] && slots[..1][0] == slots[0];
    assert OkSlots(slots[..1]) == [0];
  }

  /** What the usable slots decide: whether there is a merge, and its text if only one slot is usable. */
  ghost predicate Decided(s: State) {
    var ok := OkSlots(s.slots);
    && (s.phase == Merging ==> ok != [] && (|ok| == 1 ==> s.merged == "" || s.merged == TextOf(s.slots[ok[0]])))
    && (s.row.Some? && s.row.value.status == "complete" ==>
          ok != [] && (|ok| == 1 ==> s.row.value.merged.text == TextOf(s.slots[ok[0]])))
    && (s.row.Some? && s.row.value.status == "error" ==> ok == [])
  }

  lemma DecidedStep(s: State, a: Step)
    requires PhaseInv(s) && Enabled(s, a) && Decided(s)
    ensures Decided(Next(s, a))
  {
    assert SlotStep(a) && AllOver(s) ==> Over(s.slots[a.i].pc);
    assert !SlotStep(a) ==> Next(s, a).slots == s.slots;
  }

  /** A finished roundtable is complete only if some slot gave a usable reply and failed only if none did; the only
      usable reply of a complete one is its merged text, word for word. */
  lemma {:induction false} OutcomeReflectsSlots(trace: seq<State>, steps: seq<Step>, j: nat)
    requires Run(trace, steps) && j < |trace|
    ensures |trace[j].slots| == |trace[j].agents| && Decided(trace[j])
  {
    hide Next, Enabled, Decided;
    RunInv(trace, steps, j);
    if j == 0 {
      DecidedInit(trace[0]);
    } else {
      OutcomeReflectsSlots(trace, steps, j - 1);
      RunInv(trace, steps, j - 1);
      DecidedStep(trace[j - 1], steps[j - 1]);
    }
  }

  /** A reply one can use: complete, with something to read in it. */
  predicate Good(r: Reply) {
    r.status == "complete" && exists k :: 0 <= k < |r.text| && !IsSpace(r.text[k])
  }

  lemma {:induction false} OkSlotsOnly(slots: seq<Slot>, i: nat)
    requires i < |slots| && Usable(slots[i]) && forall k :: 0 <= k < |slots| && k != i ==> !Usable(slots[k])
    ensures OkSlots(slots) == [i]
  {
    hide Usable;
    var n := |slots| - 1;
    if i < n { OkSlotsOnly(slots[..n], i); } else { assert OkSlots(slots[..n]) == []; }
  }

  lemma GoodIffUsable(agent: Id, w: Slot)
    ensures Good(Reply(agent, TextOf(w), StatusOf(w))) <==> Usable(w)
  {}

  /** The stored outcome by the stored replies: complete only if some reply is good, and if just one is, with its text
      as the merged text, word for word; error only if none is. */
  lemma OutcomeByReplies(trace: seq<State>, steps: seq<Step>, j: nat, i: nat)
    requires Run(trace, steps) && j < |trace| && trace[j].row.Some? && i < |trace[j].row.value.replies|
    ensures var row := trace[j].row.value;
        && (row.status == "complete" ==> exists k :: 0 <= k < |row.replies| && Good(row.replies[k]))
        && (row.status == "error" ==> !Good(row.replies[i]))
        && (row.status == "complete" && (forall k :: 0 <= k < |row.replies| ==> (Good(row.replies[k]) <==> k == i)) ==>
              row.merged.text == row.replies[i].text)
  {
    hide Good, Usable;
    RunInv(trace, steps, j);
    OutcomeReflectsSlots(trace, steps, j);
    var s := trace[j];
    forall k | 0 <= k < |s.slots| ensures Good(s.row.value.replies[k]) <==> Usable(s.slots[k]) {
      GoodIffUsable(s.agents[k], s.slots[k]);
    }
    if s.row.value.status == "complete" {
      var ok := OkSlots(s.slots)[0];
      assert Good(s.row.value.replies[ok]);
      if forall k :: 0 <= k < |s.row.value.replies| ==> (Good(s.row.value.replies[k]) <==> k == i) {
        OkSlotsOnly(s.slots, i);
      }
    }
  }

  lemma DecidedInit(s: State)
    requires Init(s)
    ensures Decided(s)
  {}

  // ---------- the barrier ----------

  ghost predicate Barrier(s: State) {
    && (forall k, l :: 0 <= k < l < |s.log| && IsMerge(s, s.log[k].body) ==> !IsSlot(s, s.log[l].body))
    && (!s.mergeBegun ==> forall k :: 0 <= k < |s.log| ==> !IsMerge(s, s.log[k].body))
  }

  lemma BarrierStep(s: State, a: Step)
    requires Inv(s) && Enabled(s, a) && Barrier(s)
    ensures Barrier(Next(s, a))
  {
    hide OkSlots, SlotOk, Usable;
    var t := Next(s, a);
    assert SlotStep(a) && AllOver(s) ==> Over(s.slots[a.i].pc);
    forall k, l | 0 <= k < l < |t.log| && IsMerge(t, t.log[k].body) ensures !IsSlot(t, t.log[l].body) {
      assert t.log[k] == s.log[k];
      if l < |s.log| { assert t.log[l] == s.log[l]; }
    }
  }

  lemma BarrierInit(s: State)
    requires Init(s)
    ensures Barrier(s)
  {
    assert forall k :: 0 <= k < |s.log| ==> !Own(s, s.log[k].body);
  }

  /** No slot event follows a merge event: the merge starts only after every slot has ended. */
  lemma {:induction false} MergeAfterAllSlots(trace: seq<State>, steps: seq<Step>, j: nat)
    requires Run(trace, steps) && j < |trace|
    ensures Barrier(trace[j])
    ensures trace[j].mergeBegun ==> AllOver(trace[j])
  {
    hide Next, Enabled, Barrier, SlotsInv, PhaseInv, Init;
    RunInv(trace, steps, j);
    MergedMeansOver(trace[j]);
    if j == 0 {
      BarrierInit(trace[0]);
    } else {
      MergeAfterAllSlots(trace, steps, j - 1);
      RunInv(trace, steps, j - 1);
      BarrierStep(trace[j - 1], steps[j - 1]);
    }
  }

  lemma MergedMeansOver(s: State)
    requires Inv(s)
    ensures s.mergeBegun ==> AllOver(s)
  {}

  // ---------- how a turn ends ----------

  lemma LostStep(s: State, a: Step)
    requires Inv(s) && Enabled(s, a) && s.phase == Lost
    ensures Next(s, a).phase == Lost && Next(s, a).row == None && Steady(s, Next(s, a))
    ensures var t := Next(s, a);
        forall l :: |s.log| <= l < |t.log| && Own(s, t.log[l].body) ==> t.log[l].body.File?
  {
    hide OkSlots, SlotOk, Usable;
    assert SlotStep(a) ==> Over(s.slots[a.i].pc);
  }

  lemma {:induction false} LostStays(trace: seq<State>, steps: seq<Step>, j: nat, k: nat)
    requires Run(trace, steps) && j <= k < |trace| && trace[j].phase == Lost
    ensures trace[k].phase == Lost && trace[k].row == None && trace[j].log <= trace[k].log
    ensures forall l :: |trace[j].log| <= l < |trace[k].log| && Own(trace[0], trace[k].log[l].body) ==>
              trace[k].log[l].body.File?
  {
    hide Next, Enabled, Steady, Inv;
    RunInv(trace, steps, k);
    LostHasBegun(trace[k]);
    if j < k {
      LostStays(trace, steps, j, k - 1);
      RunInv(trace, steps, k - 1);
      LostStep(trace[k - 1], steps[k - 1]);
      LogGrows(trace[k - 1], trace[k]);
    }
  }

  /** A turn whose merge crashed stays as it is: nothing is ever stored, and no event but a file follows, so that every
      client goes on showing the merge as streaming. */
  lemma LostForever(trace: seq<State>, steps: seq<Step>, j: nat, k: nat, p: nat, m: Option<Message>)
    requires Run(trace, steps) && j <= k < |trace| && trace[j].phase == Lost
    requires Fresh(m, trace[0]) && p <= trace[0].base
    ensures trace[k].phase == Lost && trace[k].row == None && trace[j].log <= trace[k].log
    ensures forall l :: |trace[j].log| <= l < |trace[k].log| && Own(trace[0], trace[k].log[l].body) ==>
              trace[k].log[l].body.File?
    ensures var r := Replay(m, trace[k], p);
        r.Some? && r.value.merged == Some(Merged(trace[k].mergeSent, STREAMING))
  {
    hide Run, Inv, Replay;
    LostStays(trace, steps, j, k);
    RunInv(trace, steps, k);
    LostHasBegun(trace[k]);
    AttachedShows(trace, steps, k, p, m);
  }

  lemma LogGrows(s: State, t: State)
    requires Steady(s, t)
    ensures s.log <= t.log
  {}

  lemma LostHasBegun(s: State)
    requires Inv(s)
    ensures s.phase == Lost ==> s.begun && s.mergeBegun && s.row == None
  {}

  /** That is the only way to end without a done event: at every other point of every run the turn itself can go on,
      unless it is finished. */
  lemma CanGoOn(trace: seq<State>, steps: seq<Step>, j: nat) returns (a: Step)
    requires Run(trace, steps) && j < |trace|
    ensures trace[j].phase == Finished || trace[j].phase == Lost || Enabled(trace[j], a)
    ensures !a.Decorate? && !a.Elsewhere? && !a.PublishError?
    ensures trace[j].begun ==> forall f :: Enabled(trace[j], Decorate(f))
  {
    assert trace[j].begun ==> forall f :: Enabled(trace[j], Decorate(f));
    RunInv(trace, steps, j);
    OutcomeReflectsSlots(trace, steps, j);
    a := StepFor(trace[j]);
  }

  lemma StepFor(s: State) returns (a: Step)
    requires Inv(s) && Decided(s)
    ensures s.phase == Finished || s.phase == Lost || Enabled(s, a)
    ensures !a.Decorate? && !a.Elsewhere? && !a.PublishError?
  {
    hide OkSlots, SlotsInv, AllOver;
    if s.begun && s.phase == Answering {
      a := AnswerStep(s);
    } else if s.phase == Merging {
      a := if s.mergeUnsent != "" then MergeSend
           else if |OkSlots(s.slots)| == 1 && s.merged == "" then MergeCopy
           else MergeFinalize;
    } else {
      a := if s.begun then PublishDone else Begin;
    }
  }

  lemma AnswerStep(s: State) returns (a: Step)
    requires s.begun && s.phase == Answering
    ensures Enabled(s, a) && (a.SlotStop? || a.SlotReply? || a.GiveUp? || a.MergeBegin?)
  {
    hide OkSlots;
    if i :| 0 <= i < |s.slots| && !Over(s.slots[i].pc) {
      a := if s.slots[i].pc.Talking? then SlotStop(i, "complete") else SlotReply(i);
    } else {
      a := if OkSlots(s.slots) == [] then GiveUp("error") else MergeBegin;
    }
  }

  // ---------- what the merge said, and what else is published ----------

  /** What the merging agent has said so far. */
  function MergeSaid(steps: seq<Step>): string {
    if steps == [] then ""
    else
      var front, a := MergeSaid(steps[..|steps| - 1]), steps[|steps| - 1];
      if a.MergeChunk? then front + a.delta else front
  }

  ghost predicate MergeHeard(s: State, said: string) {
    && (s.phase == Answering ==> said == "")
    && (s.phase != Answering && |OkSlots(s.slots)| > 1 ==> s.merged == if s.mergeBegun then said else "")
    && (!s.mergeBegun ==> said == "")
    && (s.row.Some? && s.row.value.status == "complete" && |OkSlots(s.slots)| > 1 ==> s.row.value.merged.text == said)
  }

  lemma MergeHeardStep(s: State, a: Step, said: string)
    requires PhaseInv(s) && Enabled(s, a) && MergeHeard(s, said)
    ensures MergeHeard(Next(s, a), if a.MergeChunk? then said + a.delta else said)
  {
    hide OkSlots;
    assert SlotStep(a) && AllOver(s) ==> Over(s.slots[a.i].pc);
    if SlotStep(a) {
      assert s.phase == Answering;
    } else if MergeStep(a) {
      match a
      case MergeBegin =>
      case MergeCopy =>
      case MergeChunk(_) =>
      case MergeSend =>
      case MergeFinalize =>
      case MergeCrash =>
    }
  }

  lemma NothingMerged(s: State)
    requires Init(s)
    ensures MergeHeard(s, "")
  {}

  lemma {:induction false} MergeIsHeard(trace: seq<State>, steps: seq<Step>, j: nat)
    requires Run(trace, steps) && j < |trace|
    ensures MergeHeard(trace[j], MergeSaid(steps[..j]))
  {
    hide Next, Enabled, MergeHeard;
    if j == 0 {
      NothingMerged(trace[0]);
    } else {
      MergeIsHeard(trace, steps, j - 1);
      RunInv(trace, steps, j - 1);
      MergeHeardStep(trace[j - 1], steps[j - 1], MergeSaid(steps[..j - 1]));
      assert steps[..j][..j - 1] == steps[..j - 1];
    }
  }

  /** With two good replies or more, the stored merged text of a complete roundtable is all the merging agent said. */
  lemma MergedIsSaid(trace: seq<State>, steps: seq<Step>, j: nat, i: nat, k: nat)
    requires Run(trace, steps) && j < |trace| && trace[j].row.Some? && trace[j].row.value.status == "complete"
    requires i < k < |trace[j].row.value.replies|
    requires Good(trace[j].row.value.replies[i]) && Good(trace[j].row.value.replies[k])
    ensures trace[j].row.value.merged.text == MergeSaid(steps[..j])
  {
    hide Next, Enabled, Good, MergeSaid, SlotsInv;
    RunInv(trace, steps, j);
    MergeIsHeard(trace, steps, j);
    TwoGood(trace[j], i, k);
  }

  lemma TwoGood(s: State, i: nat, k: nat)
    requires PhaseInv(s) && s.row.Some? && i < k < |s.row.value.replies|
    requires Good(s.row.value.replies[i]) && Good(s.row.value.replies[k])
    ensures |OkSlots(s.slots)| > 1
  {
    hide Good, Usable;
    GoodIffUsable(s.agents[i], s.slots[i]);
    GoodIffUsable(s.agents[k], s.slots[k]);
    assert i in OkSlots(s.slots) && k in OkSlots(s.slots);
  }

  /** The files and the failure the message's events announce, in order. */
  function Extras(mid: Id, log: seq<Event>): seq<Body> {
    if log == [] then []
    else
      var front, b := Extras(mid, log[..|log| - 1]), log[|log| - 1].body;
      if (b.File? || b.Error?) && b.mid == mid then front + [b] else front
  }

  function ExtraSteps(mid: Id, steps: seq<Step>): seq<Body> {
    if steps == [] then []
    else
      var front, a := ExtraSteps(mid, steps[..|steps| - 1]), steps[|steps| - 1];
      if a.Decorate? then front + [File(mid, a.file)] else if a.PublishError? then front + [Error(mid)] else front
  }

  lemma ExtraStep(s: State, a: Step)
    requires |s.slots| == |s.agents| && Enabled(s, a)
    ensures Extras(s.mid, Next(s, a).log) ==
            Extras(s.mid, s.log)
            + if a.Decorate? then [File(s.mid, a.file)] else if a.PublishError? then [Error(s.mid)] else []
  {
    hide Extras, OkSlots, AllOver;
    var t := Next(s, a);
    if t.log != s.log {
      assert t.log == s.log + [t.log[|s.log|]];
      ExtraOne(s.mid, s.log, t.log[|s.log|]);
    }
  }

  lemma ExtraOne(mid: Id, log: seq<Event>, e: Event)
    ensures Extras(mid, log + [e]) ==
            Extras(mid, log) + if (e.body.File? || e.body.Error?) && e.body.mid == mid then [e.body] else []
  {
    assert (log + [e])[..|log|] == log;
  }

  lemma {:induction false} NoExtras(mid: Id, log: seq<Event>)
    requires forall k :: 0 <= k < |log| ==> !((log[k].body.File? || log[k].body.Error?) && log[k].body.mid == mid)
    ensures Extras(mid, log) == []
  {
    if log != [] { NoExtras(mid, log[..|log| - 1]); }
  }

  lemma {:induction false} ExtrasAreSteps(trace: seq<State>, steps: seq<Step>, j: nat)
    requires Run(trace, steps) && j < |trace|
    ensures Extras(trace[0].mid, trace[j].log) == ExtraSteps(trace[0].mid, steps[..j])
  {
    hide Next, Enabled, Extras;
    RunInv(trace, steps, j);
    if j == 0 {
      InitExtras(trace[0]);
    } else {
      ExtrasAreSteps(trace, steps, j - 1);
      RunInv(trace, steps, j - 1);
      ExtraStep(trace[j - 1], steps[j - 1]);
      assert steps[..j][..j - 1] == steps[..j - 1];
    }
  }

  lemma InitExtras(s: State)
    requires Init(s)
    ensures Extras(s.mid, s.log) == []
  {
    assert forall k :: 0 <= k < |s.log| ==> !Own(s, s.log[k].body);
    NoExtras(s.mid, s.log);
  }

  /** A done event of the message carries the stored status, and is there exactly once the turn is finished; a failure
      is announced only where it is stored. */
  ghost predicate DoneOk(s: State) {
    && (forall k :: 0 <= k < |s.log| && s.log[k].body.Done? && s.log[k].body.mid == s.mid ==>
          s.phase == Finished && s.row.Some? && s.log[k].body == Done(s.mid, s.row.value.status, None))
    && (forall k :: 0 <= k < |s.log| && s.log[k].body.Error? && s.log[k].body.mid == s.mid ==>
          s.row.Some? && s.row.value.status == "error")
    && (s.phase == Finished ==> exists k :: 0 <= k < |s.log| && s.log[k].body.Done? && s.log[k].body.mid == s.mid)
  }

  lemma DoneStep(s: State, a: Step)
    requires Inv(s) && Enabled(s, a) && DoneOk(s)
    ensures DoneOk(Next(s, a))
  {
    hide OkSlots, SlotOk, Usable;
    var t := Next(s, a);
    assert SlotStep(a) ==> t.phase == s.phase && t.row == s.row;
    assert s.row.Some? ==> t.row == s.row;
    assert forall k :: 0 <= k < |s.log| ==> t.log[k] == s.log[k];
    if a.PublishDone? { assert t.log[|s.log|].body.Done? && t.log[|s.log|].body.mid == t.mid; }
    if s.phase == Finished {
      var k :| 0 <= k < |s.log| && s.log[k].body.Done? && s.log[k].body.mid == s.mid;
      assert t.log[k].body.Done? && t.log[k].body.mid == t.mid;
    }
  }

  lemma DoneInit(s: State)
    requires Init(s)
    ensures DoneOk(s)
  {
    assert forall k :: 0 <= k < |s.log| ==> !Own(s, s.log[k].body);
  }

  lemma {:induction false} DoneCarriesStatus(trace: seq<State>, steps: seq<Step>, j: nat)
    requires Run(trace, steps) && j < |trace|
    ensures DoneOk(trace[j])
  {
    hide Next, Enabled, DoneOk, Inv, Init;
    if j == 0 {
      DoneInit(trace[0]);
    } else {
      DoneCarriesStatus(trace, steps, j - 1);
      RunInv(trace, steps, j - 1);
      DoneStep(trace[j - 1], steps[j - 1]);
    }
  }
}
