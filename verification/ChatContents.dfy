/** What a message and a modal show besides the text: status, thinking, tool calls, the question asked. */
module ChatContents {
  import opened Wrappers
  import opened Chat

  /** The event is about this message. */
  predicate Own(b: Body, id: Id) {
    b.mid == id && !b.ConfirmRequest? && !b.ConfirmResponse?
  }

  // ---------- status and thinking ----------

  /** The last end of the turn decides. */
  function StatusAfter(status: string, id: Id, es: seq<Event>): string {
    if es == [] then status
    else
      var b := es[|es| - 1].body;
      if b.Error? && b.mid == id then "error"
      else if b.Done? && b.mid == id then if b.status == "" then "complete" else b.status
      else StatusAfter(status, id, es[..|es| - 1])
  }

  /** The thoughts that arrived while the message was streaming. */
  function ThoughtsAfter(thinking: string, status: string, id: Id, es: seq<Event>): string {
    if es == [] then thinking
    else
      var front, b := es[..|es| - 1], es[|es| - 1].body;
      ThoughtsAfter(thinking, status, id, front)
      + if b.Thought? && b.mid == id && StatusAfter(status, id, front) == STREAMING then b.delta else ""
  }

  /** The deltas that arrived while the message was streaming; the text of an end of the turn, if it has one, replaces
      them. */
  function TextAfter(text: string, status: string, id: Id, es: seq<Event>): string {
    if es == [] then text
    else
      var front, b := es[..|es| - 1], es[|es| - 1].body;
      var before := TextAfter(text, status, id, front);
      if b.Done? && b.mid == id && b.text.Some? then b.text.value
      else if b.Token? && b.mid == id && StatusAfter(status, id, front) == STREAMING then before + b.delta
      else before
  }

  lemma TouchedText(m: Message, b: Body)
    ensures Touch(m, b).text ==
            if b.Done? && b.text.Some? then b.text.value
            else if b.Token? && m.status == STREAMING then m.text + b.delta else m.text
  {}

  lemma TouchedStatus(m: Message, b: Body)
    ensures Touch(m, b).status ==
            if b.Error? then "error"
            else if b.Done? then (if b.status == "" then "complete" else b.status)
            else m.status
    ensures Touch(m, b).thinking == if b.Thought? && m.status == STREAMING then m.thinking + b.delta else m.thinking
  {}

  /** A message's status is that of the last end of its turn, its text the deltas that arrived before or the text of
      that end, and its thinking every thought that arrived before. */
  lemma {:induction false} StatusAndThinking(m: Message, id: Id, es: seq<Event>)
    ensures var r := FollowAll(Some(m), id, es);
        && r.Some?
        && r.value.status == StatusAfter(m.status, id, es)
        && r.value.text == TextAfter(m.text, m.status, id, es)
        && r.value.thinking == ThoughtsAfter(m.thinking, m.status, id, es)
  {
    hide Touch;
    if es != [] {
      var front, b := es[..|es| - 1], es[|es| - 1].body;
      StatusAndThinking(m, id, front);
      TouchedStatus(FollowAll(Some(m), id, front).value, b);
      TouchedText(FollowAll(Some(m), id, front).value, b);
    }
  }

  // ---------- roundtable replies ----------

  ghost predicate BySlot(agents: seq<RtAgent>) {
    forall i, j :: 0 <= i < j < |agents| ==> agents[i].slot <= agents[j].slot
  }

  lemma {:induction false} InsertKeepsAll(a: RtAgent, sorted: seq<RtAgent>)
    ensures multiset(InsertBySlot(a, sorted)) == multiset(sorted) + multiset{a}
    ensures forall b :: b in InsertBySlot(a, sorted) <==> b == a || b in sorted
  {
    if sorted != [] && sorted[0].slot < a.slot {
      InsertKeepsAll(a, sorted[1..]);
      assert sorted == [sorted[0]] + sorted[1..];
    } else {
      assert InsertBySlot(a, sorted) == [a] + sorted;
    }
  }

  lemma {:induction false} InsertSorts(a: RtAgent, sorted: seq<RtAgent>)
    requires BySlot(sorted)
    ensures BySlot(InsertBySlot(a, sorted))
  {
    InsertKeepsAll(a, sorted);
    if sorted != [] && sorted[0].slot < a.slot {
      InsertSorts(a, sorted[1..]);
      InsertKeepsAll(a, sorted[1..]);
      var tail := InsertBySlot(a, sorted[1..]);
      forall k | 0 <= k < |tail| ensures sorted[0].slot <= tail[k].slot {
        assert tail[k] in tail;
      }
    } else {
      assert InsertBySlot(a, sorted) == [a] + sorted;
    }
  }

  /** A roundtable's replies are laid out by slot, whatever order its agents are announced in. */
  lemma {:induction false} SortsBySlot(agents: seq<RtAgent>)
    ensures BySlot(SortBySlot(agents)) && multiset(SortBySlot(agents)) == multiset(agents)
  {
    if agents != [] {
      SortsBySlot(agents[1..]);
      InsertSorts(agents[0], SortBySlot(agents[1..]));
      InsertKeepsAll(agents[0], SortBySlot(agents[1..]));
      assert agents == [agents[0]] + agents[1..];
    }
  }

  /** A reply grows while it is streaming; whatever comes after its end is not shown. */
  function ReplyAfter(r: Reply, slot: nat, id: Id, es: seq<Event>): Reply {
    if es == [] then r
    else
      var before, b := ReplyAfter(r, slot, id, es[..|es| - 1]), es[|es| - 1].body;
      if b.RtToken? && b.mid == id && b.slot == slot && before.status == STREAMING then
        before.(text := before.text + b.delta)
      else if b.RtReplyDone? && b.mid == id && b.slot == slot then
        before.(status := if b.status == "" then "complete" else b.status)
      else before
  }

  /** The merged text likewise, between the start of the merge and the end of the turn. */
  function MergedAfter(m: Merged, id: Id, es: seq<Event>): Merged {
    if es == [] then m
    else
      var before, b := MergedAfter(m, id, es[..|es| - 1]), es[|es| - 1].body;
      if b.MergeStart? && b.mid == id then before.(status := STREAMING)
      else if before.status != STREAMING then before
      else if b.MergeToken? && b.mid == id then before.(text := before.text + b.delta)
      else if b.Done? && b.mid == id then before.(status := "complete")
      else before
  }

  lemma TouchedReply(m: Message, b: Body, slot: nat)
    requires slot < |m.replies|
    ensures |Touch(m, b).replies| == |m.replies|
    ensures var before := m.replies[slot];
        Touch(m, b).replies[slot] ==
          if b.RtToken? && b.slot == slot && before.status == STREAMING then before.(text := before.text + b.delta)
          else if b.RtReplyDone? && b.slot == slot then
            before.(status := if b.status == "" then "complete" else b.status)
          else before
  {}

  lemma TouchedMerged(m: Message, b: Body)
    requires m.merged.Some?
    ensures Touch(m, b).merged.Some?
    ensures var before := m.merged.value;
        Touch(m, b).merged.value ==
          if b.MergeStart? then before.(status := STREAMING)
          else if before.status != STREAMING then before
          else if b.MergeToken? then before.(text := before.text + b.delta)
          else if b.Done? then before.(status := "complete")
          else before
  {}

  /** Each reply, and the merged text, is the fold of its own events, whatever the other slots say in between. */
  lemma {:induction false} RepliesShown(m: Message, id: Id, es: seq<Event>, slot: nat)
    requires slot < |m.replies| && m.merged.Some?
    ensures var r := FollowAll(Some(m), id, es);
        && r.Some? && |r.value.replies| == |m.replies| && r.value.merged.Some?
        && r.value.replies[slot] == ReplyAfter(m.replies[slot], slot, id, es)
        && r.value.merged.value == MergedAfter(m.merged.value, id, es)
  {
    hide Touch;
    if es != [] {
      var front, b := es[..|es| - 1], es[|es| - 1].body;
      RepliesShown(m, id, front, slot);
      TouchedReply(FollowAll(Some(m), id, front).value, b, slot);
      TouchedMerged(FollowAll(Some(m), id, front).value, b);
    }
  }

  // ---------- tool calls ----------

  /** What a message shows of the tool call with this title. */
  function StepStatus(steps: seq<ToolStep>, title: string): Option<string> {
    var i := FindStep(steps, title);
    if i < |steps| then Some(steps[i].status) else None
  }

  /** The last status announced under the title, `running` until there is one. A call without a title is listed under
      a stand-in, which a later call can name. */
  function CallAfter(status: Option<string>, title: string, id: Id, es: seq<Event>): Option<string> {
    if es == [] then status
    else
      var before, b := CallAfter(status, title, id, es[..|es| - 1]), es[|es| - 1].body;
      if !b.ToolCall? || b.mid != id || (b.title != title && (b.title != "" || title != "调用工具")) then before
      else if before.None? then Some(if b.status == "" then "running" else b.status)
      else if b.title == "" || b.status == "" then before
      else Some(b.status)
  }

  lemma {:induction false} FirstStep(ss: seq<ToolStep>, i: nat, title: string)
    requires i < |ss| && ss[i].title == title && forall j :: 0 <= j < i ==> ss[j].title != title
    ensures FindStep(ss, title) == i
  {
    if i > 0 { FirstStep(ss[1..], i - 1, title); }
  }

  lemma StepUpdate(ss: seq<ToolStep>, i: nat, s: ToolStep, title: string)
    requires i < |ss| && s.title == ss[i].title && i == FindStep(ss, s.title)
    ensures StepStatus(ss[i := s], title) == if title == s.title then Some(s.status) else StepStatus(ss, title)
  {
    var j := FindStep(ss, title);
    if j < |ss| {
      FirstStep(ss[i := s], j, title);
    } else {
      assert forall k :: 0 <= k < |ss| ==> ss[i := s][k].title == ss[k].title;
    }
  }

  lemma StepAppend(ss: seq<ToolStep>, s: ToolStep, title: string)
    ensures StepStatus(ss + [s], title) ==
            if StepStatus(ss, title).Some? then StepStatus(ss, title)
            else if s.title == title then Some(s.status) else None
  {
    var all, j := ss + [s], FindStep(ss, title);
    if j < |ss| {
      FirstStep(all, j, title);
    } else if s.title == title {
      FirstStep(all, |ss|, title);
    } else {
      assert forall k :: 0 <= k < |ss| ==> all[k] == ss[k];
    }
  }

  /** No step is without a title. */
  ghost predicate Titled(ss: seq<ToolStep>) {
    forall i :: 0 <= i < |ss| ==> ss[i].title != ""
  }

  lemma CallTouched(m: Message, b: Body, title: string)
    requires Titled(m.steps) && b.ToolCall? && title != ""
    ensures Titled(Touch(m, b).steps)
    ensures var before, after := StepStatus(m.steps, title), StepStatus(Touch(m, b).steps, title);
        after ==
          if b.title != title && (b.title != "" || title != "调用工具") then before
          else if before.None? then Some(if b.status == "" then "running" else b.status)
          else if b.title == "" || b.status == "" then before
          else Some(b.status)
  {
    var i := FindStep(m.steps, b.title);
    if i < |m.steps| {
      StepUpdate(m.steps, i, m.steps[i].(status := Or(b.status, m.steps[i].status)), title);
    } else {
      StepAppend(m.steps, ToolStep(Or(b.title, "调用工具"), Or(b.status, "running")), title);
    }
  }

  lemma StepsUntouched(m: Message, b: Body)
    ensures !b.ToolCall? ==> Touch(m, b).steps == m.steps
  {}

  /** Each tool call is shown under its title with the last status announced for it. */
  lemma {:induction false} CallsShown(m: Message, id: Id, es: seq<Event>, title: string)
    requires Titled(m.steps) && title != ""
    ensures var r := FollowAll(Some(m), id, es);
        r.Some? && Titled(r.value.steps)
        && StepStatus(r.value.steps, title) == CallAfter(StepStatus(m.steps, title), title, id, es)
  {
    hide Touch, StepStatus, Titled;
    if es != [] {
      var front, b := es[..|es| - 1], es[|es| - 1].body;
      CallsShown(m, id, front, title);
      StepsUntouched(FollowAll(Some(m), id, front).value, b);
      if b.ToolCall? { CallTouched(FollowAll(Some(m), id, front).value, b, title); }
    }
  }

  // ---------- questions ----------

  /** The question an open modal asks. */
  function Question(rs: seq<Request>, id: Id): Option<string> {
    if rs == [] then None else if rs[0].id == id then Some(rs[0].question) else Question(rs[1..], id)
  }

  /** The first question asked under this id since it was last answered. */
  function QuestionAfter(asked: Option<string>, id: Id, es: seq<Event>): Option<string> {
    if es == [] then asked
    else
      var before, b := QuestionAfter(asked, id, es[..|es| - 1]), es[|es| - 1].body;
      if b.ConfirmResponse? && b.requestId == id then None
      else if b.ConfirmRequest? && b.request.id == id && before.None? then Some(b.request.question)
      else before
  }

  lemma {:induction false} QuestionIffOpen(rs: seq<Request>, id: Id)
    ensures Question(rs, id).Some? <==> HasRequest(rs, id)
  {
    if rs != [] {
      QuestionIffOpen(rs[1..], id);
      HasTail(rs);
    }
  }

  lemma {:induction false} QuestionAppend(rs: seq<Request>, r: Request, id: Id)
    ensures Question(rs + [r], id) ==
            if Question(rs, id).Some? then Question(rs, id) else if r.id == id then Some(r.question) else None
  {
    if rs == [] {
      assert ([r])[1..] == [];
    } else {
      assert (rs + [r])[1..] == rs[1..] + [r];
      QuestionAppend(rs[1..], r, id);
    }
  }

  lemma {:induction false} QuestionWithout(rs: seq<Request>, gone: Id, id: Id)
    ensures Question(Without(rs, gone), id) == if id == gone then None else Question(rs, id)
  {
    if rs != [] {
      QuestionWithout(rs[1..], gone, id);
      assert ([rs[0]] + Without(rs[1..], gone))[1..] == Without(rs[1..], gone);
    }
  }

  lemma HandledQuestion(c: Client, b: Body, id: Id)
    ensures Question(Handle(c, b).pending, id) ==
            if b.ConfirmResponse? && b.requestId == id then None
            else if b.ConfirmRequest? && b.request.id == id && Question(c.pending, id).None?
            then Some(b.request.question)
            else Question(c.pending, id)
  {
    hide Question, Without, HasRequest, Touch;
    match b
    case ConfirmRequest(_, r) =>
      QuestionIffOpen(c.pending, r.id);
      QuestionIffOpen(c.pending, id);
      QuestionAppend(c.pending, r, id);
    case ConfirmResponse(_, rid, _) => QuestionWithout(c.pending, rid, id);
    case _ =>
  }

  /** An open modal asks the first question that came under its id since it was last answered. */
  lemma {:induction false} QuestionsShown(c: Client, es: seq<Event>, id: Id)
    ensures Question(ApplyAll(c, es).pending, id) == QuestionAfter(Question(c.pending, id), id, Mine(es, c.active))
  {
    hide Question, Handle, Apply;
    if es != [] {
      var front, e := es[..|es| - 1], es[|es| - 1];
      var mine := Mine(front, c.active);
      QuestionsShown(c, front, id);
      ClientProjects(c, front, id);
      OthersAreDropped(ApplyAll(c, front), e);
      HandledQuestion(ApplyAll(c, front), e.body, id);
      assert (mine + [e])[..|mine|] == mine;
    }
  }

  /** The question of the first entry under this id that waits for its answer. */
  function FirstPending(es: seq<Entry>, id: Id): Option<string> {
    if es == [] then None
    else
      var before, e := FirstPending(es[..|es| - 1], id), es[|es| - 1];
      if before.None? && e.id == id && e.status == PENDING then Some(e.question) else before
  }

  /** A reload asks the stored questions again, word for word. */
  lemma {:induction false} RestoredQuestions(es: seq<Entry>, id: Id)
    ensures Question(Restored(es), id) == FirstPending(es, id)
  {
    if es != [] {
      hide Question, HasRequest;
      var front, e := es[..|es| - 1], es[|es| - 1];
      RestoredQuestions(front, id);
      QuestionIffOpen(Restored(front), e.id);
      QuestionAppend(Restored(front), Request(e.id, e.question), id);
    }
  }
}
