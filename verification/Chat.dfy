/** The browser's chat store: how a client folds the events of a stream into its message list
    and its list of open confirmations. */
module Chat {
  import opened Wrappers

  type Id = string

  const STREAMING := "streaming"
  const PENDING := "pending"

  datatype Request = Request(id: Id, question: string)
  datatype RtAgent = RtAgent(slot: nat, agentId: Id)
  datatype Reply = Reply(agentId: Id, text: string, status: string)
  datatype Merged = Merged(text: string, status: string)
  datatype ToolStep = ToolStep(title: string, status: string)
  datatype FileRef = FileRef(id: Id, name: string)

  datatype Message = Message(
    id: Id, role: string, text: string, status: string,
    replies: seq<Reply>, merged: Option<Merged>,
    steps: seq<ToolStep>, thinking: string, plan: seq<string>, files: seq<FileRef>)

  /** Absent optional strings are empty; both are falsy in the source. */
  datatype Body =
    | Start(mid: Id)
    | Token(mid: Id, delta: string)
    | RtStart(mid: Id, agents: seq<RtAgent>)
    | RtToken(mid: Id, slot: nat, delta: string)
    | RtReplyDone(mid: Id, slot: nat, status: string)
    | MergeStart(mid: Id)
    | MergeToken(mid: Id, delta: string)
    | ToolCall(mid: Id, title: string, status: string)
    | Thought(mid: Id, delta: string)
    | Plan(mid: Id, entries: seq<string>)
    | File(mid: Id, file: FileRef)
    | ConfirmRequest(mid: Id, request: Request)
    | ConfirmResponse(mid: Id, requestId: Id, choice: string)
    | Done(mid: Id, status: string, text: Option<string>)
    | Error(mid: Id)

  datatype Event = Event(conversation: Id, body: Body)

  /** A clarify question as stored in a message row. */
  datatype Entry = Entry(id: Id, question: string, status: string, choice: string)

  /** A message as the API returns it, with the clarify entries kept in its content. */
  datatype Stored = Stored(message: Message, clarifies: seq<Entry>)

  datatype Client = Client(active: Id, messages: seq<Message>, pending: seq<Request>)

  function Or(s: string, other: string): string { if s == "" then other else s }

  // ---------- the reducer as a function ----------

  /** `find`: the first message with this id, or the length of the list. */
  function Find(ms: seq<Message>, id: Id): (i: nat)
    ensures i <= |ms| && (i < |ms| ==> ms[i].id == id)
    ensures forall j :: 0 <= j < i ==> ms[j].id != id
  {
    if ms == [] || ms[0].id == id then 0 else 1 + Find(ms[1..], id)
  }

  function FindStep(ss: seq<ToolStep>, title: string): (i: nat)
    ensures i <= |ss| && (i < |ss| ==> ss[i].title == title)
    ensures forall j :: 0 <= j < i ==> ss[j].title != title
  {
    if ss == [] || ss[0].title == title then 0 else 1 + FindStep(ss[1..], title)
  }

  predicate HasFile(fs: seq<FileRef>, id: Id) {
    exists i :: 0 <= i < |fs| && fs[i].id == id
  }

  predicate HasRequest(rs: seq<Request>, id: Id) {
    exists i :: 0 <= i < |rs| && rs[i].id == id
  }

  function Without(rs: seq<Request>, id: Id): (r: seq<Request>)
    ensures forall k :: HasRequest(r, k) <==> k != id && HasRequest(rs, k)
  {
    if rs == [] then []
    else
      assert forall k :: HasRequest(rs, k) <==> k == rs[0].id || HasRequest(rs[1..], k) by { HasTail(rs); }
      var t := Without(rs[1..], id);
      if rs[0].id == id then t
      else
        assert forall k :: HasRequest([rs[0]] + t, k) <==> k == rs[0].id || HasRequest(t, k) by {
          HasTail([rs[0]] + t);
        }
        [rs[0]] + t
  }

  lemma HasTail(rs: seq<Request>)
    requires rs != []
    ensures forall k :: HasRequest(rs, k) <==> k == rs[0].id || HasRequest(rs[1..], k)
  {
    forall k ensures HasRequest(rs, k) <==> k == rs[0].id || HasRequest(rs[1..], k) {
      if HasRequest(rs[1..], k) {
        var i :| 0 <= i < |rs[1..]| && rs[1..][i].id == k;
        assert rs[i + 1].id == k;
      }
      if HasRequest(rs, k) && k != rs[0].id {
        var i :| 0 <= i < |rs| && rs[i].id == k;
        assert rs[1..][i - 1].id == k;
      }
    }
  }

  lemma HasAppend(rs: seq<Request>, r: Request)
    ensures forall k :: HasRequest(rs + [r], k) <==> HasRequest(rs, k) || k == r.id
  {
    forall k ensures HasRequest(rs + [r], k) <==> HasRequest(rs, k) || k == r.id {
      var all := rs + [r];
      if HasRequest(rs, k) {
        var i :| 0 <= i < |rs| && rs[i].id == k;
        assert all[i].id == k;
      }
      if k == r.id { assert all[|rs|].id == k; }
      if HasRequest(all, k) {
        var i :| 0 <= i < |all| && all[i].id == k;
        assert i < |rs| ==> rs[i].id == k;
      }
    }
  }

  function InsertBySlot(a: RtAgent, sorted: seq<RtAgent>): seq<RtAgent> {
    if sorted == [] || a.slot <= sorted[0].slot then [a] + sorted
    else [sorted[0]] + InsertBySlot(a, sorted[1..])
  }

  /** The stable sort of `rt_start`. */
  function SortBySlot(agents: seq<RtAgent>): seq<RtAgent> {
    if agents == [] then [] else InsertBySlot(agents[0], SortBySlot(agents[1..]))
  }

  function BlankReplies(agents: seq<RtAgent>): (rs: seq<Reply>)
    ensures |rs| == |agents|
    ensures forall i :: 0 <= i < |rs| ==> rs[i] == Reply(agents[i].agentId, "", STREAMING)
  {
    if agents == [] then [] else [Reply(agents[0].agentId, "", STREAMING)] + BlankReplies(agents[1..])
  }

  function NewMessage(id: Id): Message {
    Message(id, "agent", "", STREAMING, [], None, [], "", [], [])
  }

  function NewRoundtable(id: Id, agents: seq<RtAgent>): Message {
    Message(id, "roundtable", "", STREAMING, BlankReplies(SortBySlot(agents)),
            Some(Merged("", "pending")), [], "", [], [])
  }

  /** What a handler does to the message it names. */
  function Touch(m: Message, b: Body): Message {
    match b
    case Token(_, d) => if m.status == STREAMING then m.(text := m.text + d) else m
    case RtToken(_, slot, d) =>
      if slot < |m.replies| && m.replies[slot].status == STREAMING
      then m.(replies := m.replies[slot := m.replies[slot].(text := m.replies[slot].text + d)]) else m
    case RtReplyDone(_, slot, st) =>
      if slot < |m.replies| then m.(replies := m.replies[slot := m.replies[slot].(status := Or(st, "complete"))]) else m
    case MergeStart(_) =>
      if m.merged.Some? then m.(merged := Some(m.merged.value.(status := STREAMING))) else m
    case MergeToken(_, d) =>
      if m.merged.Some? && m.merged.value.status == STREAMING
      then m.(merged := Some(m.merged.value.(text := m.merged.value.text + d))) else m
    case ToolCall(_, title, st) =>
      var i := FindStep(m.steps, title);
      if i < |m.steps| then m.(steps := m.steps[i := m.steps[i].(status := Or(st, m.steps[i].status))])
      else m.(steps := m.steps + [ToolStep(Or(title, "调用工具"), Or(st, "running"))])
    case Thought(_, d) => if m.status == STREAMING then m.(thinking := m.thinking + d) else m
    case Plan(_, es) => m.(plan := es)
    case File(_, f) => if HasFile(m.files, f.id) then m else m.(files := m.files + [f])
    case Done(_, st, text) =>
      var m1 := m.(status := Or(st, "complete"), text := if text.Some? then text.value else m.text);
      if m.merged.Some? && m.merged.value.status == STREAMING
      then m1.(merged := Some(m.merged.value.(status := "complete"))) else m1
    case Error(_) => m.(status := "error")
    case _ => m
  }

  /** One event, already known to belong to the open conversation. */
  function Handle(c: Client, b: Body): Client {
    match b
    case ConfirmRequest(_, r) =>
      if HasRequest(c.pending, r.id) then c else c.(pending := c.pending + [r])
    case ConfirmResponse(_, rid, _) => c.(pending := Without(c.pending, rid))
    case _ =>
      var i := Find(c.messages, b.mid);
      if i < |c.messages| then c.(messages := c.messages[i := Touch(c.messages[i], b)])
      else match b
           case Start(id) => c.(messages := c.messages + [NewMessage(id)])
           case RtStart(id, agents) => c.(messages := c.messages + [NewRoundtable(id, agents)])
           case _ => c
  }

  /** `scoped`: events that name another conversation are dropped. */
  function Apply(c: Client, e: Event): Client {
    if e.conversation != "" && e.conversation != c.active then c else Handle(c, e.body)
  }

  function ApplyAll(c: Client, es: seq<Event>): Client {
    if es == [] then c else Apply(ApplyAll(c, es[..|es| - 1]), es[|es| - 1])
  }

  // ---------- reload ----------

  function Messages(rows: seq<Stored>): (ms: seq<Message>)
    ensures |ms| == |rows| && forall i :: 0 <= i < |rows| ==> ms[i] == rows[i].message
  {
    if rows == [] then [] else [rows[0].message] + Messages(rows[1..])
  }

  function FirstStreaming(rows: seq<Stored>): (i: nat)
    ensures i <= |rows| && (i < |rows| ==> rows[i].message.status == STREAMING)
    ensures forall j :: 0 <= j < i ==> rows[j].message.status != STREAMING
  {
    if rows == [] || rows[0].message.status == STREAMING then 0 else 1 + FirstStreaming(rows[1..])
  }

  predicate HasPending(es: seq<Entry>, id: Id) {
    exists i :: 0 <= i < |es| && es[i].id == id && es[i].status == PENDING
  }

  /** The modals a reload restores: one per pending entry. */
  function Restored(es: seq<Entry>): seq<Request> {
    if es == [] then []
    else
      var rs, e := Restored(es[..|es| - 1]), es[|es| - 1];
      if e.status == PENDING && !HasRequest(rs, e.id) then rs + [Request(e.id, e.question)] else rs
  }

  /** `openConversation`: the snapshot, with the modals of the first streaming message. */
  function OpenConversation(id: Id, rows: seq<Stored>): Client {
    var i := FirstStreaming(rows);
    Client(id, Messages(rows), if i < |rows| then Restored(rows[i].clarifies) else [])
  }

  lemma {:induction false} RestoredExactly(es: seq<Entry>, id: Id)
    ensures HasRequest(Restored(es), id) <==> HasPending(es, id)
  {
    if es != [] {
      var front, e := es[..|es| - 1], es[|es| - 1];
      RestoredExactly(front, id);
      HasAppend(Restored(front), Request(e.id, e.question));
      if HasPending(es, id) {
        var i :| 0 <= i < |es| && es[i].id == id && es[i].status == PENDING;
        assert i < |front| ==> front[i] == es[i];
      }
      if HasPending(front, id) {
        var i :| 0 <= i < |front| && front[i].id == id && front[i].status == PENDING;
        assert es[i] == front[i];
      }
      assert e.id == id && e.status == PENDING ==> HasPending(es, id);
    }
  }

  // ---------- the store itself ----------

  class ChatStore {
    var activeId: Id
    var messages: seq<Message>
    var pending: seq<Request>

    ghost function View(): Client
      reads this
    {
      Client(activeId, messages, pending)
    }

    constructor (id: Id)
      ensures View() == Client(id, [], [])
    {
      activeId, messages, pending := id, [], [];
    }

    /** Load a conversation: reset, take the snapshot, restore the modals of its streaming message. */
    method Open(id: Id, rows: seq<Stored>)
      modifies this
      ensures View() == OpenConversation(id, rows)
    {
      activeId, pending := id, [];
      messages := Messages(rows);
      var i := FirstStreaming(rows);
      if i < |rows| {
        var es, k := rows[i].clarifies, 0;
        while k < |es|
          invariant 0 <= k <= |es|
          invariant activeId == id && messages == Messages(rows)
          invariant pending == Restored(es[..k])
        {
          assert es[..k + 1][..k] == es[..k];
          if es[k].status == PENDING { OnConfirmRequest(Request(es[k].id, es[k].question)); }
          k := k + 1;
        }
        assert es[..k] == es;
      }
    }

    method FindMessage(id: Id) returns (i: nat)
      ensures i == Find(messages, id)
    {
      i := 0;
      while i < |messages| && messages[i].id != id
        invariant i <= |messages|
        invariant Find(messages, id) == i + Find(messages[i..], id)
      {
        assert messages[i..][1..] == messages[i + 1..];
        i := i + 1;
      }
    }

    /** Dispatch one event to its handler. */
    method Emit(e: Event)
      modifies this
      ensures View() == Apply(old(View()), e)
    {
      if e.conversation != "" && e.conversation != activeId { return; }
      if e.body.ConfirmRequest? {
        OnConfirmRequest(e.body.request);
      } else if e.body.ConfirmResponse? {
        OnConfirmResponse(e.body.requestId);
      } else {
        var i := FindMessage(e.body.mid);
        if i < |messages| {
          messages := messages[i := Touch(messages[i], e.body)];
        } else if e.body.Start? {
          messages := messages + [NewMessage(e.body.mid)];
        } else if e.body.RtStart? {
          messages := messages + [NewRoundtable(e.body.mid, e.body.agents)];
        }
      }
    }

    method OnConfirmRequest(r: Request)
      modifies this`pending
      ensures pending == if HasRequest(old(pending), r.id) then old(pending) else old(pending) + [r]
    {
      var i := 0;
      while i < |pending|
        invariant 0 <= i <= |pending|
        invariant forall j :: 0 <= j < i ==> pending[j].id != r.id
      {
        if pending[i].id == r.id { return; }
        i := i + 1;
      }
      pending := pending + [r];
    }

    method OnConfirmResponse(rid: Id)
      modifies this`pending
      ensures pending == Without(old(pending), rid)
    {
      var kept: seq<Request> := [];
      var i := |pending|;
      while i > 0
        invariant 0 <= i <= |pending|
        invariant kept == Without(pending[i..], rid)
      {
        i := i - 1;
        assert pending[i..][1..] == pending[i + 1..];
        if pending[i].id != rid { kept := [pending[i]] + kept; }
      }
      assert pending[0..] == pending;
      pending := kept;
    }

    /** A whole batch of frames. */
    method EmitAll(es: seq<Event>)
      modifies this
      ensures View() == ApplyAll(old(View()), es)
    {
      var i := 0;
      while i < |es|
        invariant 0 <= i <= |es|
        invariant View() == ApplyAll(old(View()), es[..i])
      {
        assert es[..i + 1][..i] == es[..i];
        Emit(es[i]);
        i := i + 1;
      }
      assert es[..i] == es;
    }
  }

  // ---------- projections: one message, one confirmation ----------

  function At(ms: seq<Message>, id: Id): Option<Message> {
    if Find(ms, id) < |ms| then Some(ms[Find(ms, id)]) else None
  }

  function Lookup(c: Client, id: Id): Option<Message> {
    At(c.messages, id)
  }

  /** The life of one message depends on its own events only. */
  function Follow(m: Option<Message>, id: Id, b: Body): Option<Message> {
    if b.mid != id || b.ConfirmRequest? || b.ConfirmResponse? then m
    else match m
         case Some(v) => Some(Touch(v, b))
         case None =>
           if b.Start? then Some(NewMessage(id))
           else if b.RtStart? then Some(NewRoundtable(id, b.agents)) else None
  }

  lemma {:induction false} FindUpdate(ms: seq<Message>, i: nat, m: Message, id: Id)
    requires i < |ms| && m.id == ms[i].id
    ensures Find(ms[i := m], id) == Find(ms, id)
  {
    if i > 0 && ms[0].id != id {
      assert ms[i := m][1..] == ms[1..][i - 1 := m];
      FindUpdate(ms[1..], i - 1, m, id);
    } else if i == 0 {
      assert ms[i := m][1..] == ms[1..];
    }
  }

  lemma {:induction false} FindAppend(ms: seq<Message>, m: Message, id: Id)
    ensures Find(ms + [m], id) ==
            if Find(ms, id) < |ms| then Find(ms, id) else if m.id == id then |ms| else |ms| + 1
  {
    if ms == [] {
      assert (ms + [m])[1..] == [];
    } else if ms[0].id != id {
      assert (ms + [m])[1..] == ms[1..] + [m];
      FindAppend(ms[1..], m, id);
    }
  }

  lemma TouchKeepsId(m: Message, b: Body)
    ensures Touch(m, b).id == m.id
  {}

  lemma AtUpdate(ms: seq<Message>, m: Message, id: Id)
    requires Find(ms, m.id) < |ms|
    ensures At(ms[Find(ms, m.id) := m], id) == if id == m.id then Some(m) else At(ms, id)
  {
    FindUpdate(ms, Find(ms, m.id), m, id);
  }

  lemma AtAppend(ms: seq<Message>, m: Message, id: Id)
    requires Find(ms, m.id) == |ms|
    ensures At(ms + [m], id) == if id == m.id then Some(m) else At(ms, id)
  {
    FindAppend(ms, m, id);
  }

  lemma HandleFollows(c: Client, b: Body, id: Id)
    ensures Lookup(Handle(c, b), id) == Follow(Lookup(c, id), id, b)
  {
    hide Touch, Without;
    if !b.ConfirmRequest? && !b.ConfirmResponse? {
      var i := Find(c.messages, b.mid);
      if i < |c.messages| {
        TouchKeepsId(c.messages[i], b);
        AtUpdate(c.messages, Touch(c.messages[i], b), id);
      } else if b.Start? {
        AtAppend(c.messages, NewMessage(b.mid), id);
      } else if b.RtStart? {
        AtAppend(c.messages, NewRoundtable(b.mid, b.agents), id);
      }
    }
  }

  lemma HandleOpens(c: Client, b: Body, rid: Id)
    ensures HasRequest(Handle(c, b).pending, rid) <==>
        if b.ConfirmRequest? && b.request.id == rid then true
        else if b.ConfirmResponse? && b.requestId == rid then false
        else HasRequest(c.pending, rid)
  {
    if b.ConfirmRequest? { HasAppend(c.pending, b.request); }
  }

  /** Events that name another conversation are dropped, without a trace; any other, also one that names none, is
      handled. */
  lemma OthersAreDropped(c: Client, e: Event)
    ensures e.conversation !in {"", c.active} ==> Apply(c, e) == c
    ensures e.conversation in {"", c.active} ==> Apply(c, e) == Handle(c, e.body)
  {}

  /** The events that concern a client with this conversation open. */
  function Mine(es: seq<Event>, active: Id): seq<Event> {
    if es == [] then []
    else
      var front, e := Mine(es[..|es| - 1], active), es[|es| - 1];
      if e.conversation == "" || e.conversation == active then front + [e] else front
  }

  lemma {:induction false} MineConcat(xs: seq<Event>, ys: seq<Event>, active: Id)
    ensures Mine(xs + ys, active) == Mine(xs, active) + Mine(ys, active)
  {
    if ys == [] {
      assert xs + ys == xs;
    } else {
      MineConcat(xs, ys[..|ys| - 1], active);
      assert (xs + ys)[..|xs + ys| - 1] == xs + ys[..|ys| - 1];
    }
  }

  lemma {:induction false} AllMine(es: seq<Event>, active: Id)
    requires Scoped(es, active)
    ensures Mine(es, active) == es
  {
    if es != [] { AllMine(es[..|es| - 1], active); }
  }

  /** The events of one conversation, as its own client sees them. */
  ghost predicate Scoped(es: seq<Event>, conversation: Id) {
    forall i :: 0 <= i < |es| ==> es[i].conversation == conversation
  }

  function FollowAll(m: Option<Message>, id: Id, es: seq<Event>): Option<Message> {
    if es == [] then m else Follow(FollowAll(m, id, es[..|es| - 1]), id, es[|es| - 1].body)
  }

  lemma FollowOne(m: Option<Message>, id: Id, es: seq<Event>, e: Event)
    ensures FollowAll(m, id, es + [e]) == Follow(FollowAll(m, id, es), id, e.body)
  {
    assert (es + [e])[..|es|] == es;
  }

  lemma {:induction false} FollowNone(m: Option<Message>, id: Id, es: seq<Event>)
    requires forall i :: 0 <= i < |es| ==> Follow(m, id, es[i].body) == m
    ensures FollowAll(m, id, es) == m
  {
    if es != [] { FollowNone(m, id, es[..|es| - 1]); }
  }

  /** Whether confirmation `rid` is open after the events, if it was before. */
  function OpenAfter(open: bool, rid: Id, es: seq<Event>): bool {
    if es == [] then open
    else
      var b := es[|es| - 1].body;
      if b.ConfirmRequest? && b.request.id == rid then true
      else if b.ConfirmResponse? && b.requestId == rid then false
      else OpenAfter(open, rid, es[..|es| - 1])
  }

  lemma OpenOne(open: bool, rid: Id, es: seq<Event>, e: Event)
    ensures OpenAfter(open, rid, es + [e]) ==
            if e.body.ConfirmRequest? && e.body.request.id == rid then true
            else if e.body.ConfirmResponse? && e.body.requestId == rid then false
            else OpenAfter(open, rid, es)
  {
    assert (es + [e])[..|es|] == es;
  }

  /** Whatever arrives, of this conversation or of others: a client's view of any message, and of any confirmation, is
      the fold of that one item's own events among those of its conversation. */
  lemma {:induction false} ClientProjects(c: Client, es: seq<Event>, id: Id)
    ensures ApplyAll(c, es).active == c.active
    ensures Lookup(ApplyAll(c, es), id) == FollowAll(Lookup(c, id), id, Mine(es, c.active))
    ensures HasRequest(ApplyAll(c, es).pending, id) == OpenAfter(HasRequest(c.pending, id), id, Mine(es, c.active))
    ensures Scoped(es, c.active) ==> Mine(es, c.active) == es
  {
    hide Touch, Find, FollowAll, OpenAfter, Handle, HasRequest, Apply;
    if es == [] {
      NothingYet(Lookup(c, id), HasRequest(c.pending, id), id);
    } else {
      var front, e := es[..|es| - 1], es[|es| - 1];
      var c1, mine := ApplyAll(c, front), Mine(front, c.active);
      ClientProjects(c, front, id);
      OthersAreDropped(c1, e);
      HandleKeepsActive(c1, e.body);
      HandleFollows(c1, e.body, id);
      HandleOpens(c1, e.body, id);
      FollowOne(Lookup(c, id), id, mine, e);
      OpenOne(HasRequest(c.pending, id), id, mine, e);
    }
  }

  lemma NothingYet(m: Option<Message>, open: bool, id: Id)
    ensures FollowAll(m, id, []) == m && OpenAfter(open, id, []) == open
  {}

  lemma HandleKeepsActive(c: Client, b: Body)
    ensures Handle(c, b).active == c.active
  {}

  // ---------- what else a message shows ----------

  predicate Announced(es: seq<Event>, id: Id, file: Id) {
    exists k :: 0 <= k < |es| && es[k].body.File? && es[k].body.mid == id && es[k].body.file.id == file
  }

  function LastPlan(plan: seq<string>, id: Id, es: seq<Event>): seq<string> {
    if es == [] then plan
    else if es[|es| - 1].body.Plan? && es[|es| - 1].body.mid == id then es[|es| - 1].body.entries
    else LastPlan(plan, id, es[..|es| - 1])
  }

  lemma FileAppend(fs: seq<FileRef>, f: FileRef, file: Id)
    ensures HasFile(fs + [f], file) <==> HasFile(fs, file) || f.id == file
  {
    var all := fs + [f];
    if HasFile(fs, file) {
      var i :| 0 <= i < |fs| && fs[i].id == file;
      assert all[i].id == file;
    }
    if HasFile(all, file) {
      var i :| 0 <= i < |all| && all[i].id == file;
      assert i < |fs| ==> fs[i].id == file;
    }
    assert all[|fs|] == f;
  }

  lemma AnnouncedPush(es: seq<Event>, e: Event, id: Id, file: Id)
    ensures Announced(es + [e], id, file) <==>
            Announced(es, id, file) || (e.body.File? && e.body.mid == id && e.body.file.id == file)
  {
    var all := es + [e];
    if Announced(es, id, file) {
      var k :| 0 <= k < |es| && es[k].body.File? && es[k].body.mid == id && es[k].body.file.id == file;
      assert all[k] == es[k];
    }
    if Announced(all, id, file) {
      var k :| 0 <= k < |all| && all[k].body.File? && all[k].body.mid == id && all[k].body.file.id == file;
      assert k < |es| ==> es[k] == all[k];
    }
    assert all[|es|] == e;
  }

  ghost predicate OneEach(fs: seq<FileRef>) {
    forall i, j :: 0 <= i < j < |fs| ==> fs[i].id != fs[j].id
  }

  lemma FileTouched(m: Message, b: Body, file: Id)
    requires OneEach(m.files)
    ensures OneEach(Touch(m, b).files)
    ensures HasFile(Touch(m, b).files, file) <==> HasFile(m.files, file) || (b.File? && b.file.id == file)
    ensures Touch(m, b).plan == if b.Plan? then b.entries else m.plan
  {
    if b.File? { FileAppend(m.files, b.file, file); }
  }

  lemma NoneAnnounced(id: Id, file: Id)
    ensures !Announced([], id, file)
  {}

  /** Replays included, a message lists each announced file once, and its plan is the last one sent. */
  lemma {:induction false} FilesAndPlan(m: Message, id: Id, es: seq<Event>, file: Id)
    requires OneEach(m.files)
    ensures var r := FollowAll(Some(m), id, es);
        && r.Some?
        && OneEach(r.value.files)
        && (HasFile(r.value.files, file) <==> HasFile(m.files, file) || Announced(es, id, file))
        && r.value.plan == LastPlan(m.plan, id, es)
  {
    hide Touch, Announced, HasFile, OneEach;
    if es == [] {
      NoneAnnounced(id, file);
    } else {
      var front, e := es[..|es| - 1], es[|es| - 1];
      FilesAndPlan(m, id, front, file);
      assert es == front + [e];
      AnnouncedPush(front, e, id, file);
      FileTouched(FollowAll(Some(m), id, front).value, e.body, file);
    }
  }
}
