/** Sending a message: the optimistic bubble, the stream that is already open, and the POST response, in any order. */
module SendFlow {
  import opened Wrappers
  import opened Chat
  import opened Turn
  import opened TurnTheorems

  // ---------- the list edits of `sendSingle` and `handleSendResponse` ----------

  predicate Has(ms: seq<Message>, id: Id) {
    Find(ms, id) < |ms|
  }

  function Ensure(ms: seq<Message>, m: Message): seq<Message> {
    if Has(ms, m.id) then ms else ms + [m]
  }

  /** The optimistic bubble becomes the real user message in place; the agent's bubble is added unless the stream
      already did. */
  function Settled(ms: seq<Message>, tmp: Id, user: Message, agent: Message): seq<Message> {
    var i := Find(ms, tmp);
    Ensure(if i < |ms| then ms[i := user] else ms, agent)
  }

  /** What the sender sees: the bubble, some events, the response, more events. */
  function Sent(c: Client, tmp: Message, early: seq<Event>, user: Message, agent: Message, late: seq<Event>): Client {
    var c1 := ApplyAll(c.(messages := c.messages + [tmp]), early);
    ApplyAll(c1.(messages := Settled(c1.messages, tmp.id, user, agent)), late)
  }

  /** A chat store with the sending methods. */
  class Sender {
    const store: ChatStore

    constructor (s: ChatStore)
      ensures store == s
    {
      store := s;
    }

    /** `sendSingle` before the POST. */
    method Begin(bubble: Message)
      modifies store
      ensures store.View() == old(store.View()).(messages := old(store.messages) + [bubble])
    {
      store.messages := store.messages + [bubble];
    }

    /** `sendSingle` when the POST answers. */
    method Finish(tmp: Id, user: Message, agent: Message)
      modifies store
      ensures store.View() == old(store.View()).(messages := Settled(old(store.messages), tmp, user, agent))
    {
      var i := store.FindMessage(tmp);
      if i < |store.messages| { store.messages := store.messages[i := user]; }
      var j := store.FindMessage(agent.id);
      if j == |store.messages| { store.messages := store.messages + [agent]; }
    }

    /** All of `sendSingle`, with the frames that arrive before and after the answer. */
    method SendSingle(bubble: Message, early: seq<Event>, user: Message, agent: Message, late: seq<Event>)
      modifies store
      ensures store.View() == Sent(old(store.View()), bubble, early, user, agent, late)
    {
      Begin(bubble);
      store.EmitAll(early);
      Finish(bubble.id, user, agent);
      store.EmitAll(late);
    }

    /** `handleSendResponse`: no bubble; both messages are added unless present. */
    method OnResponse(user: Message, agent: Option<Message>)
      modifies store
      ensures store.View() == old(store.View()).(messages :=
          var ms := Ensure(old(store.messages), user); if agent.Some? then Ensure(ms, agent.value) else ms)
    {
      var i := store.FindMessage(user.id);
      if i == |store.messages| { store.messages := store.messages + [user]; }
      if agent.Some? {
        var j := store.FindMessage(agent.value.id);
        if j == |store.messages| { store.messages := store.messages + [agent.value]; }
      }
    }
  }

  // ---------- ids stay distinct, and in order ----------

  function Ids(ms: seq<Message>): (r: seq<Id>)
    ensures |r| == |ms| && forall i :: 0 <= i < |ms| ==> r[i] == ms[i].id
  {
    seq(|ms|, i requires 0 <= i < |ms| => ms[i].id)
  }

  ghost predicate Distinct(ids: seq<Id>) {
    forall i, j :: 0 <= i < j < |ids| ==> ids[i] != ids[j]
  }

  lemma HasId(ms: seq<Message>, id: Id)
    ensures Has(ms, id) <==> id in Ids(ms)
  {
    if Has(ms, id) { assert Ids(ms)[Find(ms, id)] == id; }
    if id in Ids(ms) {
      var i :| 0 <= i < |ms| && Ids(ms)[i] == id;
      assert ms[i].id == id;
    }
  }

  /** An event adds at most one message, at the end, under an id that was not there. */
  lemma HandleIds(c: Client, b: Body)
    ensures var ids, next := Ids(c.messages), Ids(Handle(c, b).messages);
        next == ids || (b.mid !in ids && next == ids + [b.mid])
  {
    if !b.ConfirmRequest? && !b.ConfirmResponse? {
      var i := Find(c.messages, b.mid);
      HasId(c.messages, b.mid);
      if i < |c.messages| { TouchKeepsId(c.messages[i], b); }
    }
  }

  lemma {:induction false} EventsAppendIds(c: Client, es: seq<Event>)
    requires Distinct(Ids(c.messages))
    ensures Distinct(Ids(ApplyAll(c, es).messages)) && Ids(c.messages) <= Ids(ApplyAll(c, es).messages)
    ensures forall id :: id in Ids(ApplyAll(c, es).messages) && id !in Ids(c.messages) ==> Mentioned(es, id)
  {
    if es != [] {
      var front, e := es[..|es| - 1], es[|es| - 1];
      EventsAppendIds(c, front);
      HandleIds(ApplyAll(c, front), e.body);
      forall id | Mentioned(front, id) ensures Mentioned(es, id) {
        var k :| 0 <= k < |front| && front[k].body.mid == id;
        assert es[k] == front[k];
      }
      assert es[|es| - 1].body.mid == e.body.mid;
    }
  }

  ghost predicate Mentioned(es: seq<Event>, id: Id) {
    exists k :: 0 <= k < |es| && es[k].body.mid == id
  }

  /** The ids after settling, from the ids before. */
  function SettledIds(ids: seq<Id>, at: nat, user: Id, agent: Id): seq<Id>
    requires at < |ids|
  {
    if agent in ids[at := user] then ids[at := user] else ids[at := user] + [agent]
  }

  lemma SettledHasIds(ms: seq<Message>, at: nat, tmp: Id, user: Message, agent: Message)
    requires Distinct(Ids(ms)) && at < |ms| && ms[at].id == tmp
    ensures Ids(Settled(ms, tmp, user, agent)) == SettledIds(Ids(ms), at, user.id, agent.id)
  {
    HasId(ms, tmp);
    assert Ids(ms)[at] == tmp && Ids(ms)[Find(ms, tmp)] == tmp;
    assert Ids(ms[at := user]) == Ids(ms)[at := user.id];
    HasId(ms[at := user], agent.id);
    assert Ids(ms[at := user] + [agent]) == Ids(ms)[at := user.id] + [agent.id];
  }

  lemma SettledInOrder(ids: seq<Id>, at: nat, user: Id, agent: Id)
    requires Distinct(ids) && at < |ids| && user !in ids && agent != user && agent !in ids[..at + 1]
    ensures var r := SettledIds(ids, at, user, agent);
        Distinct(r) && at < |r| && r[at] == user && ids[..at] <= r && agent in r[at + 1..] && ids[at] !in r
  {
    var swapped, r := ids[at := user], SettledIds(ids, at, user, agent);
    assert ids[..at + 1][at] == ids[at];
    assert forall i :: 0 <= i < |ids| ==> swapped[i] == if i == at then user else ids[i];
    forall k | 0 <= k <= at ensures ids[k] != agent {
      assert ids[..at + 1][k] == ids[k];
    }
    if agent in swapped {
      var k :| 0 <= k < |swapped| && swapped[k] == agent;
      assert r[at + 1..][k - at - 1] == agent;
    } else {
      assert r[at + 1..][|ids| - at - 1] == agent;
    }
  }

  /** However the response and the stream's events interleave: no message is shown twice, the older ones keep their
      places, the bubble is gone, and the user's message stands where it stood, above the agent's. */
  lemma SendShowsOnce(c: Client, tmp: Message, early: seq<Event>, user: Message, agent: Message, late: seq<Event>)
    requires Distinct(Ids(c.messages)) && Distinct([tmp.id, user.id, agent.id])
    requires forall id :: id in [tmp.id, user.id, agent.id] ==> id !in Ids(c.messages)
    requires forall id :: id in [tmp.id, user.id] ==> !Mentioned(early, id) && !Mentioned(late, id)
    ensures var ids, n := Ids(Sent(c, tmp, early, user, agent, late).messages), |c.messages|;
        && Distinct(ids) && Ids(c.messages) <= ids
        && n < |ids| && ids[n] == user.id
        && agent.id in ids[n + 1..] && tmp.id !in ids
    ensures Lookup(Sent(c, tmp, early, user, agent, late), user.id) == Some(user)
  {
    NamesDiffer(tmp.id, user.id, agent.id);
    hide Sent, Ids, Mentioned;
    UserShown(c, tmp, early, user, agent, late);
    ShownInOrder(c, tmp, early, user, agent, late);
  }

  lemma ShownInOrder(c: Client, tmp: Message, early: seq<Event>, user: Message, agent: Message, late: seq<Event>)
    requires Distinct(Ids(c.messages)) && Distinct([tmp.id, user.id, agent.id])
    requires forall id :: id in [tmp.id, user.id, agent.id] ==> id !in Ids(c.messages)
    requires forall id :: id in [tmp.id, user.id] ==> !Mentioned(early, id) && !Mentioned(late, id)
    ensures var ids, n := Ids(Sent(c, tmp, early, user, agent, late).messages), |c.messages|;
        && Distinct(ids) && Ids(c.messages) <= ids
        && n < |ids| && ids[n] == user.id
        && agent.id in ids[n + 1..] && tmp.id !in ids
  {
    var ids := Ids(c.messages);
    var c0 := c.(messages := c.messages + [tmp]);
    var c1 := ApplyAll(c0, early);
    var c2 := c1.(messages := Settled(c1.messages, tmp.id, user, agent));
    hide ApplyAll, Settled, SettledIds, Mentioned;
    NamesDiffer(tmp.id, user.id, agent.id);
    assert Ids(c0.messages) == ids + [tmp.id];
    EventsAppendIds(c0, early);
    SettledHasIds(c1.messages, |ids|, tmp.id, user, agent);
    assert Ids(c1.messages)[..|ids| + 1] == ids + [tmp.id];
    SettledInOrder(Ids(c1.messages), |ids|, user.id, agent.id);
    EventsAppendIds(c2, late);
    StillInOrder(ids, Ids(c1.messages), Ids(c2.messages), Ids(ApplyAll(c2, late).messages), agent.id);
  }

  lemma {:induction false} NotFollowed(m: Option<Message>, id: Id, es: seq<Event>)
    requires !Mentioned(es, id)
    ensures FollowAll(m, id, es) == m
  {
    if es != [] {
      var front := es[..|es| - 1];
      assert es[|es| - 1].body.mid != id;
      forall k | 0 <= k < |front| ensures front[k].body.mid != id { assert front[k] == es[k]; }
      NotFollowed(m, id, front);
    }
  }

  lemma {:induction false} MineMentions(es: seq<Event>, active: Id, id: Id)
    requires !Mentioned(es, id)
    ensures !Mentioned(Mine(es, active), id)
  {
    if es != [] {
      var front := es[..|es| - 1];
      assert es[|es| - 1].body.mid != id;
      forall k | 0 <= k < |front| ensures front[k].body.mid != id { assert front[k] == es[k]; }
      MineMentions(front, active, id);
      forall k | 0 <= k < |Mine(es, active)| ensures Mine(es, active)[k].body.mid != id {
        if k < |Mine(front, active)| { assert Mine(es, active)[k] == Mine(front, active)[k]; }
      }
    }
  }

  /** The user's own message is shown as the server stored it. */
  lemma UserShown(c: Client, tmp: Message, early: seq<Event>, user: Message, agent: Message, late: seq<Event>)
    requires Distinct([tmp.id, user.id, agent.id]) && user.id !in Ids(c.messages)
    requires !Mentioned(early, user.id) && !Mentioned(late, user.id) && !Mentioned(early, tmp.id)
    ensures Lookup(Sent(c, tmp, early, user, agent, late), user.id) == Some(user)
  {
    hide Mentioned, ApplyAll;
    NamesDiffer(tmp.id, user.id, agent.id);
    var c0 := c.(messages := c.messages + [tmp]);
    var c1 := ApplyAll(c0, early);
    var c2 := c1.(messages := Settled(c1.messages, tmp.id, user, agent));
    HasId(c.messages, user.id);
    FindAppend(c.messages, tmp, user.id);
    FindAppend(c.messages, tmp, tmp.id);
    ClientProjects(c0, early, user.id);
    ClientProjects(c0, early, tmp.id);
    MineMentions(early, c.active, user.id);
    MineMentions(early, c.active, tmp.id);
    NotFollowed(Lookup(c0, user.id), user.id, Mine(early, c.active));
    NotFollowed(Lookup(c0, tmp.id), tmp.id, Mine(early, c.active));
    SettledUser(c1.messages, tmp.id, user, agent);
    ClientProjects(c2, late, user.id);
    MineMentions(late, c.active, user.id);
    NotFollowed(Lookup(c2, user.id), user.id, Mine(late, c.active));
  }

  lemma SettledUser(ms: seq<Message>, tmp: Id, user: Message, agent: Message)
    requires tmp != user.id && user.id != agent.id && !Has(ms, user.id) && Has(ms, tmp)
    ensures At(Settled(ms, tmp, user, agent), user.id) == Some(user)
  {
    var i := Find(ms, tmp);
    var swapped := ms[i := user];
    assert swapped[i] == user;
    assert forall k :: 0 <= k < i ==> swapped[k] == ms[k] && ms[k].id != user.id;
    FindAppend(swapped, agent, user.id);
    assert Find(swapped, user.id) == i;
  }

  lemma NamesDiffer(a: Id, b: Id, c: Id)
    requires Distinct([a, b, c])
    ensures a != b && b != c && a != c
    ensures a in [a, b, c] && b in [a, b, c] && c in [a, b, c] && a in [a, b] && b in [a, b]
  {
    var ids := [a, b, c];
    assert ids[0] == a && ids[1] == b && ids[2] == c;
  }

  lemma StillInOrder(ids: seq<Id>, before: seq<Id>, mid: seq<Id>, after: seq<Id>, agent: Id)
    requires ids <= before && |ids| < |mid| && before[..|ids|] <= mid && mid <= after && agent in mid[|ids| + 1..]
    ensures ids <= after && after[|ids|] == mid[|ids|] && agent in after[|ids| + 1..]
  {
    var k :| 0 <= k < |mid[|ids| + 1..]| && mid[|ids| + 1..][k] == agent;
    assert after[|ids| + 1..][k] == agent;
  }

  // ---------- and its bubble agrees with everyone else's ----------

  /** A message that shows the turn at one time and then follows the log shows it at any later time. */
  lemma {:induction false} KeepsShowing(trace: seq<State>, steps: seq<Step>, i: nat, j: nat, m: Option<Message>)
    requires Run(trace, steps) && i <= j < |trace| && Shows(m, trace[i])
    ensures trace[i].log <= trace[j].log
    ensures Shows(FollowAll(m, trace[j].mid, trace[j].log[|trace[i].log|..]), trace[j])
  {
    hide Next, Enabled, Shows, Inv, FollowAll;
    RunInv(trace, steps, j);
    if i == j {
      FollowNone(m, trace[j].mid, trace[j].log[|trace[i].log|..]);
    } else {
      var r, s := trace[j - 1], trace[j];
      KeepsShowing(trace, steps, i, j - 1, m);
      RunInv(trace, steps, j - 1);
      StepShows(r, steps[j - 1], FollowAll(m, r.mid, r.log[|trace[i].log|..]));
      FollowTail(m, r.mid, r.log, s.log, |trace[i].log|);
    }
  }

  lemma FollowTail(m: Option<Message>, id: Id, before: seq<Event>, after: seq<Event>, from: nat)
    requires from <= |before| && (after == before || (|after| == |before| + 1 && after == before + [after[|before|]]))
    ensures before <= after
    ensures FollowAll(m, id, after[from..]) ==
            if after == before then FollowAll(m, id, before[from..])
            else Follow(FollowAll(m, id, before[from..]), id, after[|before|].body)
  {
    if after != before {
      assert after[from..] == before[from..] + [after[|before|]];
      FollowOne(m, id, before[from..], after[|before|]);
    }
  }

  lemma SettledLookup(ms: seq<Message>, tmp: Id, user: Message, agent: Message)
    requires tmp != agent.id && user.id != agent.id
    ensures Find(Settled(ms, tmp, user, agent), agent.id) < |Settled(ms, tmp, user, agent)|
    ensures var found := Settled(ms, tmp, user, agent)[Find(Settled(ms, tmp, user, agent), agent.id)];
        found == if Has(ms, agent.id) then ms[Find(ms, agent.id)] else agent
  {
    var i := Find(ms, tmp);
    var swapped := if i < |ms| then ms[i := user] else ms;
    FindSwap(ms, i, user, agent.id);
    FindAppend(swapped, agent, agent.id);
  }

  lemma FindSwap(ms: seq<Message>, i: nat, m: Message, id: Id)
    requires m.id != id && (i < |ms| ==> ms[i].id != id)
    ensures i < |ms| ==> Find(ms[i := m], id) == Find(ms, id)
  {
    if i < |ms| {
      var r := ms[i := m];
      var p, q := Find(ms, id), Find(r, id);
      assert p < |ms| ==> r[p].id == id;
      assert q < |r| ==> ms[q].id == id;
    }
  }

  /** The sender's own client, whichever of the POST response and the turn's events comes first: from the response on
      it shows what every attached client shows. The response carries the blank placeholder row. */
  lemma SenderAgrees(trace: seq<State>, steps: seq<Step>, i: nat, j: nat, p: nat, c: Client, tmp: Message,
                     user: Message, agent: Message)
    requires Run(trace, steps) && i <= j < |trace| && p <= trace[0].base
    requires c.active == trace[0].cid && Lookup(c, trace[0].mid) == None
    requires agent.id == trace[0].mid && Blank(Some(agent)) && tmp.id != agent.id && user.id != agent.id
    ensures p <= |trace[i].log| <= |trace[j].log|
    ensures var s := trace[j];
        Shows(Lookup(Sent(c, tmp, trace[i].log[p..], user, agent, s.log[|trace[i].log|..]), s.mid), s)
  {
    var r, s := trace[i], trace[j];
    var c0 := c.(messages := c.messages + [tmp]);
    RunInv(trace, steps, i);
    RunInv(trace, steps, j);
    FindAppend(c.messages, tmp, r.mid);
    LogScoped(r, p);
    ClientProjects(c0, r.log[p..], r.mid);
    AttachedShows(trace, steps, i, p, Lookup(c0, r.mid));
    var c1 := ApplyAll(c0, r.log[p..]);
    SettledLookup(c1.messages, tmp.id, user, agent);
    var c2 := c1.(messages := Settled(c1.messages, tmp.id, user, agent));
    assert Shows(Lookup(c2, r.mid), r);
    KeepsShowing(trace, steps, i, j, Lookup(c2, r.mid));
    LogScoped(s, |r.log|);
    ClientProjects(c2, s.log[|r.log|..], s.mid);
  }
}
