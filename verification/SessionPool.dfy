/** One long-lived agent subprocess per conversation: who owns which process, and which ones nobody can stop any more.
    */
module SessionPool {
  import opened Wrappers

  type Conv = string
  type Profile = Option<string>

  const IDLE_TIMEOUT := 3600

  /** What the outside world answers during one handshake; `authOk` is true where no auth is configured. The reader or
      the stderr task may have ended by an exception when it is over. */
  datatype Answers = Answers(
    startOk: bool, initOk: bool, authOk: bool, canResume: bool, resumeOk: bool, newSession: Option<string>,
    readerFailed: bool, drainFailed: bool)

  datatype Error = HandshakeFailed | StopRaised

  /** The session a successful handshake ends with: none if the stored one was resumed, else the new one. */
  function Handshake(stored: Option<string>, a: Answers): Result<Option<string>, Error> {
    if !a.startOk || !a.initOk || !a.authOk then Err(HandshakeFailed)
    else if stored.Some? && stored.value != "" && a.canResume && a.resumeOk then Ok(None)
    else if a.newSession.Some? then Ok(a.newSession)
    else Err(HandshakeFailed)
  }

  /** A stored session that cannot be resumed, for whatever reason, leaves no trace: the handshake ends as it would
      without one. It is resumed whenever it can be; any earlier stage that fails is final. */
  lemma FailedResumeStartsAnew(stored: Option<string>, a: Answers)
    ensures Handshake(stored, a) == Ok(None) <==>
        stored !in {None, Some("")} && a.startOk && a.initOk && a.authOk && a.canResume && a.resumeOk
    ensures Handshake(stored, a) != Ok(None) ==> Handshake(stored, a) == Handshake(None, a)
    ensures Handshake(None, a).Ok? <==> a.startOk && a.initOk && a.authOk && a.newSession.Some?
    ensures Handshake(None, a).Ok? ==> Handshake(None, a).value == a.newSession
  {}

  /** A process was started, and one of its tasks failed. */
  predicate Fails(a: Answers) {
    a.startOk && (a.readerFailed || a.drainFailed)
  }

  /** An ACP client as the pool sees it. The outside world sets `exited` when the process ends, and `readerFailed` or
      `drainFailed` when an exception (a line over the stream's limit, undecodable bytes, a reply that cannot be
      written) ends the task that reads stdout or stderr. */
  class Client {
    const profile: Profile     // fixed at spawn (HERMES_HOME)
    var callbacks: nat         // which prompt the update and file callbacks belong to
    var closed: bool
    var started: bool          // the process and its two tasks were created
    var exited: bool
    var readerFailed: bool
    var drainFailed: bool
    var sessions: seq<string>  // sessions created in it

    constructor (p: Profile, cb: nat)
      ensures profile == p && callbacks == cb && !closed && !started && !exited && sessions == []
    {
      profile, callbacks, closed, started, exited := p, cb, false, false, false;
      readerFailed, drainFailed, sessions := false, false, [];
    }

    predicate Running()
      reads this
    {
      started && !exited
    }

    /** A task ended by an exception, which every later wait for it raises again. */
    predicate Failed()
      reads this
    {
      started && (readerFailed || drainFailed)
    }

    /** `_alive` looks at the process, not at the reader. */
    predicate Alive()
      reads this
    {
      !closed && Running()
    }

    /** Stopped, with its process still running or not. */
    predicate Ended(running: bool)
      reads this
    {
      closed && Running() == running
    }

    /** Stopped: its process has ended, unless the stop raised before it got that far. */
    ghost predicate Gone()
      reads this
    {
      closed && (!Running() || Failed())
    }

    /** Cancel and await both tasks, then terminate the process. */
    method Stop() returns (raised: bool)
      modifies this`closed, this`exited
      ensures closed && raised == Failed() == old(Failed())
      ensures Ended(old(Failed()) && old(Running()))
      ensures raised ==> exited == old(exited)
      ensures !raised ==> !Running()
      ensures old(exited) ==> exited
    {
      closed := true;
      if started {
        if readerFailed { return true; }
        if drainFailed { return true; }
        exited := true;
      }
      raised := false;
    }

    /** Start, initialise, authenticate, then resume the stored session or create one. */
    method Connect(stored: Option<string>, a: Answers) returns (r: Result<Option<string>, Error>)
      requires !started && !exited
      modifies this`sessions, this`started, this`readerFailed, this`drainFailed
      ensures r == Handshake(stored, a)
      ensures r.Ok? ==> sessions == if r.value.Some? then old(sessions) + [r.value.value] else old(sessions)
      ensures started == a.startOk && Failed() == Fails(a)
    {
      if !a.startOk { return Err(HandshakeFailed); }
      started, readerFailed, drainFailed := true, a.readerFailed, a.drainFailed;
      if !a.initOk { return Err(HandshakeFailed); }
      if !a.authOk { return Err(HandshakeFailed); }
      if stored.Some? && stored.value != "" && a.canResume {
        if a.resumeOk { return Ok(None); }
      }
      if a.newSession.None? { return Err(HandshakeFailed); }
      sessions := sessions + [a.newSession.value];
      r := Ok(a.newSession);
    }
  }

  /** The tables agree, and `owner` is the inverse of `clients`: no client serves two conversations. */
  ghost predicate Books(
    clients: map<Conv, Client>, profileDirs: map<Conv, Profile>, owner: map<Client, Conv>, spawned: set<Client>)
  {
    && clients.Keys == profileDirs.Keys
    && (forall k :: k in clients ==> clients[k] in owner && owner[clients[k]] == k)
    && (forall c :: c in owner ==> owner[c] in clients && clients[owner[c]] == c)
    && owner.Keys <= spawned
    && (forall k :: k in clients ==> clients[k].profile == profileDirs[k])
  }

  lemma BooksWithout(
    clients: map<Conv, Client>, profileDirs: map<Conv, Profile>, owner: map<Client, Conv>, spawned: set<Client>,
    k: Conv)
    requires Books(clients, profileDirs, owner, spawned) && k in clients
    ensures clients[k] in owner && clients[k] in spawned
    ensures Books(clients - {k}, profileDirs - {k}, owner - {clients[k]}, spawned)
  {}

  lemma BooksWith(
    clients: map<Conv, Client>, profileDirs: map<Conv, Profile>, owner: map<Client, Conv>, spawned: set<Client>,
    k: Conv, c: Client)
    requires Books(clients, profileDirs, owner, spawned) && k !in clients && c in spawned && c !in owner
    ensures Books(clients[k := c], profileDirs[k := c.profile], owner[c := k], spawned)
  {}

  lemma OneEach(
    clients: map<Conv, Client>, profileDirs: map<Conv, Profile>, owner: map<Client, Conv>, spawned: set<Client>)
    requires Books(clients, profileDirs, owner, spawned)
    ensures forall k, l :: k in clients && l in clients && clients[k] == clients[l] ==> k == l
    ensures forall k :: k in clients ==> clients[k] in owner && clients[k] in spawned
    ensures forall k :: k in clients ==> k in profileDirs && clients[k].profile == profileDirs[k]
  {}

  lemma AllGone(
    clients: map<Conv, Client>, profileDirs: map<Conv, Profile>, owner: map<Client, Conv>, spawned: set<Client>)
    requires Books(clients, profileDirs, owner, spawned)
    requires forall k :: k in clients ==> clients[k].Ended(false)
    requires forall c :: c in spawned && c !in owner ==> c.Gone()
    ensures forall c :: c in spawned ==> c.Gone()
    ensures Books(map[], map[], map[], spawned)
  {}

  lemma OneMoreGone(gone: set<Conv>, bad: set<Conv>, k: Conv)
    requires gone !! bad && k !in gone
    ensures if k in bad then (gone + {k}) * bad == {k} else (gone + {k}) !! bad
  {}

  lemma MinusMore<K, V>(m: map<K, V>, gone: set<K>, k: K)
    ensures (m - gone) - {k} == m - (gone + {k})
  {}

  lemma PutAfterRemove<K, V>(m: map<K, V>, k: K, v: V)
    ensures (m - {k})[k := v] == m[k := v]
  {}

  class Pool {
    var clients: map<Conv, Client>
    var lastUsed: map<Conv, int>
    var profileDirs: map<Conv, Profile>
    ghost var spawned: set<Client>        // every client this pool ever made
    ghost var owner: map<Client, Conv>    // which conversation a client serves

    /** Every client ever made is owned by exactly one conversation or was stopped. So a process that still runs is
        owned, or is one whose stop raised because a task of its client had failed. */
    ghost predicate Valid()
      reads this`clients, this`profileDirs, this`spawned, this`owner, spawned
    {
      && Books(clients, profileDirs, owner, spawned)
      && forall c :: c in spawned && c !in owner ==> c.Gone()
    }

    /** The conversations whose client cannot be stopped. */
    ghost function StuckOnes(): set<Conv>
      reads this`clients, clients.Values
    {
      set k | k in clients && clients[k].Failed()
    }

    /** The conversations whose client's process runs. */
    ghost function RunningOnes(): set<Conv>
      reads this`clients, clients.Values
    {
      set k | k in clients && clients[k].Running()
    }

    /** Would `Get` hand out the client it already has? */
    ghost predicate Reusable(conv: Conv, profile: Profile)
      reads this`clients, this`profileDirs, this`spawned, this`owner, spawned
      requires Valid()
    {
      conv in clients && clients[conv].Alive() && profileDirs[conv] == profile
    }

    constructor ()
      ensures Valid() && clients == map[] && lastUsed == map[] && spawned == {}
    {
      clients, lastUsed, profileDirs, spawned, owner := map[], map[], map[], {}, map[];
    }

    /** The client leaves the tables first. Then its stop ends the process, or raises and leaves it as it was, exactly
        if a task of the client had failed. */
    method Drop(conv: Conv) returns (raised: bool)
      requires Valid()
      modifies this`clients, this`lastUsed, this`profileDirs, this`owner
      modifies if conv in clients then {clients[conv]} else {}
      ensures Valid() && spawned == old(spawned)
      ensures clients == old(clients) - {conv} && lastUsed == old(lastUsed) - {conv}
      ensures raised <==> conv in old(StuckOnes())
      ensures conv in old(clients) ==>
          var c := old(clients)[conv];
          c.Ended(conv in old(StuckOnes()) && conv in old(RunningOnes()))
      ensures StuckOnes() == old(StuckOnes()) - {conv} && RunningOnes() == old(RunningOnes()) - {conv}
    {
      hide Books;
      OneEach(clients, profileDirs, owner, spawned);
      raised := false;
      if conv in clients {
        var c := clients[conv];
        BooksWithout(clients, profileDirs, owner, spawned, conv);
        clients, profileDirs, owner := clients - {conv}, profileDirs - {conv}, owner - {c};
        lastUsed := lastUsed - {conv};
        assert forall k :: k in clients ==> clients[k] != c;
        raised := c.Stop();
      } else {
        lastUsed := lastUsed - {conv};
        assert clients - {conv} == clients;
      }
    }

    lemma Agree()
      requires Valid()
      ensures forall k :: k in clients ==> k in profileDirs && clients[k].profile == profileDirs[k]
    {}

    /** Point the living client's callbacks at the new prompt. */
    method Rebind(c: Client, conv: Conv, cb: nat)
      requires Valid() && conv in clients && clients[conv] == c && c.Alive()
      modifies c`callbacks
      ensures Valid() && c.Alive() && c.callbacks == cb
    {
      c.callbacks := cb;
    }

    /** A fresh client; if its handshake fails it is stopped again, which leaves its process running exactly if a task
        of it had failed by then. */
    method Spawn(conv: Conv, cb: nat, stored: Option<string>, profile: Profile, a: Answers)
      returns (r: Result<(Client, Option<string>), Error>)
      requires Valid() && conv !in clients
      modifies this`clients, this`profileDirs, this`spawned, this`owner
      ensures Valid() && old(spawned) < spawned && fresh(spawned - old(spawned))
      ensures r.Ok? <==> Handshake(stored, a).Ok?
      ensures r.Err? ==>
          && clients == old(clients) && r.error == (if Fails(a) then StopRaised else HandshakeFailed)
          && forall c :: c in spawned - old(spawned) ==> c.closed && (c.Running() <==> Fails(a))
      ensures r.Ok? ==>
          var c := r.value.0;
          && r.value.1 == Handshake(stored, a).value && fresh(c)
          && clients == old(clients)[conv := c] && c.Failed() == Fails(a)
          && c.Alive() && c.profile == profile && c.callbacks == cb
          && c.sessions == if r.value.1.Some? then [r.value.1.value] else []
    {
      hide Books;
      var c := new Client(profile, cb);
      var h := c.Connect(stored, a);
      NotOwned(clients, profileDirs, owner, spawned, c);
      if h.Err? {
        var raised := c.Stop();
        spawned := spawned + {c};
        return Err(if raised then StopRaised else HandshakeFailed);
      }
      spawned := spawned + {c};
      BooksWith(clients, profileDirs, owner, spawned, conv, c);
      clients, profileDirs, owner := clients[conv := c], profileDirs[conv := profile], owner[c := conv];
      return Ok((c, h.value));
    }

    /** Drop the stale client, if any, and start a fresh one. A stale client whose stop raises ends the call before
        anything is started. */
    method Replace(conv: Conv, cb: nat, stored: Option<string>, profile: Profile, a: Answers)
      returns (r: Result<(Client, Option<string>), Error>)
      requires Valid()
      modifies this
      modifies if conv in clients then {clients[conv]} else {}
      ensures Valid() && old(spawned) <= spawned && fresh(spawned - old(spawned))
      ensures lastUsed == if conv in old(clients) then old(lastUsed) - {conv} else old(lastUsed)
      ensures conv in old(clients) ==>
          var c := old(clients)[conv];
          c.Ended(conv in old(StuckOnes()) && conv in old(RunningOnes()))
      ensures conv in old(StuckOnes()) ==> r == Err(StopRaised) && spawned == old(spawned)
      ensures conv !in old(StuckOnes()) ==>
          && old(spawned) < spawned && (r.Ok? <==> Handshake(stored, a).Ok?)
          && (r.Err? ==> r.error == if Fails(a) then StopRaised else HandshakeFailed)
      ensures r.Err? ==>
          && clients == old(clients) - {conv}
          && forall c :: c in spawned - old(spawned) ==> c.closed && (c.Running() <==> Fails(a))
      ensures r.Ok? ==>
          var c := r.value.0;
          && r.value.1 == Handshake(stored, a).value && fresh(c)
          && clients == old(clients)[conv := c] && c.Failed() == Fails(a)
          && c.Alive() && c.profile == profile && c.callbacks == cb
          && c.sessions == if r.value.1.Some? then [r.value.1.value] else []
    {
      hide Books;
      ghost var before := clients;
      if conv in clients {
        var raised := Drop(conv);
        if raised { return Err(StopRaised); }
      }
      assert clients == before - {conv};
      r := Spawn(conv, cb, stored, profile, a);
      if r.Ok? { PutAfterRemove(before, conv, r.value.0); }
    }

    /** Hand out the conversation's client: the living one with the same profile, its reader dead or not, or a fresh
        one after dropping the old. */
    method Get(now: int, conv: Conv, cb: nat, stored: Option<string>, profile: Profile, a: Answers)
      returns (r: Result<(Client, Option<string>), Error>)
      requires Valid()
      modifies this
      modifies if conv in clients then {clients[conv]} else {}
      ensures Valid() && old(spawned) <= spawned && fresh(spawned - old(spawned))
      ensures old(Reusable(conv, profile)) ==>
          && r == Ok((old(clients[conv]), None))
          && clients == old(clients) && spawned == old(spawned) && lastUsed == old(lastUsed)[conv := now]
          && clients[conv].sessions == old(clients[conv].sessions)
          && clients[conv].Failed() == old(clients[conv].Failed())
      ensures !old(Reusable(conv, profile)) ==>
          && (r.Ok? <==> Handshake(stored, a).Ok? && conv !in old(StuckOnes()))
          && (conv !in old(StuckOnes()) ==> old(spawned) < spawned)
          && (r.Ok? ==> r.value.1 == Handshake(stored, a).value)
          && (r.Ok? ==> r.value.0.Failed() == Fails(a))
          && (r.Ok? ==> fresh(r.value.0) && clients == old(clients)[conv := r.value.0])
          && (r.Ok? ==> r.value.0.sessions == if r.value.1.Some? then [r.value.1.value] else [])
          && (r.Err? ==> clients == old(clients) - {conv})
          && lastUsed == (if conv in old(clients) then old(lastUsed) - {conv} else old(lastUsed)[conv := now])
      ensures r.Ok? ==>
          var c := r.value.0;
          conv in clients && clients[conv] == c && c.profile == profile && c.callbacks == cb
          && !c.closed && c.started && !c.exited
      ensures r == Err(StopRaised) <==>
          !old(Reusable(conv, profile)) && (conv in old(StuckOnes()) || (Handshake(stored, a).Err? && Fails(a)))
      ensures !old(Reusable(conv, profile)) && conv in old(clients) ==>
          var c := old(clients)[conv];
          c.Ended(conv in old(StuckOnes()) && conv in old(RunningOnes()))
      ensures r.Err? ==>
          forall c :: c in spawned - old(spawned) ==> c.closed && (c.Running() <==> Fails(a))
    {
      hide Books, Valid, StuckOnes, RunningOnes, Handshake, Fails;
      Agree();
      lastUsed := lastUsed[conv := now];
      if conv in clients && clients[conv].Alive() && profileDirs[conv] == profile {
        Rebind(clients[conv], conv, cb);
        r := Ok((clients[conv], None));
      } else {
        r := Replace(conv, cb, stored, profile, a);
      }
    }

    /** Drop the conversations idle for longer than `IDLE_TIMEOUT`, in the order of the dictionary; one without a
        `lastUsed` entry stays. The first client that cannot be stopped ends the call: `gone` is what was dropped. */
    method EvictIdle(now: int) returns (raised: bool, gone: set<Conv>)
      requires Valid()
      modifies this`clients, this`lastUsed, this`profileDirs, this`owner
      modifies set k | k in clients && k in lastUsed :: clients[k]
      ensures Valid() && spawned == old(spawned)
      ensures var stale := set k | k in old(lastUsed) && old(lastUsed)[k] < now - 3600;
          && gone <= stale && (!raised ==> gone == stale)
          && (raised <==> stale * old(StuckOnes()) != {})
          && (raised ==> exists k :: gone * old(StuckOnes()) == {k})
          && clients == old(clients) - gone && lastUsed == old(lastUsed) - gone
      ensures forall k :: k in gone && k in old(clients) ==>
          var c := old(clients)[k];
          c.Ended(k in old(StuckOnes()) && k in old(RunningOnes()))
    {
      hide Books;
      OneEach(clients, profileDirs, owner, spawned);
      ghost var before := clients;
      ghost var bad, ran := StuckOnes(), RunningOnes();
      var stale := set k | k in lastUsed && lastUsed[k] < now - IDLE_TIMEOUT;
      var todo := stale;
      raised, gone := false, {};
      hide StuckOnes, RunningOnes, Valid, Client.Ended;
      while todo != {} && !raised
        invariant Valid() && todo !! gone && todo + gone == stale
        invariant clients == before - gone && lastUsed == old(lastUsed) - gone
        invariant StuckOnes() == bad - gone && RunningOnes() == ran - gone
        invariant forall k :: k in gone && k in before ==>
            before[k].Ended(k in bad && k in ran)
        invariant if raised then exists k :: gone * bad == {k} else gone !! bad
      {
        var k :| k in todo;
        MinusMore(before, gone, k);
        MinusMore(old(lastUsed), gone, k);
        OneMoreGone(gone, bad, k);
        raised := Drop(k);
        todo, gone := todo - {k}, gone + {k};
      }
    }

    /** Stop every client, in the order of the dictionary. The first one that cannot be stopped ends the call with all
        tables as they were; `reached` is how far it came. */
    method CloseAll() returns (raised: bool, reached: set<Conv>)
      requires Valid()
      modifies this`clients, this`lastUsed, this`profileDirs, this`owner, clients.Values
      ensures Valid() && spawned == old(spawned)
      ensures raised <==> old(StuckOnes()) != {}
      ensures forall k :: k in reached ==>
          k in old(clients) && old(clients)[k].Ended(k in old(StuckOnes()) && k in old(RunningOnes()))
      ensures raised ==>
          && clients == old(clients) && lastUsed == old(lastUsed) && profileDirs == old(profileDirs)
          && (exists k :: reached * old(StuckOnes()) == {k})
          && forall k :: k in clients && k !in reached ==> unchanged(clients[k])
      ensures !raised ==>
          && reached == old(clients).Keys && clients == map[] && lastUsed == map[] && profileDirs == map[]
          && forall c :: c in spawned && c.Running() ==> c.closed && c.Failed()
    {
      hide Books, Client.Ended;
      OneEach(clients, profileDirs, owner, spawned);
      ghost var bad, ran := StuckOnes(), RunningOnes();
      var todo := clients.Keys;
      raised, reached := false, {};
      while todo != {} && !raised
        invariant todo !! reached && todo + reached == clients.Keys
        invariant unchanged(this)
        invariant forall k :: k in clients && k !in reached ==> unchanged(clients[k])
        invariant forall k :: k in reached ==> clients[k].Ended(k in bad && k in ran)
        invariant forall c :: c in spawned && c !in owner ==> unchanged(c)
        invariant if raised then exists k :: reached * bad == {k} else reached !! bad
      {
        var k :| k in todo;
        OneMoreGone(reached, bad, k);
        raised := clients[k].Stop();
        todo, reached := todo - {k}, reached + {k};
      }
      if !raised {
        AllGone(clients, profileDirs, owner, spawned);
        clients, lastUsed, profileDirs, owner := map[], map[], map[], map[];
      }
    }

    /** Between calls, a task of a client fails or its process ends. Ownership does not depend on either. */
    method Happens(conv: Conv, c: Client, e: Event)
      requires Valid() && conv in clients && clients[conv] == c
      modifies c`readerFailed, c`drainFailed, c`exited
      ensures Valid()
      ensures c.readerFailed == (old(c.readerFailed) || e == ReaderFails)
      ensures c.drainFailed == (old(c.drainFailed) || e == DrainFails)
      ensures c.exited == (old(c.exited) || e == Exits)
    {
      if e == ReaderFails {
        c.readerFailed := true;
      } else if e == DrainFails {
        c.drainFailed := true;
      } else {
        c.exited := true;
      }
    }
  }

  datatype Event = ReaderFails | DrainFails | Exits

  lemma NotOwned(
    clients: map<Conv, Client>, profileDirs: map<Conv, Profile>, owner: map<Client, Conv>, spawned: set<Client>,
    c: Client)
    requires Books(clients, profileDirs, owner, spawned) && c !in spawned
    ensures c !in owner && Books(clients, profileDirs, owner, spawned + {c})
  {}

  // ---------- runs ----------

  /** A call of the pool, or something that happens to a client. */
  datatype Use =
    | GetFor(now: int, conv: Conv, cb: nat, stored: Option<string>, profile: Profile, answers: Answers)
    | DropFor(conv: Conv)
    | Evict(now: int)
    | Outside(conv: Conv, event: Event)

  /** Not a call about this conversation. */
  predicate Spares(u: Use, conv: Conv) {
    u.Evict? || u.Outside? || u.conv != conv
  }

  /** Any number of calls about other conversations, with anything happening to any client in between: without a
      last-use entry a conversation keeps its client through them all. */
  method UseOthers(pool: Pool, uses: seq<Use>, conv: Conv)
    requires pool.Valid() && conv in pool.clients && conv !in pool.lastUsed && !pool.clients[conv].closed
    requires forall i :: 0 <= i < |uses| ==> Spares(uses[i], conv)
    modifies pool, pool.spawned
    ensures pool.Valid() && fresh(pool.spawned - old(pool.spawned)) && conv !in pool.lastUsed
    ensures conv in pool.clients && pool.clients[conv] == old(pool.clients[conv]) && !pool.clients[conv].closed
  {
    var c, i := pool.clients[conv], 0;
    while i < |uses|
      invariant 0 <= i <= |uses| && pool.Valid()
      invariant old(pool.spawned) <= pool.spawned && fresh(pool.spawned - old(pool.spawned))
      invariant conv in pool.clients && pool.clients[conv] == c && conv !in pool.lastUsed && !c.closed
    {
      assert Spares(uses[i], conv);
      UseOnce(pool, uses[i], conv);
      i := i + 1;
    }
  }

  method UseOnce(pool: Pool, u: Use, conv: Conv)
    requires pool.Valid() && conv in pool.clients && conv !in pool.lastUsed && !pool.clients[conv].closed
    requires Spares(u, conv)
    modifies pool, pool.spawned
    ensures pool.Valid() && old(pool.spawned) <= pool.spawned && fresh(pool.spawned - old(pool.spawned))
    ensures conv in pool.clients && pool.clients[conv] == old(pool.clients[conv]) && conv !in pool.lastUsed
    ensures !pool.clients[conv].closed
  {
    hide Books;
    OneEach(pool.clients, pool.profileDirs, pool.owner, pool.spawned);
    if u.GetFor? {
      var r := pool.Get(u.now, u.conv, u.cb, u.stored, u.profile, u.answers);
    } else if u.DropFor? {
      var raised := pool.Drop(u.conv);
    } else if u.Evict? {
      var raised, gone := pool.EvictIdle(u.now);
    } else if u.conv in pool.clients {
      pool.Happens(u.conv, pool.clients[u.conv], u.event);
    }
  }

  /** A client that replaced a dead or differently profiled one has no `lastUsed` entry, so it outlives any number of
      evictions, at any times, whatever happens to other conversations or to itself, until its own conversation uses
      the pool again. */
  method RespawnEscapesEviction(pool: Pool, now: int, conv: Conv, cb: nat, stored: Option<string>, profile: Profile,
                                a: Answers, uses: seq<Use>) returns (c: Client)
    requires pool.Valid() && conv in pool.clients && !pool.Reusable(conv, profile) && conv !in pool.StuckOnes()
    requires Handshake(stored, a).Ok? && forall i :: 0 <= i < |uses| ==> Spares(uses[i], conv)
    modifies pool, pool.spawned
    ensures pool.Valid() && conv in pool.clients && pool.clients[conv] == c && !c.closed
  {
    OneEach(pool.clients, pool.profileDirs, pool.owner, pool.spawned);
    var r := pool.Get(now, conv, cb, stored, profile, a);
    c := r.value.0;
    UseOthers(pool, uses, conv);
  }

  // ---------- processes nobody can stop ----------

  const FINE := Answers(true, true, true, false, false, Some("s"), false, false)

  /** A pool with one conversation one of whose client's tasks has failed. The process still runs, and the pool still
      hands the client out. */
  method DeadReader(e: Event) returns (pool: Pool, c: Client)
    requires e != Exits
    ensures fresh(pool) && fresh(c) && pool.Valid() && fresh(pool.spawned)
    ensures pool.clients == map["a" := c] && pool.lastUsed.Keys == {"a"} && c in pool.spawned
    ensures c.Failed() && c.started && !c.exited && !c.closed
  {
    pool := new Pool();
    var r := pool.Get(0, "a", 0, None, None, FINE);
    c := r.value.0;
    pool.Happens("a", c, e);
    var again := pool.Get(1, "a", 1, None, None, FINE);
    assert again.value.0 == c;
  }

  /** Dropping it raises, and leaves a running process that no conversation owns. */
  method DropLeaks(e: Event) returns (pool: Pool, c: Client, raised: bool)
    requires e != Exits
    ensures pool.Valid() && c in pool.spawned && pool.clients == map[] && raised && c.started && !c.exited
  {
    pool, c := DeadReader(e);
    raised := pool.Drop("a");
  }

  /** So does a failed handshake in which the reader failed. */
  method HandshakeLeaks() returns (pool: Pool, r: Result<(Client, Option<string>), Error>)
    ensures pool.Valid() && r == Err(StopRaised) && pool.clients == map[]
    ensures exists c :: c in pool.spawned && c.started && !c.exited
  {
    pool := new Pool();
    r := pool.Get(0, "a", 0, None, None, FINE.(initOk := false, readerFailed := true));
  }

  /** A shutdown that reaches this client before another one raises there: the other one still runs and no table was
      cleared. */
  method CloseAllStops() returns (pool: Pool, c: Client, d: Client, raised: bool, reached: set<Conv>)
    ensures pool.Valid() && raised && pool.clients == map["a" := c, "b" := d] && c.closed && c.Running()
    ensures if "b" in reached then !d.Running() else d.Alive()
  {
    pool, c := DeadReader(ReaderFails);
    var r := pool.Get(0, "b", 0, None, None, FINE);
    d := r.value.0;
    assert pool.clients["b"] == d && !d.Failed() && d.Running();
    assert pool.clients["a"] == c && c.Failed() && c.Running();
    raised, reached := pool.CloseAll();
  }
}
