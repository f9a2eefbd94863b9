/** The live event log of one conversation (a capped Redis Stream) and the SSE/WebSocket
    readers that follow it with a cursor. */
module EventLog {
  import opened Numbers
  import opened Wrappers

  const MAXLEN := 2000        // EVENT_STREAM_MAXLEN
  const BATCH := 256          // entries per XREAD
  const TTL_MS := 86_400_000  // EVENT_STREAM_TTL

  /** A stream id `ms-seqNo`. */
  datatype EntryId = EntryId(ms: nat, seqNo: nat)

  datatype Entry<+E> = Entry(id: EntryId, data: E)

  predicate Less(a: EntryId, b: EntryId) {
    a.ms < b.ms || (a.ms == b.ms && a.seqNo < b.seqNo)
  }

  /** XADD's automatic id. */
  function NextId(top: EntryId, now: nat): EntryId {
    if now > top.ms then EntryId(now, 0) else EntryId(top.ms, top.seqNo + 1)
  }

  ghost predicate Ordered<E>(h: seq<Entry<E>>) {
    forall i, j :: 0 <= i < j < |h| ==> Less(h[i].id, h[j].id)
  }

  /** How many entries a reader at cursor `id` has left behind. */
  function Pos<E>(h: seq<Entry<E>>, id: EntryId): (n: nat)
    ensures n <= |h|
  {
    if h == [] || Less(id, h[0].id) then 0 else 1 + Pos(h[1..], id)
  }

  /** XREAD: the first entries strictly after the cursor. */
  function ReadAfter<E>(retained: seq<Entry<E>>, id: EntryId): seq<Entry<E>> {
    var k := Pos(retained, id);
    retained[k..Min(k + BATCH, |retained|)]
  }

  /** In an ordered log `Pos` is a frontier: everything before it is at or below the cursor, everything after is
      above. */
  lemma {:induction false} PosFrontier<E>(h: seq<Entry<E>>, id: EntryId)
    requires Ordered(h)
    ensures forall i :: 0 <= i < |h| ==> (i < Pos(h, id) <==> !Less(id, h[i].id))
  {
    if h != [] && !Less(id, h[0].id) {
      PosFrontier(h[1..], id);
      forall i | 0 <= i < |h| ensures i < Pos(h, id) <==> !Less(id, h[i].id) {
        if i > 0 { assert h[i] == h[1..][i - 1]; }
      }
    }
  }

  lemma {:induction false} PosMonotone<E>(h: seq<Entry<E>>, a: EntryId, b: EntryId)
    requires !Less(b, a)
    ensures Pos(h, a) <= Pos(h, b)
  {
    if h != [] && !Less(a, h[0].id) { PosMonotone(h[1..], a, b); }
  }

  lemma PosUnique<E>(h: seq<Entry<E>>, id: EntryId, n: nat)
    requires Ordered(h) && n <= |h|
    requires forall i :: 0 <= i < |h| ==> (i < n <==> !Less(id, h[i].id))
    ensures Pos(h, id) == n
  {
    PosFrontier(h, id);
    var p := Pos(h, id);
    var q := Min(p, n);
    assert q < |h| ==> (q < p <==> !Less(id, h[q].id)) && (q < n <==> !Less(id, h[q].id));
  }

  /** The cursor that sits on entry `k` has left exactly `k + 1` entries behind. */
  lemma PosAt<E>(h: seq<Entry<E>>, k: nat)
    requires Ordered(h) && k < |h|
    ensures Pos(h, h[k].id) == k + 1
  {
    PosUnique(h, h[k].id, k + 1);
  }

  /** Appending a younger entry moves no cursor that is not ahead of the log. */
  lemma PosAppend<E>(h: seq<Entry<E>>, e: Entry<E>, id: EntryId)
    requires Ordered(h + [e])
    ensures Ordered(h)
    ensures Pos(h + [e], id) == if Less(id, e.id) then Pos(h, id) else |h| + 1
  {
    var g := h + [e];
    assert forall i :: 0 <= i < |h| ==> g[i] == h[i];
    assert g[|h|] == e;
    PosFrontier(h, id);
    PosFrontier(g, id);
    if Less(id, e.id) { PosUnique(g, id, Pos(h, id)); } else { PosUnique(g, id, |h| + 1); }
  }

  /** What a reader sees of a log whose first `dropped` entries are gone. */
  lemma PosSuffix<E>(h: seq<Entry<E>>, dropped: nat, id: EntryId)
    requires Ordered(h) && dropped <= |h|
    ensures Pos(h[dropped..], id) == if dropped <= Pos(h, id) then Pos(h, id) - dropped else 0
  {
    var r := h[dropped..];
    PosFrontier(h, id);
    assert forall i :: 0 <= i < |r| ==> r[i] == h[dropped + i];
    PosUnique(r, id, if dropped <= Pos(h, id) then Pos(h, id) - dropped else 0);
  }

  /** The piece of log one read returns: from the cursor, or from the first retained entry if that is later. */
  function Piece<E>(h: seq<Entry<E>>, dropped: nat, id: EntryId): seq<Entry<E>>
    requires dropped <= |h|
  {
    var from := Max(dropped, Pos(h, id));
    h[from..Min(from + BATCH, |h|)]
  }

  /** A read of the retained log returns that piece. */
  lemma ReadIsPiece<E>(h: seq<Entry<E>>, dropped: nat, id: EntryId)
    requires Ordered(h) && dropped <= |h|
    ensures ReadAfter(h[dropped..], id) == Piece(h, dropped, id)
  {
    PosSuffix(h, dropped, id);
    var r, k := h[dropped..], Pos(h[dropped..], id);
    var m := Min(k + BATCH, |r|);
    assert r[k..m] == h[dropped + k..dropped + m];
  }

  lemma SliceIsPrefix<T>(s: seq<T>, i: nat, j: nat)
    requires i <= j <= |s|
    ensures s[i..j] <= s[i..]
  {
    assert s[i..j] == s[i..][..j - i];
  }

  lemma FirstDiffers<T>(a: seq<T>, b: seq<T>)
    requires a != [] && b != [] && a[0] != b[0]
    ensures !(a <= b)
  {}

  /** A read continues the reader's sequence without gap or repeat exactly when trimming has not overtaken its
      cursor, or there is nothing left to read. */
  lemma PieceContinues<E>(h: seq<Entry<E>>, dropped: nat, id: EntryId)
    requires Ordered(h) && dropped <= |h|
    ensures Piece(h, dropped, id) <= h[Pos(h, id)..] <==> dropped <= Pos(h, id) || dropped == |h|
  {
    var p, b := Pos(h, id), Piece(h, dropped, id);
    if dropped <= p {
      SliceIsPrefix(h, p, Min(p + BATCH, |h|));
    } else if dropped < |h| {
      assert Less(h[p].id, h[dropped].id);
      FirstDiffers(b, h[p..]);
    }
  }

  lemma Slices<T>(s: seq<T>, i: nat, j: nat, k: nat)
    requires i <= j <= k <= |s|
    ensures s[i..j] + s[j..k] == s[i..k]
  {}

  // ---------- the log ----------

  /** Everything ever appended, how much of it is gone, and how much of that went when the key last expired; the last
      generated id (0-0 for a missing key) and the time of the last command. */
  datatype Log<E> = Log(history: seq<Entry<E>>, dropped: nat, expired: nat, top: EntryId, lastAt: nat)

  ghost predicate Sound<E>(l: Log<E>) {
    && l.expired <= l.dropped <= |l.history| && Ordered(l.history)
    && (l.dropped == l.expired || |l.history| - l.dropped >= MAXLEN)
    && l.top == if l.dropped < |l.history| then l.history[|l.history| - 1].id else EntryId(0, 0)
  }

  /** Approximate trimming never goes below `MAXLEN`. The clock may step back while the key exists, but once the key
      is gone its id is forgotten, so the next one is younger only if the clock has passed the last entry. */
  predicate MayPublish<E>(l: Log<E>, now: nat, drop: nat)
    requires l.dropped <= |l.history|
  {
    var n, h := |l.history| - l.dropped, l.history;
    && (drop == 0 || (drop <= n && n + 1 - drop >= MAXLEN))
    && (n == 0 && h != [] ==> Less(h[|h| - 1].id, NextId(l.top, now)))
  }

  function PublishTo<E>(l: Log<E>, now: nat, data: E, drop: nat): Log<E> {
    var id := NextId(l.top, now);
    Log(l.history + [Entry(id, data)], l.dropped + drop, l.expired, id, now)
  }

  function ExpireAt<E>(l: Log<E>, now: nat): Log<E> {
    Log(l.history, |l.history|, |l.history|, EntryId(0, 0), now)
  }

  lemma PublishSound<E>(l: Log<E>, now: nat, data: E, drop: nat)
    requires Sound(l) && MayPublish(l, now, drop)
    ensures Sound(PublishTo(l, now, data, drop))
    ensures forall i :: 0 <= i < |l.history| ==> Less(l.history[i].id, NextId(l.top, now))
  {
    var h, id := l.history, NextId(l.top, now);
    assert h != [] ==> Less(h[|h| - 1].id, id);
    forall i | 0 <= i < |h| ensures Less(h[i].id, id) {
      assert i < |h| - 1 ==> Less(h[i].id, h[|h| - 1].id);
    }
  }

  /** The generated id is the least one above the last that is not before the clock. */
  lemma NextIsLeast(top: EntryId, now: nat, id: EntryId)
    ensures Less(top, NextId(top, now)) && !Less(NextId(top, now), EntryId(now, 0))
    ensures Less(top, id) && !Less(id, EntryId(now, 0)) ==> !Less(id, NextId(top, now))
  {}

  /** On a missing key the order of ids depends on the clock, and on nothing else. */
  lemma FreshIdIff<E>(l: Log<E>, now: nat, data: E)
    requires Sound(l) && l.dropped == |l.history| && l.history != []
    ensures Ordered(PublishTo(l, now, data, 0).history) <==> Less(l.history[|l.history| - 1].id, NextId(l.top, now))
  {
    var h, g := l.history, PublishTo(l, now, data, 0).history;
    if Less(h[|h| - 1].id, NextId(l.top, now)) {
      PublishSound(l, now, data, 0);
    } else {
      assert g[|h| - 1] == h[|h| - 1] && g[|h|].id == NextId(l.top, now);
    }
  }

  /** No id lies after the last command, or, while the key is missing, at it. */
  ghost predicate Steady<E>(l: Log<E>) {
    && l.dropped <= |l.history|
    && forall i :: 0 <= i < |l.history| ==>
        l.history[i].id.ms <= l.lastAt && (l.dropped == |l.history| ==> l.history[i].id.ms < l.lastAt)
  }

  /** A clock that never steps back keeps that so, and then every publish is allowed, after an expiry too. */
  lemma SteadyClock<E>(l: Log<E>, now: nat, data: E)
    requires Sound(l) && Steady(l) && l.lastAt <= now
    ensures MayPublish(l, now, 0) && Steady(PublishTo(l, now, data, 0))
    ensures l.lastAt + TTL_MS <= now ==> Steady(ExpireAt(l, now))
  {
    var g := PublishTo(l, now, data, 0).history;
    assert forall i :: 0 <= i < |l.history| ==> g[i] == l.history[i];
  }

  class EventStream<E> {
    var entries: seq<Entry<E>>        // what Redis still holds
    var top: EntryId
    var lastAt: nat
    ghost var history: seq<Entry<E>>
    ghost var expired: nat

    ghost function View(): Log<E>
      reads this
      requires |entries| <= |history|
    {
      Log(history, |history| - |entries|, expired, top, lastAt)
    }

    ghost predicate Valid()
      reads this
    {
      |entries| <= |history| && entries == history[|history| - |entries|..] && Sound(View())
    }

    constructor ()
      ensures Valid() && View() == Log([], 0, 0, EntryId(0, 0), 0) && entries == []
    {
      entries, top, lastAt := [], EntryId(0, 0), 0;
      history, expired := [], 0;
      new;
      assert entries == history[0..];
    }

    /** XADD with approximate MAXLEN: Redis may then drop `drop` of the oldest entries. */
    method Publish(now: nat, data: E, drop: nat) returns (id: EntryId)
      requires Valid() && MayPublish(View(), now, drop)
      modifies this
      ensures Valid() && View() == PublishTo(old(View()), now, data, drop)
      ensures forall i :: 0 <= i < |old(history)| ==> Less(old(history)[i].id, id)
      ensures entries == (old(entries) + [Entry(id, data)])[drop..]
    {
      hide Sound, Ordered;
      PublishSound(View(), now, data, drop);
      id := NextId(top, now);
      Dropping(history, |entries|, Entry(id, data), drop);
      entries := (entries + [Entry(id, data)])[drop..];
      history := history + [Entry(id, data)];
      top, lastAt := id, now;
    }

    /** The key's time to live ran out. */
    method Expire(now: nat)
      requires Valid() && lastAt + TTL_MS <= now
      modifies this
      ensures Valid() && View() == ExpireAt(old(View()), now) && entries == []
    {
      entries, top, lastAt := [], EntryId(0, 0), now;
      expired := |history|;
    }

    /** XREVRANGE COUNT 1: the newest id, 0-0 if there is none. */
    method Latest() returns (id: EntryId)
      requires Valid()
      ensures entries != [] ==> id == entries[|entries| - 1].id && Pos(history, id) == |history|
      ensures entries == [] ==> id == EntryId(0, 0)
    {
      if entries == [] { return EntryId(0, 0); }
      id := entries[|entries| - 1].id;
      assert id == history[|history| - 1].id;
      PosAt(history, |history| - 1);
    }
  }

  lemma Dropping<T>(h: seq<T>, n: nat, e: T, drop: nat)
    requires n <= |h| && drop <= n + 1
    ensures (h[|h| - n..] + [e])[drop..] == (h + [e])[|h| - n + drop..]
  {}

  // ---------- readers ----------

  /** A reader: its start, what was already gone when it started, its cursor and the frames it has emitted. */
  datatype Reader<E> = Reader(startId: EntryId, base: nat, lastId: EntryId, frames: seq<Entry<E>>)

  /** The first entry the reader is owed. */
  function From<E>(h: seq<Entry<E>>, r: Reader<E>): nat {
    Max(r.base, Pos(h, r.startId))
  }

  /** The first entry it has not read. */
  function At<E>(h: seq<Entry<E>>, r: Reader<E>): nat {
    Max(r.base, Pos(h, r.lastId))
  }

  /** The frames are exactly the log after the start up to the cursor, in order and once each. */
  ghost predicate Exact<E>(h: seq<Entry<E>>, r: Reader<E>) {
    && r.base <= |h| && !Less(r.lastId, r.startId)
    && From(h, r) <= At(h, r) && r.frames == h[From(h, r)..At(h, r)]
  }

  /** The cursor is where it started, or on an entry of the log. */
  ghost predicate OnEntry<E>(h: seq<Entry<E>>, r: Reader<E>) {
    r.lastId == r.startId || (Pos(h, r.lastId) > 0 && h[Pos(h, r.lastId) - 1].id == r.lastId)
  }

  /** One frame goes out; the cursor follows it. */
  function Emit<E>(r: Reader<E>, e: Entry<E>): Reader<E> {
    r.(lastId := e.id, frames := r.frames + [e])
  }

  function EmitAll<E>(r: Reader<E>, batch: seq<Entry<E>>): Reader<E> {
    if batch == [] then r else Emit(EmitAll(r, batch[..|batch| - 1]), batch[|batch| - 1])
  }

  /** One turn of the read loop. */
  function PumpOf<E>(l: Log<E>, r: Reader<E>): Reader<E>
    requires l.dropped <= |l.history|
  {
    EmitAll(r, Piece(l.history, l.dropped, r.lastId))
  }

  /** At most 2000 (`MAXLEN`) entries behind, and not behind an expiry of the key. */
  predicate Close<E>(l: Log<E>, r: Reader<E>) {
    |l.history| - At(l.history, r) <= 2000 && l.expired <= At(l.history, r)
  }

  /** Such a reader is never overtaken by trimming. */
  lemma KeepsUp<E>(l: Log<E>, r: Reader<E>)
    requires Sound(l) && Close(l, r)
    ensures l.dropped <= At(l.history, r)
  {}

  /** A batch read from an un-overtaken cursor is the next piece of the log. */
  lemma FetchIsNext<E>(l: Log<E>, r: Reader<E>)
    requires Sound(l) && r.base <= l.dropped <= At(l.history, r)
    ensures var h, at := l.history, At(l.history, r); Piece(h, l.dropped, r.lastId) == h[at..Min(at + BATCH, |h|)]
  {}

  /** Each frame of such a piece keeps the frames exact, wherever the connection is lost among them. */
  lemma EmitKeepsExact<E>(h: seq<Entry<E>>, r: Reader<E>)
    requires Ordered(h) && Exact(h, r) && At(h, r) < |h|
    ensures var t := Emit(r, h[At(h, r)]); Exact(h, t) && OnEntry(h, t) && At(h, t) == At(h, r) + 1
  {
    var at := At(h, r);
    PosAt(h, at);
    PosFrontier(h, r.startId);
    Slices(h, From(h, r), at, at + 1);
    assert h[at..at + 1] == [h[at]];
  }

  lemma {:induction false} EmitAllKeepsExact<E>(h: seq<Entry<E>>, r: Reader<E>, n: nat)
    requires Ordered(h) && Exact(h, r) && OnEntry(h, r) && At(h, r) <= n <= |h|
    ensures var t := EmitAll(r, h[At(h, r)..n]); Exact(h, t) && OnEntry(h, t) && At(h, t) == n
  {
    hide Exact, OnEntry, Ordered;
    var at := At(h, r);
    if at < n {
      assert h[at..n][..n - 1 - at] == h[at..n - 1];
      EmitAllKeepsExact(h, r, n - 1);
      EmitKeepsExact(h, EmitAll(r, h[at..n - 1]));
    }
  }

  /** A whole batch moves the cursor by up to `BATCH` entries. */
  lemma PumpKeepsExact<E>(l: Log<E>, r: Reader<E>)
    requires Sound(l) && r.base <= l.dropped <= At(l.history, r) && Exact(l.history, r) && OnEntry(l.history, r)
    ensures var h, t := l.history, PumpOf(l, r);
        Exact(h, t) && OnEntry(h, t) && At(h, t) == Min(At(h, r) + 256, |h|)
  {
    FetchIsNext(l, r);
    EmitAllKeepsExact(l.history, r, Min(At(l.history, r) + BATCH, |l.history|));
  }

  /** Publishing never disturbs an open connection, even one whose start id lies in the future. */
  lemma PublishKeepsExact<E>(h: seq<Entry<E>>, e: Entry<E>, r: Reader<E>)
    requires Ordered(h + [e]) && Exact(h, r) && OnEntry(h, r)
    ensures Exact(h + [e], r) && OnEntry(h + [e], r)
    ensures r.frames != [] || At(h, r) < |h| ==> At(h + [e], r) == At(h, r)
  {
    var g := h + [e];
    PosAppend(h, e, r.startId);
    PosAppend(h, e, r.lastId);
    if At(h, r) < |h| {
      PosFrontier(h, r.lastId);
      var next := Pos(h, r.lastId);
      assert g[next] == h[next] && g[|h|] == e;
      assert Less(r.lastId, h[next].id) && Less(h[next].id, e.id);
    }
    if r.lastId != r.startId {
      assert g[Pos(h, r.lastId) - 1] == h[Pos(h, r.lastId) - 1] && g[|h|] == e;
      assert Less(r.lastId, e.id);
    }
  }

  /** One open connection: `event_gen` for SSE, `pump_out` for WebSocket. */
  class Connection<E> {
    const stream: EventStream<E>
    const startId: EntryId
    ghost const base: nat
    var lastId: EntryId
    var frames: seq<Entry<E>>

    ghost function View(): Reader<E>
      reads this
    {
      Reader(startId, base, lastId, frames)
    }

    /** Resume after the id the client sends (Last-Event-ID or `since`), else after the newest entry; a reader without
        an id is owed nothing of the past, also where the key is missing and it starts at 0-0. */
    constructor (s: EventStream<E>, resume: Option<EntryId>)
      requires s.Valid()
      ensures stream == s && frames == [] && base == s.View().dropped
      ensures Exact(s.history, View()) && OnEntry(s.history, View())
      ensures resume.Some? ==> startId == resume.value
      ensures resume.None? && s.entries == [] ==> startId == EntryId(0, 0)
      ensures resume.None? ==> From(s.history, View()) == |s.history|
    {
      var id: EntryId;
      if resume.Some? { id := resume.value; } else { id := s.Latest(); }
      stream, startId, base, lastId, frames := s, id, |s.history| - |s.entries|, id, [];
    }

    /** Emit a batch frame by frame; the cursor follows each frame. */
    method Send(batch: seq<Entry<E>>)
      modifies this
      ensures View() == EmitAll(old(View()), batch)
    {
      var i := 0;
      while i < |batch|
        invariant 0 <= i <= |batch| && View() == EmitAll(old(View()), batch[..i])
      {
        assert batch[..i + 1][..i] == batch[..i];
        lastId := batch[i].id;
        frames := frames + [batch[i]];
        i := i + 1;
      }
      assert batch[..i] == batch;
    }

    /** One turn of the read loop. */
    method Pump()
      requires stream.Valid()
      modifies this
      ensures View() == PumpOf(stream.View(), old(View()))
    {
      var batch := ReadAfter(stream.entries, lastId);
      ReadIsPiece(stream.history, stream.View().dropped, lastId);
      Send(batch);
    }
  }

  // ---------- runs ----------

  /** The log, a connection to it, and what the connection has read but not yet emitted. */
  datatype State<E> = State(log: Log<E>, reader: Reader<E>, batch: seq<Entry<E>>)

  datatype Step<E> =
    | Publish(now: nat, data: E, drop: nat)
    | Expire(now: nat)
    | Fetch
    | EmitNext

  /** The reader has just connected. */
  ghost predicate Init<E>(s: State<E>) {
    && Sound(s.log) && s.reader.base == s.log.dropped
    && s.reader.lastId == s.reader.startId && s.reader.frames == [] && s.batch == []
  }

  predicate Enabled<E>(s: State<E>, a: Step<E>) {
    && s.log.dropped <= |s.log.history|
    && match a
       case Publish(now, _, drop) => MayPublish(s.log, now, drop)
       case Expire(now) => s.log.lastAt + TTL_MS <= now
       case Fetch => s.batch == []
       case EmitNext => s.batch != []
  }

  function Next<E>(s: State<E>, a: Step<E>): State<E>
    requires Enabled(s, a)
  {
    match a
    case Publish(now, data, drop) => s.(log := PublishTo(s.log, now, data, drop))
    case Expire(now) => s.(log := ExpireAt(s.log, now))
    case Fetch => s.(batch := Piece(s.log.history, s.log.dropped, s.reader.lastId))
    case EmitNext => s.(reader := Emit(s.reader, s.batch[0]), batch := s.batch[1..])
  }

  ghost predicate Run<E>(trace: seq<State<E>>, steps: seq<Step<E>>) {
    && |trace| == |steps| + 1
    && Init(trace[0])
    && forall i :: 0 <= i < |steps| ==> Enabled(trace[i], steps[i]) && trace[i + 1] == Next(trace[i], steps[i])
  }

  /** What waits to be emitted is the next piece of the log, even if Redis has trimmed it meanwhile. */
  ghost predicate Held<E>(h: seq<Entry<E>>, r: Reader<E>, batch: seq<Entry<E>>) {
    At(h, r) + |batch| <= |h| && batch == h[At(h, r)..At(h, r) + |batch|]
  }

  ghost predicate Inv<E>(s: State<E>) {
    && Sound(s.log) && s.reader.base <= s.log.dropped && Exact(s.log.history, s.reader)
    && OnEntry(s.log.history, s.reader) && Held(s.log.history, s.reader, s.batch)
  }

  lemma PublishKeepsHeld<E>(h: seq<Entry<E>>, e: Entry<E>, r: Reader<E>, batch: seq<Entry<E>>)
    requires Ordered(h + [e]) && Exact(h, r) && OnEntry(h, r) && Held(h, r, batch)
    ensures Held(h + [e], r, batch)
  {
    PublishKeepsExact(h, e, r);
    var at := At(h, r);
    if batch != [] { assert (h + [e])[at..at + |batch|] == h[at..at + |batch|]; }
  }

  lemma EmitKeepsHeld<E>(h: seq<Entry<E>>, r: Reader<E>, batch: seq<Entry<E>>)
    requires Ordered(h) && Exact(h, r) && Held(h, r, batch) && batch != []
    ensures batch[0] == h[At(h, r)] && Held(h, Emit(r, batch[0]), batch[1..])
  {
    EmitKeepsExact(h, r);
  }

  lemma StepInv<E>(s: State<E>, a: Step<E>)
    requires Inv(s) && Enabled(s, a) && (a.Fetch? ==> Close(s.log, s.reader))
    ensures Inv(Next(s, a))
  {
    hide Exact, OnEntry, Held;
    match a
    case Publish(now, data, drop) =>
      PublishSound(s.log, now, data, drop);
      PublishKeepsExact(s.log.history, Entry(NextId(s.log.top, now), data), s.reader);
      PublishKeepsHeld(s.log.history, Entry(NextId(s.log.top, now), data), s.reader, s.batch);
    case Expire(_) =>
    case Fetch =>
      KeepsUp(s.log, s.reader);
      FetchIsNext(s.log, s.reader);
      FetchedIsHeld(s.log.history, s.reader, Min(At(s.log.history, s.reader) + BATCH, |s.log.history|));
    case EmitNext =>
      EmitKeepsHeld(s.log.history, s.reader, s.batch);
      HeldIsOwed(s.log.history, s.reader, s.batch);
      EmitKeepsExact(s.log.history, s.reader);
  }

  lemma FetchedIsHeld<E>(h: seq<Entry<E>>, r: Reader<E>, n: nat)
    requires At(h, r) <= n <= |h|
    ensures Held(h, r, h[At(h, r)..n])
  {}

  lemma HeldIsOwed<E>(h: seq<Entry<E>>, r: Reader<E>, batch: seq<Entry<E>>)
    requires Held(h, r, batch) && batch != []
    ensures At(h, r) < |h|
  {}

  /** Whatever is published, trimmed and expired in between: a reader that is never more than `MAXLEN` entries behind
      (nor behind an expiry) when it reads a batch has at any time, also between two frames of a batch, emitted exactly
      the log from its start to its cursor, in order and once each. */
  lemma {:induction false} CursorDelivery<E>(trace: seq<State<E>>, steps: seq<Step<E>>, i: nat)
    requires Run(trace, steps) && i < |trace|
    requires forall k :: 0 <= k < i && steps[k].Fetch? ==> Close(trace[k].log, trace[k].reader)
    ensures Inv(trace[i])
    ensures trace[i].reader.startId == trace[0].reader.startId && trace[i].reader.base == trace[0].log.dropped
  {
    if i > 0 {
      CursorDelivery(trace, steps, i - 1);
      StepInv(trace[i - 1], steps[i - 1]);
    }
  }

  /** A connection resumed at the last id of another, before trimming overtook that id, continues its frames: together
      they are one unbroken piece of the log. */
  lemma Resumes<E>(h: seq<Entry<E>>, r: Reader<E>, again: Reader<E>)
    requires Exact(h, r) && Exact(h, again)
    requires again.startId == r.lastId && r.base <= again.base <= At(h, r)
    ensures Exact(h, Reader(r.startId, r.base, again.lastId, r.frames + again.frames))
  {
    PosMonotone(h, r.lastId, again.lastId);
    Slices(h, From(h, r), At(h, r), At(h, again));
  }

  // ---------- catching up ----------

  /** Reads and frames alone lead from `s` to `t`. */
  ghost predicate ReadsOn<E>(s: State<E>, steps: seq<Step<E>>, t: State<E>)
    decreases |steps|
  {
    if steps == [] then s == t
    else (steps[0].Fetch? || steps[0].EmitNext?) && Enabled(s, steps[0]) && ReadsOn(Next(s, steps[0]), steps[1..], t)
  }

  lemma ReadsThen<E>(s: State<E>, a: Step<E>, steps: seq<Step<E>>, t: State<E>)
    requires (a.Fetch? || a.EmitNext?) && Enabled(s, a) && ReadsOn(Next(s, a), steps, t)
    ensures ReadsOn(s, [a] + steps, t)
  {
    assert ([a] + steps)[1..] == steps;
  }

  lemma FetchReady<E>(s: State<E>)
    requires Inv(s) && s.batch == [] && s.log.dropped <= At(s.log.history, s.reader) < |s.log.history|
    ensures Enabled(s, Fetch) && Inv(Next(s, Fetch)) && Next(s, Fetch).batch != []
  {
    var h, at := s.log.history, At(s.log.history, s.reader);
    FetchIsNext(s.log, s.reader);
    FetchedIsHeld(h, s.reader, Min(at + BATCH, |h|));
  }

  lemma EmitReady<E>(s: State<E>)
    requires Inv(s) && s.batch != []
    ensures Enabled(s, EmitNext) && Inv(Next(s, EmitNext))
    ensures At(s.log.history, Next(s, EmitNext).reader) == At(s.log.history, s.reader) + 1 <= |s.log.history|
  {
    StepInv(s, EmitNext);
    EmitKeepsHeld(s.log.history, s.reader, s.batch);
    EmitKeepsExact(s.log.history, s.reader);
  }

  /** A reader that trimming has not overtaken can always read on until it has emitted everything: whatever it was in
      the middle of, its frames are then the whole log from its start. */
  lemma {:induction false} CatchesUp<E>(s: State<E>) returns (steps: seq<Step<E>>, t: State<E>)
    requires Inv(s) && s.log.dropped <= At(s.log.history, s.reader)
    ensures ReadsOn(s, steps, t) && t.log == s.log
    ensures From(s.log.history, s.reader) <= |s.log.history|
    ensures t.reader.frames == s.log.history[From(s.log.history, s.reader)..]
    decreases |s.log.history| - At(s.log.history, s.reader), |s.batch| == 0
  {
    var h := s.log.history;
    if s.batch != [] {
      EmitReady(s);
      steps, t := CatchesUp(Next(s, EmitNext));
      ReadsThen(s, EmitNext, steps, t);
      steps := [EmitNext] + steps;
    } else if At(h, s.reader) < |h| {
      FetchReady(s);
      steps, t := CatchesUp(Next(s, Fetch));
      ReadsThen(s, Fetch, steps, t);
      steps := [Fetch] + steps;
    } else {
      steps, t := [], s;
    }
  }
}
