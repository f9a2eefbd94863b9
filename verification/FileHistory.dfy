/** Version history of a workspace file (the `db` storage backend): agent saves, user edits and restores,
    pruned to the newest versions. */
module FileHistory {
  import opened Numbers
  import opened Wrappers
  import opened Text

  const KEEP := 9  // rows that survive a prune; the one being added is not flushed yet

  /** A row of the version table. */
  datatype Version = Version(num: nat, content: string)

  /** The file row and its version rows, in insertion order. */
  datatype File = File(content: string, version: nat, rows: seq<Version>)

  datatype Op = Save(content: string) | Edit(content: string) | Restore(num: nat)

  // ---------- the code ----------

  function Larger(rows: seq<Version>, num: nat): nat {
    if rows == [] then 0 else Larger(rows[..|rows| - 1], num) + if rows[|rows| - 1].num > num then 1 else 0
  }

  /** Delete what `ORDER BY version_num DESC OFFSET 9` selects. */
  function PruneUpTo(rows: seq<Version>, n: nat): seq<Version>
    requires n <= |rows|
  {
    if n == 0 then []
    else PruneUpTo(rows, n - 1) + if Larger(rows, rows[n - 1].num) < KEEP then [rows[n - 1]] else []
  }

  function Prune(rows: seq<Version>): seq<Version> {
    PruneUpTo(rows, |rows|)
  }

  function Lookup(rows: seq<Version>, num: nat): Option<Version> {
    if rows == [] then None
    else if rows[|rows| - 1].num == num then Some(rows[|rows| - 1])
    else Lookup(rows[..|rows| - 1], num)
  }

  /** `save_file` for a new name. */
  function Create(content: string): File {
    File(if IsBlank(content) then "" else content, 1, [])
  }

  /** `save_file` for an existing name: blank data is ignored; pruning happens only when a version is added. */
  function SaveTo(f: File, content: string): File {
    if IsBlank(content) then f
    else File(content, f.version + 1,
              if f.content != "" then Prune(f.rows) + [Version(f.version, f.content)] else f.rows)
  }

  /** `update_file_content`: always prunes. */
  function EditTo(f: File, content: string): File {
    File(content, f.version + 1,
         Prune(f.rows) + if f.content != "" then [Version(f.version, f.content)] else [])
  }

  /** `restore_file_version`. */
  function RestoreTo(f: File, num: nat): File {
    match Lookup(f.rows, num)
    case None => f
    case Some(v) => EditTo(f, v.content)
  }

  function Apply(f: File, op: Op): File {
    match op
    case Save(c) => SaveTo(f, c)
    case Edit(c) => EditTo(f, c)
    case Restore(n) => RestoreTo(f, n)
  }

  class WorkspaceFile {
    var content: string
    var currentVersion: nat
    var rows: seq<Version>

    ghost function View(): File
      reads this
    {
      File(content, currentVersion, rows)
    }

    constructor (data: string)
      ensures View() == Create(data)
    {
      content, currentVersion, rows := if IsBlank(data) then "" else data, 1, [];
    }

    /** Delete the selected rows one by one. */
    method DeleteOld(selection: seq<Version>) returns (kept: seq<Version>)
      ensures kept == Prune(selection)
    {
      kept := [];
      var i := 0;
      while i < |selection|
        invariant 0 <= i <= |selection| && kept == PruneUpTo(selection, i)
      {
        if Larger(selection, selection[i].num) < KEEP { kept := kept + [selection[i]]; }
        i := i + 1;
      }
    }

    method SaveFile(data: string)
      modifies this
      ensures View() == SaveTo(old(View()), data)
    {
      if IsBlank(data) { return; }
      if content != "" {
        var ver := Version(currentVersion, content);
        var kept := DeleteOld(rows);
        rows := kept + [ver];
      }
      content, currentVersion := data, currentVersion + 1;
    }

    method UpdateContent(data: string)
      modifies this
      ensures View() == EditTo(old(View()), data)
    {
      var kept := DeleteOld(rows);
      rows := kept + if content != "" then [Version(currentVersion, content)] else [];
      content, currentVersion := data, currentVersion + 1;
    }

    method RestoreVersion(num: nat)
      modifies this
      ensures View() == RestoreTo(old(View()), num)
    {
      var ver := Lookup(rows, num);
      if ver.Some? { UpdateContent(ver.value.content); }
    }
  }

  // ---------- the simple specification ----------

  /** The whole past: `full[i]` was the content at version `i + 1`; the newest `k` non-empty past contents are
      retained. */
  datatype History = History(full: seq<string>, k: nat)

  /** The non-empty past contents, each under the version number it had when current. */
  function Past(full: seq<string>): seq<Version> {
    if |full| <= 1 then []
    else
      var n := |full| - 1;
      Past(full[..n]) + if full[n - 1] != "" then [Version(n, full[n - 1])] else []
  }

  function Newest(vs: seq<Version>, k: nat): seq<Version> {
    if k <= |vs| then vs[|vs| - k..] else vs
  }

  /** The file a history stands for. */
  function Abstracts(h: History): File
    requires h.full != []
  {
    File(h.full[|h.full| - 1], |h.full|, Newest(Past(h.full), h.k))
  }

  ghost predicate Valid(h: History) {
    h.full != [] && Min(|Past(h.full)|, 9) <= h.k <= Min(|Past(h.full)|, 10)
  }

  function Write(h: History, content: string, pruneAlways: bool): History
    requires h.full != []
  {
    History(h.full + [content],
            if h.full[|h.full| - 1] != "" then Min(h.k, KEEP) + 1
            else if pruneAlways then Min(h.k, KEEP) else h.k)
  }

  /** Appending to the full past; a restore appends the old content of a retained version again. */
  function Spec(h: History, op: Op): History
    requires h.full != []
  {
    match op
    case Save(c) => if IsBlank(c) then h else Write(h, c, false)
    case Edit(c) => Write(h, c, true)
    case Restore(n) =>
      if 1 <= n < |h.full| && Version(n, h.full[n - 1]) in Newest(Past(h.full), h.k)
      then Write(h, h.full[n - 1], true) else h
  }

  // ---------- lemmas ----------

  ghost predicate Ascending(rows: seq<Version>) {
    forall i, j :: 0 <= i < j < |rows| ==> rows[i].num < rows[j].num
  }

  lemma {:induction false} LargerCounts(rows: seq<Version>, i: nat)
    requires Ascending(rows) && i < |rows|
    ensures Larger(rows, rows[i].num) == |rows| - 1 - i
  {
    var front := rows[..|rows| - 1];
    if i < |rows| - 1 {
      LargerCounts(front, i);
    } else {
      LargerNone(front, rows[i].num);
    }
  }

  lemma {:induction false} LargerNone(rows: seq<Version>, num: nat)
    requires forall i :: 0 <= i < |rows| ==> rows[i].num < num
    ensures Larger(rows, num) == 0
  {
    if rows != [] { LargerNone(rows[..|rows| - 1], num); }
  }

  lemma {:induction false} PruneKeeps(rows: seq<Version>, n: nat)
    requires Ascending(rows) && n <= |rows|
    ensures PruneUpTo(rows, n) ==
            if n + KEEP <= |rows| then [] else if |rows| <= KEEP then rows[..n] else rows[|rows| - KEEP..n]
  {
    if n > 0 {
      hide Larger, Ascending;
      PruneKeeps(rows, n - 1);
      LargerCounts(rows, n - 1);
    }
  }

  /** A non-empty content under the number it had. */
  predicate IsPast(full: seq<string>, v: Version) {
    1 <= v.num < |full| && v.content == full[v.num - 1] && v.content != ""
  }

  lemma {:induction false} PastShape(full: seq<string>)
    ensures Ascending(Past(full))
    ensures forall v :: v in Past(full) <==> IsPast(full, v)
  {
    if |full| > 1 {
      var n := |full| - 1;
      var front := Past(full[..n]);
      PastShape(full[..n]);
      forall i | 0 <= i < |front| ensures front[i].num < n {
        assert front[i] in front;
      }
      forall v ensures v in Past(full) <==> IsPast(full, v) {
        assert v in Past(full) <==> v in front || (full[n - 1] != "" && v == Version(n, full[n - 1]));
      }
    }
  }

  lemma PastAscending(full: seq<string>)
    ensures Ascending(Past(full))
  {
    PastShape(full);
  }

  lemma PastWrite(full: seq<string>, c: string)
    requires full != []
    ensures Past(full + [c]) ==
            Past(full) + if full[|full| - 1] != "" then [Version(|full|, full[|full| - 1])] else []
  {
    assert (full + [c])[..|full|] == full;
  }

  /** On the newest `k` versions, pruning leaves the newest `min(k, KEEP)`. */
  lemma PruneNewest(vs: seq<Version>, k: nat)
    requires Ascending(vs) && k <= |vs|
    ensures Prune(Newest(vs, k)) == Newest(vs, Min(k, KEEP))
  {
    hide Larger, PruneUpTo;
    PruneKeeps(Newest(vs, k), k);
  }

  lemma PruneThenAdd(vs: seq<Version>, k: nat, v: Version)
    requires Ascending(vs) && k <= |vs|
    ensures Prune(Newest(vs, k)) + [v] == Newest(vs + [v], Min(k, KEEP) + 1)
  {
    PruneNewest(vs, k);
    assert vs[|vs| - Min(k, KEEP)..] + [v] == (vs + [v])[|vs| - Min(k, KEEP)..];
  }

  lemma WriteValid(h: History, c: string, pruneAlways: bool)
    requires Valid(h)
    ensures Valid(Write(h, c, pruneAlways))
  {
    PastWrite(h.full, c);
  }

  /** A write over a non-empty content. */
  lemma PushRefines(h: History, c: string, pruneAlways: bool)
    requires Valid(h) && Abstracts(h).content != ""
    ensures Abstracts(Write(h, c, pruneAlways)) == EditTo(Abstracts(h), c)
  {
    hide Past, Newest, Prune, Ascending;
    PastAscending(h.full);
    PastWrite(h.full, c);
    PruneThenAdd(Past(h.full), h.k, Version(|h.full|, h.full[|h.full| - 1]));
  }

  /** A write over an empty content. */
  lemma ReplaceRefines(h: History, c: string, pruneAlways: bool)
    requires Valid(h) && Abstracts(h).content == ""
    ensures Abstracts(Write(h, c, pruneAlways)).rows ==
            if pruneAlways then Prune(Abstracts(h).rows) else Abstracts(h).rows
  {
    hide Past, Newest, Prune, Ascending;
    PastAscending(h.full);
    PastWrite(h.full, c);
    PruneNewest(Past(h.full), h.k);
    assert Past(h.full) + [] == Past(h.full);
  }

  lemma WriteRefines(h: History, c: string, pruneAlways: bool)
    requires Valid(h)
    ensures Valid(Write(h, c, pruneAlways))
    ensures Abstracts(h).content != "" || pruneAlways ==> Abstracts(Write(h, c, pruneAlways)) == EditTo(Abstracts(h), c)
    ensures Abstracts(h).content == "" && !pruneAlways ==>
        Abstracts(Write(h, c, pruneAlways)) == File(c, |h.full| + 1, Abstracts(h).rows)
  {
    WriteValid(h, c, pruneAlways);
    if Abstracts(h).content != "" { PushRefines(h, c, pruneAlways); } else { ReplaceRefines(h, c, pruneAlways); }
  }

  lemma {:induction false} LookupExact(rows: seq<Version>, num: nat)
    ensures Lookup(rows, num).None? <==> forall i :: 0 <= i < |rows| ==> rows[i].num != num
    ensures Lookup(rows, num).Some? ==> Lookup(rows, num).value in rows && Lookup(rows, num).value.num == num
  {
    if rows != [] && rows[|rows| - 1].num != num { LookupExact(rows[..|rows| - 1], num); }
  }

  /** Retained versions are past versions: the number determines the content. */
  lemma RetainedArePast(h: History, num: nat)
    requires Valid(h)
    ensures var r := Lookup(Newest(Past(h.full), h.k), num);
        if 1 <= num < |h.full| && Version(num, h.full[num - 1]) in Newest(Past(h.full), h.k)
        then r == Some(Version(num, h.full[num - 1])) else r == None
  {
    var rows := Newest(Past(h.full), h.k);
    PastShape(h.full);
    LookupExact(rows, num);
    assert forall v :: v in rows ==> v in Past(h.full);
  }

  lemma RestoreRefines(h: History, n: nat)
    requires Valid(h)
    ensures Valid(Spec(h, Restore(n))) && RestoreTo(Abstracts(h), n) == Abstracts(Spec(h, Restore(n)))
  {
    hide Past, Newest, Prune, Write, Lookup;
    RetainedArePast(h, n);
    if Lookup(Abstracts(h).rows, n).Some? { WriteRefines(h, h.full[n - 1], true); }
  }

  /** One operation of the code is one operation of the specification. */
  lemma StepRefines(h: History, op: Op)
    requires Valid(h)
    ensures Valid(Spec(h, op)) && Apply(Abstracts(h), op) == Abstracts(Spec(h, op))
  {
    match op
    case Save(c) => WriteRefines(h, c, false);
    case Edit(c) => WriteRefines(h, c, true);
    case Restore(n) => RestoreRefines(h, n);
  }

  function Run(f: File, ops: seq<Op>): File {
    if ops == [] then f else Apply(Run(f, ops[..|ops| - 1]), ops[|ops| - 1])
  }

  function SpecRun(h: History, ops: seq<Op>): (r: History)
    requires h.full != []
    ensures r.full != []
  {
    if ops == [] then h else Spec(SpecRun(h, ops[..|ops| - 1]), ops[|ops| - 1])
  }

  /** Runs refine runs, from any state. */
  lemma {:induction false} RunRefines(h: History, ops: seq<Op>)
    requires Valid(h)
    ensures Valid(SpecRun(h, ops)) && Run(Abstracts(h), ops) == Abstracts(SpecRun(h, ops))
  {
    if ops != [] {
      RunRefines(h, ops[..|ops| - 1]);
      StepRefines(SpecRun(h, ops[..|ops| - 1]), ops[|ops| - 1]);
    }
  }

  lemma RetainedShape(h: History)
    requires Valid(h)
    ensures Ascending(Abstracts(h).rows)
    ensures forall v :: v in Abstracts(h).rows ==> v.num < Abstracts(h).version && v.content != ""
  {
    PastShape(h.full);
    assert forall v :: v in Newest(Past(h.full), h.k) ==> v in Past(h.full);
  }

  /** The file shows exactly what the history retains: the newest `k` non-empty past contents, each under its own
      number, the numbers distinct and below the current one, and `k` between min(total, 9) and min(total, 10). */
  ghost predicate Shows(f: File, h: History) {
    && Valid(h) && f == Abstracts(h)
    && Ascending(f.rows) && forall v :: v in f.rows ==> v.num < f.version && v.content != ""
  }

  /** After any sequence of saves, edits and restores a file created from `c` shows the unbounded history of the same
      operations, which starts with `c` itself, or with nothing if `c` is blank. */
  lemma BoundedRefinesFull(c: string, ops: seq<Op>)
    ensures Shows(Run(Create(c), ops), SpecRun(History([if IsBlank(c) then "" else c], 0), ops))
  {
    var h := History([if IsBlank(c) then "" else c], 0);
    RunRefines(h, ops);
    RetainedShape(SpecRun(h, ops));
  }

  /** A new file holds its data, and the first write over it keeps that under number 1. */
  lemma FirstContentRestores(c: string, d: string)
    requires !IsBlank(c)
    ensures Create(c).content == c
    ensures RestoreTo(EditTo(Create(c), d), 1).content == c
    ensures !IsBlank(d) ==> RestoreTo(SaveTo(Create(c), d), 1).content == c
  {
    var rows := [Version(1, c)];
    assert Prune([]) == [] && [] + rows == rows;
    assert Lookup(rows, 1) == Some(Version(1, c));
  }

  /** Blank data never replaces a content: a save either changes nothing or stores non-blank data, and then what it
      replaced, unless empty, is one restore away. */
  lemma SaveLosesNothing(h: History, c: string)
    requires Valid(h)
    ensures var f, g := Abstracts(h), SaveTo(Abstracts(h), c);
        g == f || (!IsBlank(g.content) && (f.content != "" ==> RestoreTo(g, f.version).content == f.content))
  {
    var f, g := Abstracts(h), SaveTo(Abstracts(h), c);
    if !IsBlank(c) && f.content != "" { assert g.rows[|g.rows| - 1] == Version(f.version, f.content); }
  }

  /** Empty, or something to read. */
  predicate NeverBlank(f: File) {
    && (f.content == "" || !IsBlank(f.content))
    && forall i :: 0 <= i < |f.rows| ==> !IsBlank(f.rows[i].content)
  }

  lemma {:induction false} PruneSelects(rows: seq<Version>, n: nat)
    requires n <= |rows|
    ensures forall i :: 0 <= i < |PruneUpTo(rows, n)| ==> PruneUpTo(rows, n)[i] in rows
  {
    if n > 0 { PruneSelects(rows, n - 1); }
  }

  /** Without user edits no white-space content is ever stored or retained, from creation on. */
  lemma {:induction false} AgentsNeverStoreBlank(c: string, ops: seq<Op>)
    requires forall i :: 0 <= i < |ops| ==> !ops[i].Edit?
    ensures NeverBlank(Run(Create(c), ops))
  {
    if ops != [] {
      var f, op := Run(Create(c), ops[..|ops| - 1]), ops[|ops| - 1];
      AgentsNeverStoreBlank(c, ops[..|ops| - 1]);
      assert op == ops[|ops| - 1] && !op.Edit?;
      PruneSelects(f.rows, |f.rows|);
      if op.Restore? { LookupExact(f.rows, op.num); }
    }
  }

  /** The nine newest non-empty past contents can be restored by their numbers, whatever the operations so far. */
  lemma RecentVersionsRestore(h: History, i: nat)
    requires Valid(h)
    requires |Past(h.full)| - 9 <= i < |Past(h.full)|
    ensures RestoreTo(Abstracts(h), Past(h.full)[i].num).content == Past(h.full)[i].content
  {
    var vs, rows := Past(h.full), Abstracts(h).rows;
    PastShape(h.full);
    assert rows[i - (|vs| - |rows|)] == vs[i];
    assert vs[i] in vs;
    RetainedArePast(h, vs[i].num);
  }

  /** Restoring any retained version and then the version it replaced brings the content back, two versions later,
      even if the first restore pruned the oldest row; neither lookup is ambiguous. */
  lemma RestoreIsUndoable(h: History, num: nat)
    requires Valid(h)
    requires Abstracts(h).content != "" && Lookup(Abstracts(h).rows, num).Some?
    ensures var f := Abstracts(h);
        var g := RestoreTo(f, num);
        var back := RestoreTo(g, f.version);
        && Ascending(f.rows) && Ascending(g.rows)
        && g.content == Lookup(f.rows, num).value.content && g.version == f.version + 1
        && back.content == f.content && back.version == f.version + 2
  {
    var f := Abstracts(h);
    var g := RestoreTo(f, num);
    assert g.rows[|g.rows| - 1] == Version(f.version, f.content);
    StepRefines(h, Restore(num));
    PastAscending(h.full);
    PastAscending(Spec(h, Restore(num)).full);
  }
}
