/** Long-term memory blocks under one character budget: proportional trimming, the transcript excerpt, user edits and
    consolidations. */
module MemoryBudget {
  import opened Numbers
  import opened Wrappers

  // ---------- lengths and texts of block lists ----------

  function Total(blocks: seq<string>): nat {
    if blocks == [] then 0 else Total(blocks[..|blocks| - 1]) + |blocks[|blocks| - 1]|
  }

  function Concat(blocks: seq<string>): (r: string)
    ensures |r| == Total(blocks)
  {
    if blocks == [] then "" else Concat(blocks[..|blocks| - 1]) + blocks[|blocks| - 1]
  }

  // ---------- trimming ----------

  /** `int(len * (budget / total))`. The floating-point product can fall just below an exact integer: `low` says that
      it did. */
  function Share(len: nat, budget: nat, total: nat, low: bool): nat
    requires total > 0
  {
    var q := len * budget / total;
    if low && q > 0 && q * total == len * budget then q - 1 else q
  }

  /** How much of block `i` is kept when `used` characters are kept already; rounding slack goes to the last block. */
  function Allowed(mem: seq<string>, budget: nat, low: seq<bool>, used: nat, i: nat): nat
    requires i < |mem| == |low| && Total(mem) > budget
  {
    if i < |mem| - 1 then Share(|mem[i]|, budget, Total(mem), low[i])
    else if used <= budget then budget - used
    else 0
  }

  /** The first `n` blocks after trimming. */
  function Cut(mem: seq<string>, budget: nat, low: seq<bool>, n: nat): seq<string>
    requires n <= |mem| == |low| && Total(mem) > budget
  {
    if n == 0 then [] else
      var front := Cut(mem, budget, low, n - 1);
      var b := mem[n - 1];
      front + [b[..Min(|b|, Allowed(mem, budget, low, Total(front), n - 1))]]
  }

  function Trimmed(mem: seq<string>, budget: nat, low: seq<bool>): seq<string>
    requires |mem| == |low|
  {
    if Total(mem) <= budget then mem else Cut(mem, budget, low, |mem|)
  }

  method TrimMemoryToBudget(mem: seq<string>, budget: nat, low: seq<bool>) returns (out: seq<string>)
    requires |mem| == |low|
    ensures out == Trimmed(mem, budget, low)
  {
    if Total(mem) <= budget { return mem; }
    out := [];
    var used := 0;
    var i := 0;
    while i < |mem|
      invariant 0 <= i <= |mem| && out == Cut(mem, budget, low, i) && used == Total(out)
    {
      var allowed;
      if i == |mem| - 1 {
        allowed := budget - used;
      } else {
        allowed := Share(|mem[i]|, budget, Total(mem), low[i]);
      }
      if allowed < 0 { allowed := 0; }
      var kept := mem[i][..Min(|mem[i]|, allowed)];
      TotalPush(out, kept);
      out, used, i := out + [kept], used + |kept|, i + 1;
    }
  }

  lemma TotalPush(blocks: seq<string>, b: string)
    ensures Total(blocks + [b]) == Total(blocks) + |b|
  {
    assert (blocks + [b])[..|blocks|] == blocks;
  }

  lemma MulMonotone(a: int, b: int, c: nat)
    requires a <= b
    ensures a * c <= b * c
  {}

  lemma Distribute(a: int, b: int, c: int)
    ensures (a + b) * c == a * c + b * c
    ensures (a - b) * c == a * c - b * c
  {}

  lemma Quotient(n: nat, d: nat)
    requires d > 0
    ensures (n / d) * d <= n < (n / d) * d + d
  {}

  /** A share is the exact proportion rounded down, or one less. */
  lemma ShareBounds(len: nat, budget: nat, total: nat, low: bool)
    requires total > 0
    ensures Share(len, budget, total, low) * total <= len * budget
    ensures Share(len, budget, total, low) * total >= len * budget - (if low then total else total - 1)
  {
    var n := len * budget;
    Quotient(n, total);
    Distribute(n / total, 1, total);
  }

  lemma ShareFits(len: nat, budget: nat, total: nat, low: bool)
    requires 0 < total && budget <= total
    ensures Share(len, budget, total, low) <= len
  {
    ShareBounds(len, budget, total, low);
    MulMonotone(budget, total, len);
    var share := Share(len, budget, total, low);
    Distribute(len, 1, total);
    if share >= len + 1 { MulMonotone(len + 1, share, total); }
  }

  lemma {:induction false} CutShape(mem: seq<string>, budget: nat, low: seq<bool>, n: nat)
    requires n <= |mem| == |low| && Total(mem) > budget
    ensures var c := Cut(mem, budget, low, n); |c| == n && forall i :: 0 <= i < n ==> c[i] <= mem[i]
  {
    if n > 0 {
      var front, c := Cut(mem, budget, low, n - 1), Cut(mem, budget, low, n);
      CutShape(mem, budget, low, n - 1);
      assert c[..n - 1] == front && c[n - 1] <= mem[n - 1];
      forall i | 0 <= i < n ensures c[i] <= mem[i] {
        if i < n - 1 { assert c[i] == front[i]; }
      }
    }
  }

  /** What rounding may lose on `n` blocks, in units of 1/total of a character. */
  function Slack(low: seq<bool>, total: nat): int {
    if low == [] then 0 else Slack(low[..|low| - 1], total) + if low[|low| - 1] then total else total - 1
  }

  /** `used / len` is `budget / total`, short by `slack` units of 1/total of a character at most. */
  predicate Proportional(used: nat, len: nat, slack: int, budget: nat, total: nat) {
    len * budget - slack <= used * total <= len * budget
  }

  lemma {:induction false} CutProportional(mem: seq<string>, budget: nat, low: seq<bool>, n: nat)
    requires n < |mem| == |low| && Total(mem) > budget
    ensures Proportional(Total(Cut(mem, budget, low, n)), Total(mem[..n]), Slack(low[..n], Total(mem)),
                         budget, Total(mem))
  {
    if n > 0 {
      hide Cut, Total, Slack, Share, Proportional;
      CutProportional(mem, budget, low, n - 1);
      CutStep(mem, budget, low, n - 1);
      SlackStep(low, n - 1, Total(mem));
      var total := Total(mem);
      OneMoreShare(Total(Cut(mem, budget, low, n - 1)), Total(mem[..n - 1]), Slack(low[..n - 1], total),
                   |mem[n - 1]|, budget, total, low[n - 1],
                   Total(Cut(mem, budget, low, n)), Total(mem[..n]), Slack(low[..n], total));
    }
  }

  lemma SlackStep(low: seq<bool>, n: nat, total: nat)
    requires n < |low|
    ensures Slack(low[..n + 1], total) == Slack(low[..n], total) + if low[n] then total else total - 1
  {
    assert low[..n + 1][..n] == low[..n];
  }

  lemma CutStep(mem: seq<string>, budget: nat, low: seq<bool>, n: nat)
    requires n + 1 < |mem| == |low| && Total(mem) > budget
    ensures Total(Cut(mem, budget, low, n + 1)) ==
            Total(Cut(mem, budget, low, n)) + Share(|mem[n]|, budget, Total(mem), low[n])
    ensures Total(mem[..n + 1]) == Total(mem[..n]) + |mem[n]|
  {
    hide Total, Share;
    var share := Share(|mem[n]|, budget, Total(mem), low[n]);
    ShareFits(|mem[n]|, budget, Total(mem), low[n]);
    TotalPush(Cut(mem, budget, low, n), mem[n][..share]);
    TotalPush(mem[..n], mem[n]);
    assert Cut(mem, budget, low, n + 1) == Cut(mem, budget, low, n) + [mem[n][..share]];
    assert mem[..n + 1] == mem[..n] + [mem[n]];
  }

  lemma OneMoreShare(used: nat, len: nat, slack: int, more: nat, budget: nat, total: nat, low: bool,
                     used': nat, len': nat, slack': int)
    requires total > 0
    requires Proportional(used, len, slack, budget, total)
    requires used' == used + Share(more, budget, total, low) && len' == len + more
    requires slack' == slack + if low then total else total - 1
    ensures Proportional(used', len', slack', budget, total)
  {
    ShareBounds(more, budget, total, low);
    Distribute(used, Share(more, budget, total, low), total);
    Distribute(len, more, budget);
  }

  lemma SlackBound(low: seq<bool>, total: nat)
    ensures total > 0 ==> 0 <= Slack(low, total) <= |low| * total
    ensures (forall i :: 0 <= i < |low| ==> !low[i]) && total > 0 ==> Slack(low, total) == |low| * (total - 1)
  {
    if low != [] {
      SlackBound(low[..|low| - 1], total);
      assert |low| * total == (|low| - 1) * total + total;
      assert |low| * (total - 1) == (|low| - 1) * (total - 1) + (total - 1);
    }
  }

  /** Trimming: every block becomes a prefix of itself, a memory within budget is untouched, and otherwise the new
      total is the budget less at most one character per rounded product; with exact products the last block absorbs
      all but one character of that. */
  lemma TrimFits(mem: seq<string>, budget: nat, low: seq<bool>)
    requires |mem| == |low| == 3
    ensures var out := Trimmed(mem, budget, low);
        && |out| == 3
        && (forall i :: 0 <= i < 3 ==> out[i] <= mem[i])
        && Total(out) <= budget
        && (Total(mem) <= budget ==> out == mem)
        && (Total(mem) > budget ==> Total(out) >= budget - 2)
        && (Total(mem) > budget && !low[0] && !low[1] ==> Total(out) >= budget - 1)
  {
    hide Share, Slack;
    if Total(mem) > budget {
      var total, front, last := Total(mem), Cut(mem, budget, low, 2), |mem[2]|;
      CutShape(mem, budget, low, 3);
      CutProportional(mem, budget, low, 2);
      SlackBound(low[..2], total);
      assert mem[..2] + [mem[2]] == mem;
      TotalPush(mem[..2], mem[2]);
      TrimArithmetic(Total(front), last, budget, total, Slack(low[..2], total));
      TotalPush(front, mem[2][..Min(last, budget - Total(front))]);
    }
  }

  lemma TrimArithmetic(used: nat, last: nat, budget: nat, total: nat, slack: nat)
    requires last <= total && budget < total
    requires Proportional(used, total - last, slack, budget, total)
    requires slack <= 2 * total
    ensures used <= budget
    ensures used + last >= budget - 2
    ensures slack == 2 * (total - 1) ==> used + last >= budget - 1
  {
    Distribute(total, last, budget);
    Distribute(used, last, total);
    Distribute(budget, 1, total);
    Distribute(budget, 2, total);
    Distribute(budget, 3, total);
    MulMonotone(budget, total, last);
    MulMonotone(0, last, budget);
    if used >= budget + 1 { MulMonotone(budget + 1, used, total); }
    if used + last <= budget - 3 { MulMonotone(used + last, budget - 3, total); }
    if used + last <= budget - 2 { MulMonotone(used + last, budget - 2, total); }
  }

  // ---------- the transcript excerpt ----------

  /** A conversation's title and the lines kept of it. */
  datatype Convo = Convo(title: string, lines: seq<string>)

  function Lines(lines: seq<string>): string {
    if lines == [] then ""
    else if |lines| == 1 then lines[0]
    else Lines(lines[..|lines| - 1]) + "\n" + lines[|lines| - 1]
  }

  function Section(c: Convo): string {
    "## \U{4F1A}\U{8BDD}\U{300C}" + c.title + "\U{300D}\n" + Lines(c.lines)
  }

  /** Where line `k` begins. */
  function LineStart(lines: seq<string>, k: nat): nat
    requires k < |lines|
  {
    Total(lines[..k]) + k
  }

  lemma {:induction false} LinesLength(lines: seq<string>)
    requires lines != []
    ensures |Lines(lines)| == Total(lines) + |lines| - 1
  {
    if |lines| > 1 { LinesLength(lines[..|lines| - 1]); }
  }

  /** Each line stands in its place, after a line break unless it is the first. */
  lemma {:induction false} LineInPlace(lines: seq<string>, k: nat)
    requires k < |lines|
    ensures var at := LineStart(lines, k);
        && at + |lines[k]| <= |Lines(lines)| && Lines(lines)[at..at + |lines[k]|] == lines[k]
        && (k > 0 ==> at > 0 && Lines(lines)[at - 1] == '\n')
  {
    var n := |lines| - 1;
    LinesLength(lines);
    if k < n {
      LineInPlace(lines[..n], k);
      assert lines[..n][..k] == lines[..k];
      assert Lines(lines)[..|Lines(lines[..n])|] == Lines(lines[..n]);
    } else if n > 0 {
      LinesLength(lines[..n]);
    }
  }

  /** A section is the heading with its title, followed by its lines. */
  lemma SectionHeads(c: Convo)
    ensures var head := "## 会话「" + c.title + "」\n"; head <= Section(c) && Section(c)[|head|..] == Lines(c.lines)
  {}

  /** Every section in full, conversations without lines left out. */
  function Full(cs: seq<Convo>): seq<string> {
    if cs == [] then []
    else if cs[|cs| - 1].lines == [] then Full(cs[..|cs| - 1])
    else Full(cs[..|cs| - 1]) + [Section(cs[|cs| - 1])]
  }

  lemma ConcatPush(blocks: seq<string>, b: string)
    ensures Concat(blocks + [b]) == Concat(blocks) + b
  {
    assert (blocks + [b])[..|blocks|] == blocks;
  }

  lemma FullStep(cs: seq<Convo>, i: nat)
    requires i < |cs|
    ensures Full(cs[..i + 1]) == if cs[i].lines == [] then Full(cs[..i]) else Full(cs[..i]) + [Section(cs[i])]
  {
    assert cs[..i + 1][..i] == cs[..i];
  }

  lemma {:induction false} FullPrefix(cs: seq<Convo>, i: nat, n: nat)
    requires i <= n <= |cs|
    ensures Full(cs[..i]) <= Full(cs[..n])
    decreases n
  {
    if i < n {
      FullPrefix(cs, i, n - 1);
      FullStep(cs, n - 1);
    }
  }

  lemma {:induction false} ConcatPrefix(a: seq<string>, b: seq<string>)
    requires a <= b
    ensures Concat(a) <= Concat(b)
  {
    if |a| < |b| {
      ConcatPrefix(a, b[..|b| - 1]);
    } else {
      assert a == b;
    }
  }

  lemma CutText(before: string, section: string, full: string, budget: nat)
    requires before + section <= full && |before| <= budget <= |before| + |section|
    ensures before + section[..budget - |before|] == full[..budget]
  {
    assert full[..|before| + |section|] == before + section;
    assert full[..budget] == (before + section)[..budget];
  }

  /** Where the loop stops early: the sections before conversation `i` and a prefix of its own make up the budget. */
  lemma CutHere(cs: seq<Convo>, i: nat, budget: nat)
    requires i < |cs| && cs[i].lines != []
    requires Total(Full(cs[..i])) <= budget <= Total(Full(cs[..i])) + |Section(cs[i])|
    ensures IsExcerpt(Full(cs[..i]) + [Section(cs[i])[..budget - Total(Full(cs[..i]))]], cs, budget)
  {
    var before, section := Full(cs[..i]), Section(cs[i]);
    FullStep(cs, i);
    FullPrefix(cs, i + 1, |cs|);
    assert cs[..|cs|] == cs;
    ConcatPush(before, section);
    ConcatPush(before, section[..budget - Total(before)]);
    ConcatPrefix(before + [section], Full(cs));
    CutText(Concat(before), section, Concat(Full(cs)), budget);
  }

  /** The excerpt is exactly the first `budget` characters of all sections run together, or all of them. */
  ghost predicate IsExcerpt(sections: seq<string>, cs: seq<Convo>, budget: nat) {
    && Concat(sections) == Concat(Full(cs))[..Min(budget, Total(Full(cs)))]
    && (sections == [] <==> Full(cs) == [])
  }

  lemma WholeExcerpt(cs: seq<Convo>, budget: nat)
    requires Total(Full(cs)) < budget || Full(cs) == []
    ensures IsExcerpt(Full(cs), cs, budget)
  {
    assert Concat(Full(cs)) == Concat(Full(cs))[..Total(Full(cs))];
  }

  lemma FullNone(cs: seq<Convo>)
    ensures Full(cs[..0]) == []
  {}

  method Excerpt(convos: seq<Convo>, budget: nat) returns (sections: seq<string>)
    ensures IsExcerpt(sections, convos, budget)
  {
    hide Full, Section, Concat, IsExcerpt;
    sections := [];
    var used := 0;
    var i := 0;
    FullNone(convos);
    while i < |convos|
      invariant 0 <= i <= |convos|
      invariant sections == Full(convos[..i]) && used == Total(sections) && (used < budget || sections == [])
    {
      FullStep(convos, i);
      if convos[i].lines != [] {
        var section := Section(convos[i]);
        if used + |section| >= budget {
          CutHere(convos, i, budget);
          assert section[..|section|] == section;
        }
        if used + |section| > budget {
          section := section[..budget - used];
        }
        TotalPush(sections, section);
        sections, used := sections + [section], used + |section|;
        if used >= budget { return; }
      }
      i := i + 1;
    }
    assert convos[..i] == convos;
    WholeExcerpt(convos, budget);
  }

  // ---------- the stored blocks ----------

  /** The row: user profile, soul, notes; a block may be missing. */
  datatype Row = Row(profile: Option<string>, soul: Option<string>, notes: Option<string>)

  function OrEmpty(o: Option<string>): string {
    if o.None? then "" else o.value
  }

  function Texts(r: Option<Row>): seq<string> {
    if r.None? then ["", "", ""] else [OrEmpty(r.value.profile), OrEmpty(r.value.soul), OrEmpty(r.value.notes)]
  }

  /** `payload` where given, the stored block where not. */
  function Merged(current: seq<string>, payload: Row): seq<string>
    requires |current| == 3
  {
    [if payload.profile.Some? then payload.profile.value else current[0],
     if payload.soul.Some? then payload.soul.value else current[1],
     if payload.notes.Some? then payload.notes.value else current[2]]
  }

  function OrNone(s: string): Option<string> {
    if s == "" then None else Some(s)
  }

  /** `parsed[k] or old[k]`. */
  function Filled(parsed: seq<string>, old_: seq<string>): seq<string>
    requires |parsed| == |old_| == 3
  {
    seq(3, i requires 0 <= i < 3 => if parsed[i] != "" then parsed[i] else old_[i])
  }

  class MemoryStore {
    const budget: nat
    var row: Option<Row>

    constructor (budget: nat)
      ensures row == None && this.budget == budget
    {
      this.budget, row := budget, None;
    }

    method Upsert(payload: Row)
      modifies this
      ensures Texts(row) == Merged(Texts(old(row)), payload)
    {
      if row.None? {
        row := Some(payload);
      } else {
        var r := row.value;
        if payload.notes.Some? { r := r.(notes := OrNone(payload.notes.value)); }
        if payload.profile.Some? { r := r.(profile := OrNone(payload.profile.value)); }
        if payload.soul.Some? { r := r.(soul := OrNone(payload.soul.value)); }
        row := Some(r);
      }
    }

    /** A user edit. `seen` holds the blocks its check read. */
    method UpdateMemory(payload: Row, seen: seq<string>) returns (ok: bool)
      requires |seen| == 3
      modifies this
      ensures Texts(row) == After(Texts(old(row)), Edit(payload, seen), budget)
      ensures ok <==> Total(Merged(seen, payload)) <= budget
    {
      var effective := Merged(seen, payload);
      ok := Total(effective) <= budget;
      if ok { Upsert(payload); }
    }

    /** A consolidation that read the blocks `seen` at its start; `parsed` is what the agent's answer parsed to, if it
        did. */
    method Consolidate(parsed: Option<seq<string>>, seen: seq<string>, low: seq<bool>)
      requires |seen| == 3 && |low| == 3 && (parsed.Some? ==> |parsed.value| == 3)
      modifies this
      ensures Texts(row) == After(Texts(old(row)), Dream(parsed, seen, low), budget)
    {
      if parsed.None? { return; }
      var filled := Filled(parsed.value, seen);
      var out := TrimMemoryToBudget(filled, budget, low);
      TrimFits(filled, budget, low);
      Upsert(Row(Some(out[0]), Some(out[1]), Some(out[2])));
    }
  }

  // ---------- runs ----------

  datatype Op =
    | Edit(payload: Row, seen: seq<string>)
    | Dream(parsed: Option<seq<string>>, seen: seq<string>, low: seq<bool>)

  predicate WellFormed(op: Op) {
    |op.seen| == 3 && (op.Dream? ==> |op.low| == 3 && (op.parsed.Some? ==> |op.parsed.value| == 3))
  }

  function After(blocks: seq<string>, op: Op, budget: nat): (r: seq<string>)
    requires |blocks| == 3 && WellFormed(op)
    ensures |r| == 3
  {
    match op
    case Edit(payload, seen) => if Total(Merged(seen, payload)) <= budget then Merged(blocks, payload) else blocks
    case Dream(parsed, seen, low) =>
      if parsed.None? then blocks
      else
        TrimFits(Filled(parsed.value, seen), budget, low);
        Trimmed(Filled(parsed.value, seen), budget, low)
  }

  function Run(ops: seq<Op>, budget: nat): (r: seq<string>)
    requires forall i :: 0 <= i < |ops| ==> WellFormed(ops[i])
    ensures |r| == 3
  {
    if ops == [] then ["", "", ""] else After(Run(ops[..|ops| - 1], budget), ops[|ops| - 1], budget)
  }

  /** No write lands between an edit's check and its own write. Consolidations may have read blocks of any age. */
  ghost predicate ChecksAreCurrent(ops: seq<Op>, budget: nat)
    requires forall i :: 0 <= i < |ops| ==> WellFormed(ops[i])
  {
    forall i :: 0 <= i < |ops| && ops[i].Edit? ==> ops[i].seen == Run(ops[..i], budget)
  }

  /** The stored blocks stay within the budget over every run of edits and consolidations. */
  lemma {:induction false} BudgetKept(ops: seq<Op>, budget: nat)
    requires forall i :: 0 <= i < |ops| ==> WellFormed(ops[i])
    requires ChecksAreCurrent(ops, budget)
    ensures Total(Run(ops, budget)) <= budget
  {
    if ops == [] {
      ThreeBlocks("", "", "");
    } else {
      var front, op := ops[..|ops| - 1], ops[|ops| - 1];
      assert forall i :: 0 <= i < |front| ==> front[..i] == ops[..i] && front[i] == ops[i];
      BudgetKept(front, budget);
      assert op.Edit? ==> op.seen == Run(front, budget);
      if op.Dream? && op.parsed.Some? { TrimFits(Filled(op.parsed.value, op.seen), budget, op.low); }
    }
  }

  /** A consolidation within budget stores the answer's blocks, and where the answer is silent the block it read at
      its start. */
  lemma DreamFills(blocks: seq<string>, parsed: seq<string>, seen: seq<string>, low: seq<bool>, budget: nat, k: nat)
    requires |blocks| == |parsed| == |seen| == |low| == 3 && k < 3
    ensures var r := After(blocks, Dream(Some(parsed), seen, low), budget);
        var full := if parsed[k] != "" then parsed[k] else seen[k];
        r[k] <= full && (Total(Filled(parsed, seen)) <= budget ==> r[k] == full)
  {
    TrimFits(Filled(parsed, seen), budget, low);
  }

  /** The characters of the blocks an edit leaves alone. */
  function Untouched(blocks: seq<string>, payload: Row): nat
    requires |blocks| == 3
  {
    (if payload.profile.Some? then 0 else |blocks[0]|) + (if payload.soul.Some? then 0 else |blocks[1]|)
    + if payload.notes.Some? then 0 else |blocks[2]|
  }

  /** An edit that passed its check on the blocks `seen` keeps the budget, whatever was written since, exactly if the
      blocks it leaves alone have not outgrown the room the check found. */
  lemma StaleEditExact(blocks: seq<string>, payload: Row, seen: seq<string>, budget: nat)
    requires |blocks| == |seen| == 3 && Total(Merged(seen, payload)) <= budget
    ensures Total(After(blocks, Edit(payload, seen), budget)) <= budget <==>
            Untouched(blocks, payload) - Untouched(seen, payload) <= budget - Total(Merged(seen, payload))
  {
    var a, b := Merged(seen, payload), Merged(blocks, payload);
    ThreeBlocks(a[0], a[1], a[2]);
    ThreeBlocks(b[0], b[1], b[2]);
  }

  /** One write between the check and the write of an edit is enough to exceed it. */
  lemma StaleCheckOverflows()
    ensures var none := ["", "", ""];
        var ops := [Edit(Row(Some("ab"), None, None), none), Edit(Row(None, Some("cd"), None), none)];
        Total(Run(ops, 3)) == 4
  {
    var a, b := Edit(Row(Some("ab"), None, None), ["", "", ""]), Edit(Row(None, Some("cd"), None), ["", "", ""]);
    assert [a, b][..1] == [a] && [a][..0] == [];
    assert Merged(["", "", ""], a.payload) == ["ab", "", ""];
    assert Merged(["", "", ""], b.payload) == ["", "cd", ""];
    assert Merged(["ab", "", ""], b.payload) == ["ab", "cd", ""];
    ThreeBlocks("ab", "", "");
    ThreeBlocks("", "cd", "");
    ThreeBlocks("ab", "cd", "");
    assert Run([a], 3) == ["ab", "", ""];
  }

  lemma ThreeBlocks(a: string, b: string, c: string)
    ensures Total([a, b, c]) == |a| + |b| + |c|
  {
    TotalPush([], a);
    TotalPush([a], b);
    TotalPush([a, b], c);
    assert [] + [a] == [a] && [a] + [b] == [a, b] && [a, b] + [c] == [a, b, c];
  }
}
