/** White space as the source's `strip` sees it. */
module Text {

  predicate IsSpace(c: char) {
    var n := c as int;
    || 0x09 <= n <= 0x0D || 0x1C <= n <= 0x20 || n == 0x85 || n == 0xA0 || n == 0x1680
    || 0x2000 <= n <= 0x200A || n == 0x2028 || n == 0x2029 || n == 0x202F || n == 0x205F || n == 0x3000
  }

  /** Empty or nothing but white space. */
  predicate IsBlank(s: string) {
    forall i :: 0 <= i < |s| ==> IsSpace(s[i])
  }

  function TrimLeft(s: string): (r: string)
    ensures |r| <= |s| && (r == "" || !IsSpace(r[0]))
  {
    if s != "" && IsSpace(s[0]) then TrimLeft(s[1..]) else s
  }

  function TrimRight(s: string): (r: string)
    ensures r <= s && (r == "" || !IsSpace(r[|r| - 1]))
  {
    if s != "" && IsSpace(s[|s| - 1]) then TrimRight(s[..|s| - 1]) else s
  }

  function Strip(s: string): (r: string)
    ensures |r| <= |s| && (r == "" || (!IsSpace(r[0]) && !IsSpace(r[|r| - 1])))
  {
    TrimRight(TrimLeft(s))
  }

  lemma {:induction false} TrimLeftIsSuffix(s: string)
    ensures TrimLeft(s) == s[|s| - |TrimLeft(s)|..]
  {
    if s != "" && IsSpace(s[0]) { TrimLeftIsSuffix(s[1..]); }
  }

  /** Stripping keeps a piece of the text. */
  lemma StripIsPiece(s: string)
    ensures forall c :: c in Strip(s) ==> c in s
  {
    TrimLeftIsSuffix(s);
  }

  lemma {:induction false} TrimLeftBlank(l: string, s: string)
    requires IsBlank(l)
    ensures TrimLeft(l + s) == TrimLeft(s)
  {
    if l != "" {
      assert (l + s)[1..] == l[1..] + s;
      TrimLeftBlank(l[1..], s);
    } else {
      assert l + s == s;
    }
  }

  lemma {:induction false} TrimRightBlank(s: string, r: string)
    requires IsBlank(r)
    ensures TrimRight(s + r) == TrimRight(s)
  {
    if r != "" {
      assert (s + r)[..|s + r| - 1] == s + r[..|r| - 1];
      TrimRightBlank(s, r[..|r| - 1]);
    } else {
      assert s + r == s;
    }
  }

  lemma {:induction false} TrimLeftPrefix(s: string, r: string)
    requires TrimLeft(s) != ""
    ensures TrimLeft(s + r) == TrimLeft(s) + r
  {
    if IsSpace(s[0]) {
      assert (s + r)[1..] == s[1..] + r;
      TrimLeftPrefix(s[1..], r);
    }
  }

  lemma {:induction false} TrimLeftAll(s: string)
    ensures TrimLeft(s) == "" <==> IsBlank(s)
  {
    if s != "" && IsSpace(s[0]) {
      TrimLeftAll(s[1..]);
      assert s == [s[0]] + s[1..];
    }
  }

  /** White space around a text makes no difference to its stripped form. */
  lemma StripAround(l: string, s: string, r: string)
    requires IsBlank(l) && IsBlank(r)
    ensures Strip(l + s + r) == Strip(s)
  {
    assert l + s + r == l + (s + r);
    TrimLeftBlank(l, s + r);
    TrimLeftAll(s);
    if IsBlank(s) {
      assert IsBlank(s + r);
      TrimLeftAll(s + r);
    } else {
      TrimLeftPrefix(s, r);
      TrimRightBlank(TrimLeft(s), r);
    }
  }

  lemma StripUnchanged(s: string)
    ensures Strip(s) == s <==> s == "" || (!IsSpace(s[0]) && !IsSpace(s[|s| - 1]))
    ensures |Strip(s)| == |s| ==> Strip(s) == s
  {}
}
