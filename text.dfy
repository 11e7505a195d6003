/**
 * String operations of JavaScript that the extension relies on:
 * `startsWith`, `trim`, and `replace(/\{language\}/g, value)`.
 */
module Text {

  predicate StartsWith(s: string, prefix: string) {
    |prefix| <= |s| && s[..|prefix|] == prefix
  }

  /** The WhiteSpace and LineTerminator characters outside the range U+2000..U+200A. */
  const WhitespaceChars: set<char> :=
    {' ', '\t', '\n', '\r', '\U{B}', '\U{C}', '\U{A0}', '\U{1680}',
     '\U{2028}', '\U{2029}', '\U{202F}', '\U{205F}', '\U{3000}', '\U{FEFF}'}

  /** The characters `String.prototype.trim` removes: WhiteSpace and LineTerminator. */
  predicate IsWhitespace(c: char) {
    c in WhitespaceChars || '\U{2000}' <= c <= '\U{200A}'
  }

  predicate AllWhitespace(s: string) {
    forall k :: 0 <= k < |s| ==> IsWhitespace(s[k])
  }

  /** The number of whitespace characters `s` begins with. */
  function LeadingWhitespace(s: string): (n: nat)
    ensures n <= |s| && AllWhitespace(s[..n])
    ensures n == |s| || !IsWhitespace(s[n])
  {
    if s != "" && IsWhitespace(s[0]) then
      var m := LeadingWhitespace(s[1..]);
      assert AllWhitespace(s[..m + 1]) by {
        forall k | 1 <= k < m + 1
          ensures IsWhitespace(s[k])
        {
          assert s[k] == s[1..][..m][k - 1];
        }
      }
      m + 1
    else 0
  }

  /** `trimStart`: the longest suffix of `s` that does not begin with whitespace. */
  function TrimStart(s: string): (r: string)
    ensures |r| <= |s| && r == s[|s| - |r|..]
    ensures AllWhitespace(s[..|s| - |r|])
    ensures r == "" || !IsWhitespace(r[0])
  {
    s[LeadingWhitespace(s)..]
  }

  /** `trimEnd`: the longest prefix of `s` that does not end with whitespace. */
  function TrimEnd(s: string): (r: string)
    ensures |r| <= |s| && r == s[..|r|]
    ensures AllWhitespace(s[|r|..])
    ensures r == "" || !IsWhitespace(r[|r| - 1])
  {
    if s != "" && IsWhitespace(s[|s| - 1]) then
      var r := TrimEnd(s[..|s| - 1]);
      assert r == s[..|r|] by { assert s[..|s| - 1][..|r|] == s[..|r|]; }
      assert AllWhitespace(s[|r|..]) by {
        forall k | 0 <= k < |s| - 1 - |r|
          ensures IsWhitespace(s[|r|..][k])
        {
          assert s[|r|..][k] == s[..|s| - 1][|r|..][k];
        }
      }
      r
    else s
  }

  /**
   * `String.prototype.trim`: the input with its leading and its trailing
   * white space removed, and nothing in between changed.
   */
  function Trim(s: string): (r: string)
    ensures |r| <= |s|
    ensures r == "" || (!IsWhitespace(r[0]) && !IsWhitespace(r[|r| - 1]))
    ensures var a := |s| - |TrimStart(s)|;
      a + |r| <= |s| && r == s[a..a + |r|] && AllWhitespace(s[..a]) && AllWhitespace(s[a + |r|..])
  {
    var t := TrimStart(s);
    var r := TrimEnd(t);
    SlicesOfSuffix(s, |s| - |t|, |r|);
    r
  }

  /** Slicing the suffix of `s` from `a` is slicing `s` shifted by `a`. */
  lemma SlicesOfSuffix(s: string, a: nat, n: nat)
    requires a + n <= |s|
    ensures s[a..][..n] == s[a..a + n] && s[a..][n..] == s[a + n..]
  {
  }

  /** A string trims to "" exactly when it is all whitespace: the "blank input" guard of the options page. */
  lemma TrimEmptyIffBlank(s: string)
    ensures Trim(s) == "" <==> AllWhitespace(s)
  {
    var t := TrimStart(s);
    if Trim(s) == "" {
      assert AllWhitespace(t[0..]);
      assert t == "";
      assert s[..|s|] == s;
    } else {
      var r := Trim(s);
      assert r == t[..|r|];
      assert t == s[|s| - |t|..];
      assert r[0] == s[|s| - |t|];
    }
  }

  /** Trimming twice changes nothing more. */
  lemma TrimIdempotent(s: string)
    ensures Trim(Trim(s)) == Trim(s)
  {
    var r := Trim(s);
    if r != "" {
      assert TrimStart(r) == r;
      assert TrimEnd(r) == r;
    }
  }

  // ---------------------------------------------------------------------
  // The `{language}` placeholder of prompt templates
  // ---------------------------------------------------------------------

  const Placeholder: string := "{language}"

  predicate PlaceholderAt(s: string, i: nat) {
    i + |Placeholder| <= |s| && s[i..i + |Placeholder|] == Placeholder
  }

  ghost predicate HasPlaceholder(s: string) {
    exists i: nat :: PlaceholderAt(s, i)
  }

  /**
   * `s.replace(/\{language\}/g, value)`: scanning left to right, every
   * occurrence of the placeholder is replaced by `value`.
   */
  function FillPlaceholder(s: string, value: string): string
    decreases |s|
  {
    if PlaceholderAt(s, 0) then value + FillPlaceholder(s[|Placeholder|..], value)
    else if s == "" then ""
    else [s[0]] + FillPlaceholder(s[1..], value)
  }

  /** `pieces` joined with `sep` between consecutive pieces. */
  function JoinWith(pieces: seq<string>, sep: string): string
    decreases |pieces|
  {
    if |pieces| == 0 then ""
    else if |pieces| == 1 then pieces[0]
    else pieces[0] + sep + JoinWith(pieces[1..], sep)
  }

  lemma PlaceholderAtShift(s: string, i: nat)
    requires 1 <= |s|
    ensures PlaceholderAt(s[1..], i) == PlaceholderAt(s, i + 1)
  {
    if i + 1 + |Placeholder| <= |s| {
      assert s[1..][i..i + |Placeholder|] == s[i + 1..i + 1 + |Placeholder|];
    }
  }

  /** A string without a '}' cannot contain the placeholder. */
  lemma NoBraceNoPlaceholder(s: string)
    requires forall k :: 0 <= k < |s| ==> s[k] != '}'
    ensures !HasPlaceholder(s)
  {
    forall i: nat ensures !PlaceholderAt(s, i) {
      if i + |Placeholder| <= |s| {
        assert s[i..i + |Placeholder|][9] == s[i + 9] != Placeholder[9];
      }
    }
  }

  /** A template without the placeholder is left unchanged. */
  lemma {:induction false} FillWithoutPlaceholder(s: string, value: string)
    requires !HasPlaceholder(s)
    ensures FillPlaceholder(s, value) == s
    decreases |s|
  {
    assert !PlaceholderAt(s, 0);
    if s != "" {
      forall i: nat ensures !PlaceholderAt(s[1..], i) {
        PlaceholderAtShift(s, i);
      }
      FillWithoutPlaceholder(s[1..], value);
    }
  }

  /**
   * An occurrence at 0 of `p + Placeholder + t`, with `p` non-empty and free
   * of the placeholder, would either lie inside `p` or end inside the
   * placeholder at |p|, whose '{' no later character of the placeholder matches.
   */
  lemma NoPlaceholderBeforeOne(p: string, t: string)
    requires p != "" && !HasPlaceholder(p)
    ensures !PlaceholderAt(p + Placeholder + t, 0)
  {
    var s := p + Placeholder + t;
    if |p| >= |Placeholder| {
      assert s[0..|Placeholder|] == p[0..|Placeholder|];
      assert !PlaceholderAt(p, 0);
    } else {
      assert s[0..|Placeholder|][|p|] == '{' != Placeholder[|p|];
    }
  }

  /** The tail of a string free of the placeholder is free of it too. */
  lemma NoPlaceholderInTail(p: string)
    requires p != "" && !HasPlaceholder(p)
    ensures !HasPlaceholder(p[1..])
  {
    forall i: nat ensures !PlaceholderAt(p[1..], i) {
      PlaceholderAtShift(p, i);
    }
  }

  /** A template that starts with the placeholder begins with the value. */
  lemma FillAtPlaceholder(t: string, value: string)
    ensures FillPlaceholder(Placeholder + t, value) == value + FillPlaceholder(t, value)
  {
    var s := Placeholder + t;
    assert PlaceholderAt(s, 0) by { assert s[0..|Placeholder|] == Placeholder; }
    assert s[|Placeholder|..] == t;
  }

  /**
   * Substitution skips over a piece free of the placeholder, then replaces
   * the placeholder that follows it.  The placeholder has no proper border
   * (no proper prefix that is also a suffix), so no occurrence can straddle
   * the piece and the placeholder after it.
   */
  lemma {:induction false} FillPieceThenPlaceholder(p: string, t: string, value: string)
    requires !HasPlaceholder(p)
    ensures FillPlaceholder(p + Placeholder + t, value) == p + value + FillPlaceholder(t, value)
    decreases |p|
  {
    var s := p + Placeholder + t;
    if p == "" {
      assert s == Placeholder + t;
      FillAtPlaceholder(t, value);
    } else {
      NoPlaceholderBeforeOne(p, t);
      NoPlaceholderInTail(p);
      assert s[1..] == p[1..] + Placeholder + t;
      FillPieceThenPlaceholder(p[1..], t, value);
      calc {
        FillPlaceholder(s, value);
        [p[0]] + FillPlaceholder(p[1..] + Placeholder + t, value);
        [p[0]] + (p[1..] + value + FillPlaceholder(t, value));
        { assert [p[0]] + p[1..] == p; }
        p + value + FillPlaceholder(t, value);
      }
    }
  }

  /**
   * Reference definition of the substitution: a template cut at each
   * placeholder into pieces is filled by joining the pieces with `value`.
   */
  lemma {:induction false} FillIsJoin(pieces: seq<string>, value: string)
    requires forall k :: 0 <= k < |pieces| ==> !HasPlaceholder(pieces[k])
    ensures FillPlaceholder(JoinWith(pieces, Placeholder), value) == JoinWith(pieces, value)
    decreases |pieces|
  {
    if |pieces| == 0 {
    } else if |pieces| == 1 {
      FillWithoutPlaceholder(pieces[0], value);
    } else {
      FillPieceThenPlaceholder(pieces[0], JoinWith(pieces[1..], Placeholder), value);
      FillIsJoin(pieces[1..], value);
    }
  }

  /** The chunks joined with nothing between them. */
  function Concat(chunks: seq<string>): string {
    if chunks == [] then "" else chunks[0] + Concat(chunks[1..])
  }

  lemma {:induction false} ConcatSnoc(chunks: seq<string>, c: string)
    ensures Concat(chunks + [c]) == Concat(chunks) + c
    decreases |chunks|
  {
    if chunks == [] {
      assert chunks + [c] == [c];
    } else {
      assert (chunks + [c])[1..] == chunks[1..] + [c];
      ConcatSnoc(chunks[1..], c);
    }
  }
}
