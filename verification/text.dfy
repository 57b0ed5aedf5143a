/** The part of JavaScript's `String.prototype.trim` that the send handler relies on:
    an input is refused when trimming leaves nothing. */
module Text {

  /** The characters `trim` strips: the ECMAScript WhiteSpace and LineTerminator
      code points (tab, line feed, vertical tab, form feed, carriage return, the
      byte order mark, the line and paragraph separators, and the Unicode
      space separators of category Zs). */
  predicate IsWhitespace(c: char) {
    c == '\t' || c == '\n' || c == '\U{000B}' || c == '\U{000C}' || c == '\r'
    || c == ' ' || c == '\U{00A0}' || c == '\U{1680}'
    || ('\U{2000}' <= c <= '\U{200A}')
    || c == '\U{2028}' || c == '\U{2029}' || c == '\U{202F}' || c == '\U{205F}'
    || c == '\U{3000}' || c == '\U{FEFF}'
  }

  /** Nothing but whitespace, the empty string included: by `Trim`'s contract, the
      strings that `trim` turns into the empty string. */
  predicate IsBlank(s: string) {
    forall i :: 0 <= i < |s| ==> IsWhitespace(s[i])
  }

  /** Drops the leading whitespace: what remains is a suffix of `s` that does not
      start with whitespace, and everything dropped was whitespace. */
  function TrimStart(s: string): (r: string)
    ensures |r| <= |s| && r == s[|s| - |r|..]
    ensures IsBlank(s[..|s| - |r|])
    ensures r == [] || !IsWhitespace(r[0])
  {
    if s == [] || !IsWhitespace(s[0]) then s
    else
      var r := TrimStart(s[1..]);
      assert s[..|s| - |r|] == [s[0]] + s[1..][..|s| - 1 - |r|];
      r
  }

  /** Drops the trailing whitespace: what remains is a prefix of `s` that does not
      end with whitespace, and everything dropped was whitespace. */
  function TrimEnd(s: string): (r: string)
    ensures |r| <= |s| && r == s[..|r|]
    ensures IsBlank(s[|r|..])
    ensures r == [] || !IsWhitespace(r[|r| - 1])
  {
    if s == [] || !IsWhitespace(s[|s| - 1]) then s
    else
      var r := TrimEnd(s[..|s| - 1]);
      assert s[|r|..] == s[..|s| - 1][|r|..] + [s[|s| - 1]];
      r
  }

  /** `s.trim()`: a contiguous piece of `s` with no whitespace at either end; it is
      empty exactly when `s` consists of whitespace only (the empty string included). */
  function Trim(s: string): (r: string)
    ensures |r| <= |TrimStart(s)| <= |s|
    ensures r == s[|s| - |TrimStart(s)|..][..|r|]
    ensures r == [] <==> IsBlank(s)
    ensures r != [] ==> !IsWhitespace(r[0]) && !IsWhitespace(r[|r| - 1])
  {
    var t := TrimStart(s);
    var r := TrimEnd(t);
    var i := |s| - |t|;
    assert r == [] ==> IsBlank(s) by {
      if r == [] {
        assert t == [];
        forall k | 0 <= k < |s|
          ensures IsWhitespace(s[k])
        {
          assert s[..i][k] == s[k];
        }
      }
    }
    assert r != [] ==> !IsWhitespace(s[i]) by {
      if r != [] {
        assert r[0] == t[0] == s[i];
      }
    }
    r
  }

  /** `trim` drops whitespace only: the input is the dropped leading part, the kept
      piece, and the dropped trailing part, in that order, and both dropped parts are
      whitespace. */
  lemma TrimDropsOnlyWhitespace(s: string)
    ensures |s| - |TrimStart(s)| + |Trim(s)| <= |s|
    ensures IsBlank(s[..|s| - |TrimStart(s)|])
    ensures s[|s| - |TrimStart(s)|..][..|Trim(s)|] == Trim(s)
    ensures IsBlank(s[|s| - |TrimStart(s)| + |Trim(s)|..])
  {
    var t := TrimStart(s);
    var i := |s| - |t|;
    var r := TrimEnd(t);
    assert s[i..] == t;
    assert s[i + |r|..] == t[|r|..];
  }

  /** Trimming a trimmed string changes nothing. */
  lemma TrimIdempotent(s: string)
    ensures Trim(Trim(s)) == Trim(s)
  {
    var r := Trim(s);
    if r != [] {
      assert TrimStart(r) == r;
      assert TrimEnd(r) == r;
    }
  }
}
