/** The JavaScript string operations the screens rely on: `trim`, `toLowerCase`
    and `includes`. */
module Text {

  /** The characters that `String.prototype.trim` strips and that this model
      recognises: space, tab, line feed, carriage return, vertical tab, form
      feed, no-break space, line separator, paragraph separator and the byte
      order mark. */
  predicate IsWhitespace(c: char) {
    c == ' ' || c == '\t' || c == '\n' || c == '\r' || c == '\U{B}' || c == '\U{C}'
    || c == '\U{A0}' || c == '\U{2028}' || c == '\U{2029}' || c == '\U{FEFF}'
  }

  /** Every character of `s` is whitespace; the empty string is blank. */
  predicate IsBlank(s: string) {
    forall i | 0 <= i < |s| :: IsWhitespace(s[i])
  }

  function TrimStart(s: string): string {
    if s != [] && IsWhitespace(s[0]) then TrimStart(s[1..]) else s
  }

  function TrimEnd(s: string): string {
    if s != [] && IsWhitespace(s[|s| - 1]) then TrimEnd(s[..|s| - 1]) else s
  }

  /** `s.trim()`: leading and trailing whitespace removed. */
  function Trim(s: string): string {
    TrimEnd(TrimStart(s))
  }

  lemma {:induction false} TrimStartFindsContent(s: string)
    ensures IsBlank(s) ==> TrimStart(s) == ""
    ensures !IsBlank(s) ==> TrimStart(s) != "" && !IsWhitespace(TrimStart(s)[0])
  {
    if s != [] && IsWhitespace(s[0]) {
      TrimStartFindsContent(s[1..]);
      assert IsBlank(s) <==> IsBlank(s[1..]) by {
        if IsBlank(s[1..]) {
          forall i | 0 <= i < |s| ensures IsWhitespace(s[i]) {
            if i > 0 { assert s[i] == s[1..][i - 1]; }
          }
        }
      }
    }
  }

  lemma {:induction false} TrimEndKeepsLeadingContent(s: string)
    requires s != [] && !IsWhitespace(s[0])
    ensures TrimEnd(s) != ""
  {
    if IsWhitespace(s[|s| - 1]) {
      TrimEndKeepsLeadingContent(s[..|s| - 1]);
    }
  }

  /** `!s.trim()` holds exactly when `s` is blank. */
  lemma BlankIffTrimmedEmpty(s: string)
    ensures IsBlank(s) <==> Trim(s) == ""
  {
    TrimStartFindsContent(s);
    if !IsBlank(s) {
      TrimEndKeepsLeadingContent(TrimStart(s));
    }
  }

  /** Case mapping of `toLowerCase`, on the ASCII letters. */
  function LowerChar(c: char): char {
    if 'A' <= c <= 'Z' then (c as int - 'A' as int + 'a' as int) as char else c
  }

  /** `s.toLowerCase()`. */
  function ToLower(s: string): (r: string)
    ensures |r| == |s|
    ensures forall i | 0 <= i < |s| :: r[i] == LowerChar(s[i])
  {
    if s == [] then [] else [LowerChar(s[0])] + ToLower(s[1..])
  }

  /** `s.includes(sub)`: `sub` is a prefix of some suffix of `s`. */
  predicate Includes(s: string, sub: string)
    decreases |s|
  {
    sub <= s || (s != [] && Includes(s[1..], sub))
  }

  /** `Includes` agrees with "there is an offset at which `sub` occurs". */
  lemma {:induction false} IncludesIffOccurs(s: string, sub: string)
    ensures Includes(s, sub) <==> exists k | 0 <= k <= |s| :: sub <= s[k..]
  {
    if sub <= s {
      assert s[0..] == s;
    } else if s != [] {
      IncludesIffOccurs(s[1..], sub);
      if Includes(s[1..], sub) {
        var k :| 0 <= k <= |s[1..]| && sub <= s[1..][k..];
        assert s[1..][k..] == s[k + 1..];
      } else {
        forall k | 0 <= k <= |s| ensures !(sub <= s[k..]) {
          if k > 0 { assert s[1..][k - 1..] == s[k..]; }
        }
      }
    }
  }
}
