/** The string operations the screens call: `toLowerCase`, `includes`,
    `trim`, `split(' ')[0]` and the match of `/\(([^)]+)\)/`.
    Lowercasing is restricted to the ASCII letters. */
module Text {
  import opened Wrappers

  predicate IsAsciiUpper(c: char) { 'A' <= c <= 'Z' }

  function LowerChar(c: char): (r: char)
    ensures IsAsciiUpper(c) ==> r as int == c as int + 32
    ensures !IsAsciiUpper(c) ==> r == c
    ensures !IsAsciiUpper(r)
  {
    if IsAsciiUpper(c) then (c as int + 32) as char else c
  }

  /** `s.toLowerCase()`, character by character. */
  function ToLower(s: string): (r: string)
    ensures |r| == |s|
    ensures forall i :: 0 <= i < |s| ==> r[i] == LowerChar(s[i])
  {
    seq(|s|, i requires 0 <= i < |s| => LowerChar(s[i]))
  }

  /** Lowercasing works character by character, so it distributes over
      concatenation. */
  lemma ToLowerAppend(a: string, b: string)
    ensures ToLower(a + b) == ToLower(a) + ToLower(b)
  {
  }

  /** `needle` occurs in `hay` starting at index `i`. */
  predicate OccursAt(hay: string, needle: string, i: int)
  {
    0 <= i && i + |needle| <= |hay| && hay[i..i + |needle|] == needle
  }

  /** `hay.includes(needle)`: some position of `hay` starts a copy of `needle`. */
  predicate Contains(hay: string, needle: string)
  {
    exists i :: 0 <= i <= |hay| - |needle| && OccursAt(hay, needle, i)
  }

  /** A longer needle is found only where its prefix is found too. */
  lemma ContainsPrefix(hay: string, a: string, b: string)
    requires Contains(hay, a + b)
    ensures Contains(hay, a)
  {
    var i :| 0 <= i <= |hay| - |a + b| && OccursAt(hay, a + b, i);
    assert hay[i..i + |a|] == (a + b)[..|a|] == a;
    assert OccursAt(hay, a, i);
  }

  /** A string without upper-case letters is its own lowercase form. */
  lemma ToLowerOfLower(s: string)
    requires forall i :: 0 <= i < |s| ==> !IsAsciiUpper(s[i])
    ensures ToLower(s) == s
  {
  }

  /** A needle found, up to case, at position `i` of `hay`. */
  lemma LoweredOccurrence(hay: string, needle: string, i: nat)
    requires i + |needle| <= |hay|
    requires forall k :: 0 <= k < |needle| ==> LowerChar(hay[i + k]) == needle[k]
    ensures Contains(ToLower(hay), needle)
  {
    assert ToLower(hay)[i..i + |needle|] == needle;
    assert OccursAt(ToLower(hay), needle, i);
  }

  /** A lower-case ASCII letter of `needle` that occurs in `hay` in neither
      case rules out every occurrence of `needle` in `hay` lowercased. */
  lemma AbsentLetter(hay: string, needle: string, k: int)
    requires 0 <= k < |needle| && 'a' <= needle[k] <= 'z'
    requires needle[k] !in hay && (needle[k] as int - 32) as char !in hay
    ensures !Contains(ToLower(hay), needle)
  {
    forall i | 0 <= i <= |hay| - |needle|
      ensures !OccursAt(ToLower(hay), needle, i)
    {
      assert hay[i + k] in hay;
      assert ToLower(hay)[i..i + |needle|][k] == ToLower(hay)[i + k] != needle[k];
    }
  }

  /** The characters `String.prototype.trim` removes: the ECMAScript white
      space (tab, vertical tab, form feed, the byte-order mark and the space
      separators of Unicode category Zs) and the four line terminators. */
  predicate IsWhitespace(c: char)
  {
    c == ' ' || c == '\t' || c == '\n' || c == '\r' || c == '\U{000B}' || c == '\U{000C}'
    || c == '\U{00A0}' || c == '\U{1680}' || '\U{2000}' <= c <= '\U{200A}'
    || c == '\U{2028}' || c == '\U{2029}' || c == '\U{202F}' || c == '\U{205F}'
    || c == '\U{3000}' || c == '\U{FEFF}'
  }

  predicate AllWhitespace(s: string)
  {
    forall i :: 0 <= i < |s| ==> IsWhitespace(s[i])
  }

  /** The number of whitespace characters at the start of `s`. */
  function LeadingWhite(s: string): (n: nat)
    ensures n <= |s|
    ensures forall i :: 0 <= i < n ==> IsWhitespace(s[i])
    ensures n < |s| ==> !IsWhitespace(s[n])
  {
    if |s| > 0 && IsWhitespace(s[0]) then 1 + LeadingWhite(s[1..]) else 0
  }

  /** The length of `s` without its trailing whitespace. */
  function TrailingStart(s: string): (n: nat)
    ensures n <= |s|
    ensures forall i :: n <= i < |s| ==> IsWhitespace(s[i])
    ensures n > 0 ==> !IsWhitespace(s[n - 1])
  {
    if |s| > 0 && IsWhitespace(s[|s| - 1]) then TrailingStart(s[..|s| - 1]) else |s|
  }

  /** `s.trim()`: `s` without leading and trailing whitespace. */
  function Trim(s: string): string
  {
    var t := s[LeadingWhite(s)..];
    t[..TrailingStart(t)]
  }

  /** `s.trim() === ''`. */
  predicate IsBlank(s: string)
  {
    Trim(s) == ""
  }

  /** A query is blank exactly when it consists of whitespace only. */
  lemma BlankIffAllWhitespace(s: string)
    ensures IsBlank(s) <==> AllWhitespace(s)
  {
    var a := LeadingWhite(s);
    var t := s[a..];
    if !AllWhitespace(s) {
      assert a < |s|;
      assert t[0] == s[a];
      assert TrailingStart(t) > 0;
    }
  }

  /** A query that is not blank stays not blank when more text is typed. */
  lemma NotBlankExtend(q: string, e: string)
    requires !IsBlank(q)
    ensures !IsBlank(q + e)
  {
    BlankIffAllWhitespace(q);
    BlankIffAllWhitespace(q + e);
    var k :| 0 <= k < |q| && !IsWhitespace(q[k]);
    assert (q + e)[k] == q[k];
  }

  /** `s.split(' ')[0]`: the text before the first space, or all of `s`. */
  function FirstToken(s: string): (r: string)
    ensures |r| <= |s| && r == s[..|r|]
    ensures ' ' !in r
    ensures |r| == |s| || s[|r|] == ' '
  {
    if |s| == 0 || s[0] == ' ' then ""
    else [s[0]] + FirstToken(s[1..])
  }

  /** A match of `/\(([^)]+)\)/` whose parentheses are at `i` and `j`:
      a non-empty run without `)` between them. */
  predicate GroupAt(s: string, i: int, j: int)
  {
    0 <= i && i + 1 < j < |s| && s[i] == '(' && s[j] == ')'
    && forall k :: i < k < j ==> s[k] != ')'
  }

  /** The first `)` at or after index `k`. */
  function CloseFrom(s: string, k: nat): (r: Option<nat>)
    ensures r.Some? ==> k <= r.value < |s| && s[r.value] == ')'
    ensures r.Some? ==> forall m :: k <= m < r.value ==> s[m] != ')'
    ensures r.None? ==> forall m :: k <= m < |s| ==> s[m] != ')'
    decreases |s| - k
  {
    if k >= |s| then None
    else if s[k] == ')' then Some(k)
    else CloseFrom(s, k + 1)
  }

  /** The leftmost match whose opening parenthesis is at or after `i`. */
  function MatchFrom(s: string, i: nat): (r: Option<(nat, nat)>)
    ensures r.Some? ==> GroupAt(s, r.value.0, r.value.1) && i <= r.value.0
    ensures r.Some? ==> forall a, b :: i <= a < r.value.0 ==> !GroupAt(s, a, b)
    ensures r.None? ==> forall a, b :: i <= a ==> !GroupAt(s, a, b)
    decreases |s| - i
  {
    if i >= |s| then None
    else
      var c := CloseFrom(s, i + 1);
      if s[i] == '(' && c.Some? && c.value > i + 1 then
        Some((i, c.value))
      else
        MatchFrom(s, i + 1)
  }

  /** `s.match(/\(([^)]+)\)/)?.[1]`: the capture of the leftmost match. */
  function ParenGroup(s: string): (r: Option<string>)
    ensures r.None? <==> forall a, b :: !GroupAt(s, a, b)
    ensures r.Some? ==> exists a, b ::
      && GroupAt(s, a, b)
      && r.value == s[a + 1..b]
      && (forall a', b' :: GroupAt(s, a', b') ==> a <= a')
  {
    match MatchFrom(s, 0)
    case None => None
    case Some((a, b)) => Some(s[a + 1..b])
  }

  /** The capture is non-empty and holds no closing parenthesis. */
  lemma ParenGroupShape(s: string)
    requires ParenGroup(s).Some?
    ensures |ParenGroup(s).value| > 0 && ')' !in ParenGroup(s).value
  {
    var a, b :| GroupAt(s, a, b) && ParenGroup(s).value == s[a + 1..b];
    var g := s[a + 1..b];
    assert forall k :: 0 <= k < |g| ==> g[k] == s[a + 1 + k];
  }
}
