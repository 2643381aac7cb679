/** Python string semantics the transcriber relies on: `x or ""` on an
    optional string, and `str.strip()` / `str.lstrip()` with no argument,
    which remove the characters for which `str.isspace()` holds. */
module PyText {

  datatype Option<T> = None | Some(value: T)

  /** `value or ""` for a value that is either a string or None. */
  function OrEmpty(s: Option<string>): (r: string)
    ensures s.Some? ==> r == s.value
    ensures r == "" <==> s.None? || s.value == ""
  {
    if s.Some? then s.value else ""
  }

  /** The characters for which Python's `str.isspace()` is true: tab to
      carriage return, the four information separators, space, NEL, NBSP,
      the Ogham space mark, U+2000 to U+200A, the line and paragraph
      separators, and the narrow, medium mathematical and ideographic spaces. */
  predicate IsSpace(c: char)
    ensures c == ' ' || c == '\t' || c == '\n' || c == '\r' ==> IsSpace(c)
    ensures '0' <= c <= '9' || 'a' <= c <= 'z' || 'A' <= c <= 'Z' || c == '\U{200B}' ==> !IsSpace(c)
  {
    || c == ' ' || '\t' <= c <= '\r' || '\U{1C}' <= c <= '\U{1F}'
    || c == '\U{85}' || c == '\U{A0}' || c == '\U{1680}' || '\U{2000}' <= c <= '\U{200A}'
    || c == '\U{2028}' || c == '\U{2029}' || c == '\U{202F}' || c == '\U{205F}' || c == '\U{3000}'
  }

  /** What `str.strip()` produces: no whitespace at either end. */
  predicate IsStripped(s: string) {
    s == "" || (!IsSpace(s[0]) && !IsSpace(s[|s| - 1]))
  }

  /** Python `b.startswith(a)`. */
  predicate StartsWith(b: string, a: string)
    ensures a == "" || a == b ==> StartsWith(b, a)
    ensures StartsWith(b, a) ==> |a| <= |b| && b == a + b[|a|..]
  {
    |a| <= |b| && b[..|a|] == a
  }

  /** The index of the first non-whitespace character of `s` at or after `i`
      (`|s|` when there is none). */
  function SkipSpaces(s: string, i: nat): (n: nat)
    requires i <= |s|
    ensures i <= n <= |s|
    ensures forall k :: i <= k < n ==> IsSpace(s[k])
    ensures n == |s| || !IsSpace(s[n])
    decreases |s| - i
  {
    if i < |s| && IsSpace(s[i]) then SkipSpaces(s, i + 1) else i
  }

  /** `s.lstrip()`: `s` without its leading whitespace. */
  function LStrip(s: string): (r: string)
    ensures |r| <= |s| && r == s[|s| - |r|..]
    ensures forall k :: 0 <= k < |s| - |r| ==> IsSpace(s[k])
    ensures r == "" || !IsSpace(r[0])
  {
    s[SkipSpaces(s, 0)..]
  }

  /** Everything in `s` before `i` and from `j` on is whitespace. */
  predicate OnlySpaceOutside(s: string, i: nat, j: nat) {
    && i <= j <= |s|
    && (forall k :: 0 <= k < i ==> IsSpace(s[k]))
    && (forall k :: j <= k < |s| ==> IsSpace(s[k]))
  }

  /** `s.strip()`: `s` with the whitespace at both ends removed. */
  function Strip(s: string): (r: string)
    ensures IsStripped(r) && |r| <= |s|
  {
    if s != "" && IsSpace(s[0]) then Strip(s[1..])
    else if s != "" && IsSpace(s[|s| - 1]) then Strip(s[..|s| - 1])
    else s
  }

  /** Stripping removes whitespace at the two ends and nothing else. */
  lemma {:induction false} StripRemovesOnlySpace(s: string)
    ensures exists i: nat, j: nat :: OnlySpaceOutside(s, i, j) && Strip(s) == s[i..j]
    decreases |s|
  {
    if s != "" && IsSpace(s[0]) {
      StripRemovesOnlySpace(s[1..]);
      var i: nat, j: nat :| OnlySpaceOutside(s[1..], i, j) && Strip(s[1..]) == s[1..][i..j];
      SpaceBefore(s, i, j);
    } else if s != "" && IsSpace(s[|s| - 1]) {
      StripRemovesOnlySpace(s[..|s| - 1]);
      var i: nat, j: nat :| OnlySpaceOutside(s[..|s| - 1], i, j) && Strip(s[..|s| - 1]) == s[..|s| - 1][i..j];
      SpaceAfter(s, i, j);
    } else {
      assert OnlySpaceOutside(s, 0, |s|) && Strip(s) == s[0..|s|];
    }
  }

  /** A whitespace character in front widens the whitespace before the kept stretch. */
  lemma SpaceBefore(s: string, i: nat, j: nat)
    requires s != "" && IsSpace(s[0]) && OnlySpaceOutside(s[1..], i, j)
    ensures OnlySpaceOutside(s, i + 1, j + 1) && s[1..][i..j] == s[i + 1..j + 1]
  {
    assert forall k :: 1 <= k < i + 1 ==> s[k] == s[1..][k - 1];
  }

  /** A whitespace character at the end widens the whitespace after the kept stretch. */
  lemma SpaceAfter(s: string, i: nat, j: nat)
    requires s != "" && IsSpace(s[|s| - 1]) && OnlySpaceOutside(s[..|s| - 1], i, j)
    ensures OnlySpaceOutside(s, i, j) && s[..|s| - 1][i..j] == s[i..j]
  {
    assert forall k :: j <= k < |s| - 1 ==> s[k] == s[..|s| - 1][k];
  }

  /** Stripping text that is already stripped changes nothing. */
  lemma StripStripped(s: string)
    requires IsStripped(s)
    ensures Strip(s) == s && LStrip(s) == s
  {
  }

  /** A tail of stripped text, left-stripped, is itself stripped: the emitted
      deltas never carry whitespace at either end. */
  lemma LStripTailStripped(c: string, j: nat)
    requires IsStripped(c) && j <= |c|
    ensures IsStripped(LStrip(c[j..]))
    ensures LStrip(c[j..]) == c[|c| - |LStrip(c[j..])|..]
  {
    var r := LStrip(c[j..]);
    assert r == c[j..][|c[j..]| - |r|..];
    assert r == c[|c| - |r|..];
    if r != "" {
      assert r[|r| - 1] == c[|c| - 1];
    }
  }
}
