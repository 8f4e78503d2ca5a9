/** The few JavaScript value and string semantics the posts endpoint relies on:
    optional values, truthiness of strings, `String.prototype.trim`,
    `s.split(c)[0]` and ASCII case-insensitive comparison as a `/…/i` regular
    expression performs it for an ASCII pattern. */
module JsText {

  /** A value that may be `null` or `undefined` in the source. */
  datatype Option<+T> = None | Some(value: T) {
    function GetOr(default: T): T {
      match this
      case Some(v) => v
      case None => default
    }
  }

  /** JavaScript truthiness of an optional string: `null`, `undefined` and `""` are falsy. */
  predicate Truthy(s: Option<string>) {
    s.Some? && s.value != ""
  }

  /** `s || ""` */
  function OrEmpty(s: Option<string>): (r: string)
    ensures Truthy(s) ==> r == s.value
    ensures !Truthy(s) ==> r == ""
  {
    match s
    case Some(v) => v
    case None => ""
  }

  /** The characters `String.prototype.trim` removes: ECMAScript WhiteSpace
      (tab, vertical tab, form feed, the byte order mark and every Unicode
      space separator) and LineTerminator (LF, CR, LS, PS). */
  predicate IsTrimmable(c: char) {
    c == '\t' || c == '\n' || c == '\U{0B}' || c == '\U{0C}' || c == '\r' || c == ' '
    || c == '\U{A0}' || c == '\U{1680}' || ('\U{2000}' <= c <= '\U{200A}')
    || c == '\U{2028}' || c == '\U{2029}' || c == '\U{202F}' || c == '\U{205F}'
    || c == '\U{3000}' || c == '\U{FEFF}'
  }

  /** Drops the leading trimmable characters: what remains is a suffix of `s`
      that does not start with one, and everything dropped was trimmable. */
  function TrimStart(s: string): (r: string)
    ensures |r| <= |s| && r == s[|s| - |r|..]
    ensures forall i :: 0 <= i < |s| - |r| ==> IsTrimmable(s[i])
    ensures r != [] ==> !IsTrimmable(r[0])
  {
    if s != [] && IsTrimmable(s[0]) then TrimStart(s[1..]) else s
  }

  /** Drops the trailing trimmable characters: what remains is a prefix of `s`
      that does not end with one, and everything dropped was trimmable. */
  function TrimEnd(s: string): (r: string)
    ensures |r| <= |s| && r == s[..|r|]
    ensures forall i :: |r| <= i < |s| ==> IsTrimmable(s[i])
    ensures r != [] ==> !IsTrimmable(r[|r| - 1])
  {
    if s != [] && IsTrimmable(s[|s| - 1]) then TrimEnd(s[..|s| - 1]) else s
  }

  /** `s.trim()`: neither end of the result is trimmable, and it is empty
      exactly when `s` consists of trimmable characters. */
  function Trim(s: string): (r: string)
    ensures r != [] ==> !IsTrimmable(r[0]) && !IsTrimmable(r[|r| - 1])
    ensures r == [] <==> forall k :: 0 <= k < |s| ==> IsTrimmable(s[k])
  {
    var front := TrimStart(s);
    var r := TrimEnd(front);
    assert r != [] ==> r[0] == front[0];
    assert front != [] ==> front[0] == s[|s| - |front|];
    r
  }

  /** What `s.trim()` removes: the result is the slice `s[i..j]`, and every
      character outside that slice is trimmable. */
  lemma TrimIsSlice(s: string)
    ensures exists i, j :: 0 <= i <= j <= |s| && Trim(s) == s[i..j]
                           && (forall k :: 0 <= k < i ==> IsTrimmable(s[k]))
                           && (forall k :: j <= k < |s| ==> IsTrimmable(s[k]))
  {
    var front := TrimStart(s);
    var r := TrimEnd(front);
    var i := |s| - |front|;
    assert r == s[i..i + |r|];
    forall k | i + |r| <= k < |s| ensures IsTrimmable(s[k]) {
      assert s[k] == front[k - i];
    }
  }

  /** `s.split(c)[0]`: the part of `s` before its first `c`, or all of `s`
      when it has none. */
  function BeforeFirst(s: string, c: char): (r: string)
    ensures |r| <= |s| && r == s[..|r|]
    ensures c !in r
    ensures |r| < |s| ==> s[|r|] == c
  {
    if s == [] || s[0] == c then [] else [s[0]] + BeforeFirst(s[1..], c)
  }

  /** The three facts above pin the result down: text put in front of the
      first separator is exactly what comes back. */
  lemma BeforeFirstOfJoin(head: string, c: char, tail: string)
    requires c !in head
    ensures BeforeFirst(head + [c] + tail, c) == head
  {
    var s := head + [c] + tail;
    assert s[..|head|] == head && s[|head|] == c;
  }

  /** A string without the separator comes back whole. */
  lemma BeforeFirstWithout(s: string, c: char)
    requires c !in s
    ensures BeforeFirst(s, c) == s
  {
    assert forall k :: 0 <= k < |s| ==> s[k] != c;
  }

  /** ASCII lower-casing of one character; every other character is kept. */
  function LowerAscii(c: char): char {
    if 'A' <= c <= 'Z' then (c as int + 32) as char else c
  }

  /** Equality up to ASCII case, as the case-insensitive regular expression
      flag compares an input character with an ASCII pattern character. */
  predicate EqualsIgnoringAsciiCase(a: string, b: string) {
    |a| == |b| && forall i :: 0 <= i < |a| ==> LowerAscii(a[i]) == LowerAscii(b[i])
  }

  /** `s` ends with `suffix`, ignoring ASCII case. */
  predicate EndsWithIgnoringCase(s: string, suffix: string) {
    |suffix| <= |s| && EqualsIgnoringAsciiCase(s[|s| - |suffix|..], suffix)
  }

  /** Ending with a suffix does not depend on the ASCII case of either string. */
  lemma EndsWithCaseInvariant(s: string, t: string, suffix: string)
    requires EqualsIgnoringAsciiCase(s, t)
    ensures EndsWithIgnoringCase(s, suffix) == EndsWithIgnoringCase(t, suffix)
  {
    if |suffix| <= |s| {
      var n := |s| - |suffix|;
      forall i | 0 <= i < |suffix|
        ensures LowerAscii(s[n..][i]) == LowerAscii(t[n..][i])
      {
        assert s[n..][i] == s[n + i] && t[n..][i] == t[n + i];
      }
    }
  }

  /** Only `.` lower-cases to `.`: a string without a dot never ends, ignoring
      case, with a suffix that contains one. */
  lemma NoDotNoDottedSuffix(s: string, suffix: string)
    requires '.' !in s && '.' in suffix
    ensures !EndsWithIgnoringCase(s, suffix)
  {
    var k :| 0 <= k < |suffix| && suffix[k] == '.';
    if |suffix| <= |s| {
      var n := |s| - |suffix|;
      assert s[n..][k] == s[n + k] != '.';
      assert LowerAscii(s[n..][k]) != LowerAscii(suffix[k]);
    }
  }
}
