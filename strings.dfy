/** Python's str methods as the backend uses them: `split`, `join`, `strip`, `lower`,
    `startswith`, `endswith` and the `in` substring test, with the facts the agents rely on. */
module Strings {

  predicate StartsWith(s: string, prefix: string) {
    |prefix| <= |s| && s[..|prefix|] == prefix
  }

  predicate EndsWith(s: string, suffix: string) {
    |suffix| <= |s| && s[|s| - |suffix|..] == suffix
  }

  /** Python's `t in s`. */
  predicate Contains(s: string, t: string)
    decreases |s|
  {
    StartsWith(s, t) || (|s| > 0 && Contains(s[1..], t))
  }

  // ---------------------------------------------------------------- split and join

  /** `s.split(sep)`, scanning left to right; `cur` is the piece being collected. */
  function SplitFrom(s: string, sep: string, cur: string): (pieces: seq<string>)
    requires |sep| > 0
    ensures |pieces| > 0
    decreases |s|
  {
    if |s| < |sep| then [cur + s]
    else if s[..|sep|] == sep then [cur] + SplitFrom(s[|sep|..], sep, [])
    else SplitFrom(s[1..], sep, cur + [s[0]])
  }

  function Split(s: string, sep: string): (pieces: seq<string>)
    requires |sep| > 0
    ensures |pieces| > 0
  {
    SplitFrom(s, sep, [])
  }

  function Last<T>(xs: seq<T>): T
    requires |xs| > 0
  {
    xs[|xs| - 1]
  }

  /** `sep.join(parts)`. */
  function Join(parts: seq<string>, sep: string): string
    decreases |parts|
  {
    if |parts| == 0 then []
    else if |parts| == 1 then parts[0]
    else parts[0] + sep + Join(parts[1..], sep)
  }

  lemma {:induction false} JoinSplitFrom(s: string, sep: string, cur: string)
    requires |sep| > 0
    ensures Join(SplitFrom(s, sep, cur), sep) == cur + s
    decreases |s|
  {
    if |s| < |sep| {
    } else if s[..|sep|] == sep {
      var rest := SplitFrom(s[|sep|..], sep, []);
      JoinSplitFrom(s[|sep|..], sep, []);
      assert [cur] + rest == [cur] + rest;
      assert ([cur] + rest)[1..] == rest;
      assert s == sep + s[|sep|..];
    } else {
      JoinSplitFrom(s[1..], sep, cur + [s[0]]);
      assert s == [s[0]] + s[1..];
    }
  }

  /** Joining the pieces of a split gives back the string. */
  lemma JoinSplit(s: string, sep: string)
    requires |sep| > 0
    ensures Join(Split(s, sep), sep) == s
  {
    JoinSplitFrom(s, sep, []);
  }

  lemma {:induction false} SplitFromSkips(p: string, rest: string, c: char, cur: string)
    requires c !in p
    ensures SplitFrom(p + rest, [c], cur) == SplitFrom(rest, [c], cur + p)
    decreases |p|
  {
    if |p| > 0 {
      assert (p + rest)[1..] == p[1..] + rest;
      assert (p + rest)[..1] == [p[0]];
      SplitFromSkips(p[1..], rest, c, cur + [p[0]]);
      assert cur + [p[0]] + p[1..] == cur + p;
    } else {
      assert p + rest == rest && cur + p == cur;
    }
  }

  /** Splitting a join on a separator character that no part contains gives back the parts. */
  lemma {:induction false} SplitJoin(parts: seq<string>, c: char)
    requires |parts| > 0
    requires forall i :: 0 <= i < |parts| ==> c !in parts[i]
    ensures Split(Join(parts, [c]), [c]) == parts
    decreases |parts|
  {
    if |parts| == 1 {
      SplitFromSkips(parts[0], [], c, []);
      assert parts[0] + [] == parts[0] && [] + parts[0] == parts[0];
      assert SplitFrom([], [c], parts[0]) == [parts[0] + []];
    } else {
      var tail := Join(parts[1..], [c]);
      assert Join(parts, [c]) == parts[0] + ([c] + tail);
      SplitFromSkips(parts[0], [c] + tail, c, []);
      assert [] + parts[0] == parts[0];
      assert ([c] + tail)[..1] == [c] && ([c] + tail)[1..] == tail;
      assert SplitFrom([c] + tail, [c], parts[0]) == [parts[0]] + SplitFrom(tail, [c], []);
      SplitJoin(parts[1..], c);
      assert [parts[0]] + parts[1..] == parts;
    }
  }

  lemma {:induction false} SplitFromPiecesAvoid(s: string, c: char, cur: string)
    requires c !in cur
    ensures forall i :: 0 <= i < |SplitFrom(s, [c], cur)| ==> c !in SplitFrom(s, [c], cur)[i]
    decreases |s|
  {
    if |s| < 1 {
    } else if s[..1] == [c] {
      SplitFromPiecesAvoid(s[1..], c, []);
    } else {
      assert s[0] != c;
      SplitFromPiecesAvoid(s[1..], c, cur + [s[0]]);
    }
  }

  /** No piece of a split on a character contains that character. */
  lemma SplitPiecesAvoid(s: string, c: char)
    ensures forall i :: 0 <= i < |Split(s, [c])| ==> c !in Split(s, [c])[i]
  {
    SplitFromPiecesAvoid(s, c, []);
  }

  lemma {:induction false} SplitFromWithout(s: string, c: char, cur: string)
    requires c !in s
    ensures SplitFrom(s, [c], cur) == [cur + s]
  {
    SplitFromSkips(s, [], c, cur);
    assert s + [] == s;
    assert SplitFrom([], [c], cur + s) == [cur + s + []];
    assert cur + s + [] == cur + s;
  }

  /** A string without the separator character splits into itself alone. */
  lemma SplitWithout(s: string, c: char)
    requires c !in s
    ensures Split(s, [c]) == [s]
  {
    SplitFromWithout(s, c, []);
    assert [] + s == s;
  }

  // ---------------------------------------------------------------- doubled slashes

  /** A "/"-join of non-empty parts without "/" contains no "//". */
  lemma {:induction false} JoinHasNoDoubleSlash(parts: seq<string>)
    requires forall i :: 0 <= i < |parts| ==> parts[i] != [] && '/' !in parts[i]
    ensures !Contains(Join(parts, "/"), "//")
    decreases |parts|
  {
    if |parts| == 0 {
    } else if |parts| == 1 {
      NoSlashNoDouble(parts[0]);
    } else {
      var tail := Join(parts[1..], "/");
      JoinHasNoDoubleSlash(parts[1..]);
      JoinStartsWithFirst(parts[1..], "/");
      SlashThenNoDouble(parts[0], tail);
      assert Join(parts, "/") == parts[0] + "/" + tail;
    }
  }

  lemma {:induction false} NoSlashNoDouble(s: string)
    requires '/' !in s
    ensures !Contains(s, "//")
    decreases |s|
  {
    if |s| > 0 {
      if |s| >= 2 { assert s[..2][0] == s[0]; }
      NoSlashNoDouble(s[1..]);
    }
  }

  lemma {:induction false} JoinStartsWithFirst(parts: seq<string>, sep: string)
    requires |parts| > 0
    ensures StartsWith(Join(parts, sep), parts[0])
  {
    if |parts| > 1 {
      assert Join(parts, sep) == parts[0] + (sep + Join(parts[1..], sep));
    }
  }

  lemma {:induction false} SlashThenNoDouble(p: string, tail: string)
    requires '/' !in p && !Contains(tail, "//") && (|tail| == 0 || tail[0] != '/')
    ensures !Contains(p + "/" + tail, "//")
    decreases |p|
  {
    var s := p + "/" + tail;
    if |p| > 0 {
      assert s[1..] == p[1..] + "/" + tail;
      if |s| >= 2 { assert s[..2][0] == s[0]; }
      SlashThenNoDouble(p[1..], tail);
    } else {
      assert s == "/" + tail && s[1..] == tail;
      if |s| >= 2 { assert s[..2][1] == tail[0]; }
    }
  }

  /** Cutting a suffix off never creates a "//". */
  lemma {:induction false} PrefixKeepsNoDouble(s: string, n: nat)
    requires n <= |s| && !Contains(s, "//")
    ensures !Contains(s[..n], "//")
    decreases |s|
  {
    if n > 0 {
      assert s[..n][1..] == s[1..][..n - 1];
      PrefixKeepsNoDouble(s[1..], n - 1);
    }
  }

  // ---------------------------------------------------------------- strip

  /** The characters Python's `str.isspace()` accepts (and `strip()` removes). */
  predicate IsSpace(c: char) {
    ('\t' <= c <= '\r') || ('\U{1C}' <= c <= ' ') || c == '\U{85}' || c == '\U{A0}'
    || c == '\U{1680}' || ('\U{2000}' <= c <= '\U{200A}') || c == '\U{2028}' || c == '\U{2029}'
    || c == '\U{202F}' || c == '\U{205F}' || c == '\U{3000}'
  }

  predicate AllSpace(s: string) {
    forall i :: 0 <= i < |s| ==> IsSpace(s[i])
  }

  /** Neither end of `s` is whitespace. */
  predicate Trimmed(s: string) {
    |s| == 0 || (!IsSpace(s[0]) && !IsSpace(s[|s| - 1]))
  }

  /** `s.lstrip()`: a suffix of `s` that does not open with whitespace. */
  function TrimStart(s: string): (r: string)
    ensures |r| <= |s| && r == s[|s| - |r|..]
    ensures |r| == 0 || !IsSpace(r[0])
    decreases |s|
  {
    if |s| > 0 && IsSpace(s[0]) then TrimStart(s[1..]) else s
  }

  /** `s.rstrip()`: a prefix of `s` that does not close with whitespace. */
  function TrimEnd(s: string): (r: string)
    ensures |r| <= |s| && r == s[..|r|]
    ensures |r| == 0 || !IsSpace(r[|r| - 1])
    decreases |s|
  {
    if |s| > 0 && IsSpace(s[|s| - 1]) then TrimEnd(s[..|s| - 1]) else s
  }

  /** What `lstrip` drops is whitespace only. */
  lemma {:induction false} TrimStartDropsSpace(s: string)
    ensures AllSpace(s[..|s| - |TrimStart(s)|])
    decreases |s|
  {
    if |s| > 0 && IsSpace(s[0]) {
      TrimStartDropsSpace(s[1..]);
      var k := |s| - |TrimStart(s)|;
      assert forall i :: 1 <= i < k ==> s[..k][i] == s[1..][..k - 1][i - 1];
    }
  }

  /** What `rstrip` drops is whitespace only. */
  lemma {:induction false} TrimEndDropsSpace(s: string)
    ensures AllSpace(s[|TrimEnd(s)|..])
    decreases |s|
  {
    if |s| > 0 && IsSpace(s[|s| - 1]) {
      var n := |s| - 1;
      TrimEndDropsSpace(s[..n]);
      var k := |TrimEnd(s)|;
      assert s[k..] == s[..n][k..] + [s[n]];
    }
  }

  /** `s.strip()`. */
  function Strip(s: string): (r: string)
    ensures Trimmed(r)
  {
    var t := TrimStart(s);
    var r := TrimEnd(t);
    assert |r| > 0 ==> r[0] == t[0];
    r
  }

  /** A string with no whitespace at either end is its own strip; so stripping is idempotent. */
  lemma StripTrimmed(s: string)
    requires Trimmed(s)
    ensures Strip(s) == s
  {
  }

  // ---------------------------------------------------------------- lower

  /** `c.lower()` for ASCII letters; every other character is left as is. */
  function LowerChar(c: char): char {
    if 'A' <= c <= 'Z' then (c as int + 32) as char else c
  }

  /** `s.lower()`, letter by letter. */
  function Lower(s: string): (r: string)
    ensures |r| == |s| && forall i :: 0 <= i < |s| ==> r[i] == LowerChar(s[i])
  {
    seq(|s|, i requires 0 <= i < |s| => LowerChar(s[i]))
  }

  /** Lower-casing keeps every character that is not an upper-case letter: in particular '.'. */
  lemma LowerKeepsAbsent(s: string, c: char)
    requires c !in s && !('A' <= c <= 'Z') && !('a' <= c <= 'z')
    ensures c !in Lower(s)
  {
  }
}
