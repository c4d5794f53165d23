/**
 * String helpers with the meaning JavaScript gives them. A string is a sequence of
 * characters; search functions return the leftmost occurrence, as `indexOf` does.
 */
module Text {
  import opened Wrappers

  /** The ECMAScript WhiteSpace and LineTerminator characters: what `\s` matches and `trim` removes. */
  predicate IsWhitespace(c: char) {
    || c == '\t' || c == '\n' || c == '\U{000B}' || c == '\U{000C}' || c == '\r' || c == ' '
    || c == '\U{00A0}' || c == '\U{1680}' || ('\U{2000}' <= c <= '\U{200A}')
    || c == '\U{2028}' || c == '\U{2029}' || c == '\U{202F}' || c == '\U{205F}'
    || c == '\U{3000}' || c == '\U{FEFF}'
  }

  /** The class `[a-zA-Z0-9]`. */
  predicate IsAsciiAlnum(c: char) {
    ('a' <= c <= 'z') || ('A' <= c <= 'Z') || ('0' <= c <= '9')
  }

  /** The class `\w`, that is `[a-zA-Z0-9_]`. */
  predicate IsWordChar(c: char) {
    IsAsciiAlnum(c) || c == '_'
  }

  /** `s` holds only whitespace, so that `s.trim()` is the empty (falsy) string. */
  predicate IsBlank(s: string) {
    forall i | 0 <= i < |s| :: IsWhitespace(s[i])
  }

  function TrimStart(s: string): (r: string)
    ensures |r| <= |s| && r == s[|s| - |r|..]
    ensures IsBlank(s[..|s| - |r|])
    ensures r == [] || !IsWhitespace(r[0])
    ensures IsBlank(s) ==> r == []
    decreases |s|
  {
    if s != [] && IsWhitespace(s[0]) then
      var r := TrimStart(s[1..]);
      BlankPrefixStep(s, |s| - |r|);
      r
    else s
  }

  /** A blank prefix of `s[1..]` after a whitespace `s[0]` makes a blank prefix of `s`. */
  lemma BlankPrefixStep(s: string, n: nat)
    requires 1 <= n <= |s| && IsWhitespace(s[0]) && IsBlank(s[1..][..n - 1])
    ensures IsBlank(s[..n])
  {
    forall i | 0 <= i < n ensures IsWhitespace(s[..n][i]) {
      if i > 0 {
        assert s[..n][i] == s[1..][..n - 1][i - 1];
      }
    }
  }

  function TrimEnd(s: string): (r: string)
    ensures |r| <= |s| && r == s[..|r|]
    ensures IsBlank(s[|r|..])
    ensures r == [] || !IsWhitespace(r[|r| - 1])
    decreases |s|
  {
    if s != [] && IsWhitespace(s[|s| - 1]) then
      var r := TrimEnd(s[..|s| - 1]);
      assert s[|r|..] == s[..|s| - 1][|r|..] + [s[|s| - 1]];
      r
    else s
  }

  /** `String.prototype.trim`. */
  function Trim(s: string): string {
    TrimEnd(TrimStart(s))
  }

  /** `s.trim()` is empty exactly when `s` is blank. */
  lemma TrimEmptyIffBlank(s: string)
    ensures Trim(s) == [] <==> IsBlank(s)
  {
    var t := TrimStart(s);
    if Trim(s) == [] {
      assert t[0..] == t;
      assert s == s[..|s| - |t|] + t;
    }
  }

  /** `p` occurs in `s` starting at index `i`. */
  predicate OccursAt(s: string, p: string, i: int) {
    0 <= i && i + |p| <= |s| && s[i..i + |p|] == p
  }

  /** The leftmost occurrence of `p` in `s` at or after index `k`. */
  function IndexFrom(s: string, p: string, k: nat): (r: Option<nat>)
    ensures r.Some? ==> k <= r.value && OccursAt(s, p, r.value)
    ensures r.Some? ==> forall j | k <= j < r.value :: !OccursAt(s, p, j)
    ensures r.None? ==> forall j | k <= j :: !OccursAt(s, p, j)
    decreases |s| - k
  {
    if k + |p| > |s| then None
    else if s[k..k + |p|] == p then Some(k)
    else IndexFrom(s, p, k + 1)
  }

  /** `s.indexOf(p)`, with `None` for -1. */
  function IndexOf(s: string, p: string): Option<nat> {
    IndexFrom(s, p, 0)
  }

  /** `s.includes(p)`. */
  predicate Contains(s: string, p: string) {
    IndexOf(s, p).Some?
  }

  /** `includes` holds exactly when some position of `s` starts an occurrence of `p`. */
  lemma ContainsIff(s: string, p: string)
    ensures Contains(s, p) <==> exists i :: OccursAt(s, p, i)
  {
  }

  /** Every string contains the empty string. */
  lemma ContainsEmpty(s: string)
    ensures Contains(s, "")
  {
    assert OccursAt(s, "", 0);
  }

  /** Every string contains itself. */
  lemma ContainsSelf(s: string)
    ensures Contains(s, s)
  {
    assert OccursAt(s, s, 0);
  }

  /** A substring of `s` stays a substring when text is added on both sides of `s`. */
  lemma ContainsInContext(x: string, s: string, y: string, p: string)
    requires Contains(s, p)
    ensures Contains(x + s + y, p)
  {
    ContainsIff(s, p);
    var i :| OccursAt(s, p, i);
    var whole := x + s + y;
    assert whole[|x| + i..|x| + i + |p|] == s[i..i + |p|];
    assert OccursAt(whole, p, |x| + i);
    ContainsIff(whole, p);
  }

  /** `s.replace(p, q)` with a string pattern: only the leftmost occurrence is replaced. */
  function ReplaceFirst(s: string, p: string, q: string): (r: string)
    ensures !Contains(s, p) ==> r == s
    ensures Contains(s, p) ==> exists i :: OccursAt(s, p, i) && r == s[..i] + q + s[i + |p|..]
                                           && forall j | 0 <= j < i :: !OccursAt(s, p, j)
  {
    match IndexOf(s, p)
    case None => s
    case Some(i) => s[..i] + q + s[i + |p|..]
  }

  /** The index of the first `c` in `s`. */
  function CharIndex(s: string, c: char): (i: nat)
    requires c in s
    ensures i < |s| && s[i] == c
    ensures forall k | 0 <= k < i :: s[k] != c
    decreases |s|
  {
    if s[0] == c then 0
    else
      var j := CharIndex(s[1..], c);
      j + 1
  }

  /** A position holding `c` with no `c` before it is the first index of `c`. */
  lemma CharIndexAt(s: string, c: char, i: nat)
    requires i < |s| && s[i] == c && forall k | 0 <= k < i :: s[k] != c
    ensures CharIndex(s, c) == i
  {
  }

  /** `s.split(c)` for a one-character separator: the maximal `c`-free pieces, in order. */
  function Split(s: string, c: char): (parts: seq<string>)
    ensures |parts| >= 1
    ensures forall k | 0 <= k < |parts| :: c !in parts[k]
    ensures c !in s <==> |parts| == 1
    ensures c in s ==> parts[0] == s[..CharIndex(s, c)]
    ensures c !in s ==> parts[0] == s
    decreases |s|
  {
    if c !in s then [s]
    else
      var i := CharIndex(s, c);
      [s[..i]] + Split(s[i + 1..], c)
  }

  /** `parts.join(sep)`. */
  function Join(parts: seq<string>, sep: string): string
    decreases |parts|
  {
    if |parts| == 0 then ""
    else if |parts| == 1 then parts[0]
    else parts[0] + sep + Join(parts[1..], sep)
  }

  /** One step of `split`: the text before the first `c`, then the pieces of the rest. */
  lemma SplitUnfold(s: string, c: char)
    requires c in s
    ensures Split(s, c) == [s[..CharIndex(s, c)]] + Split(s[CharIndex(s, c) + 1..], c)
  {
  }

  /** Splitting on a character and joining the pieces back with it restores the string. */
  lemma {:induction false} JoinSplit(s: string, c: char)
    ensures Join(Split(s, c), [c]) == s
    decreases |s|
  {
    if c in s {
      var i := CharIndex(s, c);
      JoinSplit(s[i + 1..], c);
      JoinSplitStep(s, c, i, s[i + 1..]);
    }
  }

  /** The inductive step of `JoinSplit`: the first piece, the separator, then the rest rejoined. */
  lemma JoinSplitStep(s: string, c: char, i: nat, tail: string)
    requires c in s && i == CharIndex(s, c) && tail == s[i + 1..]
    requires Join(Split(tail, c), [c]) == tail
    ensures Join(Split(s, c), [c]) == s
  {
    Around(s, i);
    SplitUnfold(s, c);
    JoinStep(s[..i], Split(tail, c), [c], tail);
  }

  /** A string is its text before index `i`, the character at `i`, and the text after it. */
  lemma Around(s: string, i: nat)
    requires i < |s|
    ensures s == s[..i] + [s[i]] + s[i + 1..]
  {
  }

  /** Joining one more piece in front adds it and the separator. */
  lemma JoinStep(first: string, rest: seq<string>, sep: string, tail: string)
    requires |rest| >= 1 && Join(rest, sep) == tail
    ensures Join([first] + rest, sep) == first + sep + tail
  {
    assert ([first] + rest)[1..] == rest;
  }

  /** Each piece is a substring of the joined string. */
  lemma {:induction false} JoinContainsPart(parts: seq<string>, sep: string, k: nat)
    requires k < |parts|
    ensures Contains(Join(parts, sep), parts[k])
    decreases |parts|
  {
    var joined := Join(parts, sep);
    if |parts| == 1 || k == 0 {
      assert joined[0..|parts[0]|] == parts[0];
      assert OccursAt(joined, parts[k], 0);
    } else {
      var rest := Join(parts[1..], sep);
      JoinContainsPart(parts[1..], sep, k - 1);
      ContainsIff(rest, parts[k]);
      var i :| OccursAt(rest, parts[1..][k - 1], i);
      var off := |parts[0]| + |sep|;
      assert joined == parts[0] + sep + rest;
      assert joined[off + i..off + i + |parts[k]|] == rest[i..i + |parts[k]|];
      assert OccursAt(joined, parts[k], off + i);
    }
  }

  /** `s.split(c)[0]`: the text before the first `c`, or all of `s`. */
  function BeforeFirst(s: string, c: char): (r: string)
    ensures c !in r
    ensures |r| <= |s| && r == s[..|r|]
    ensures |r| < |s| ==> s[|r|] == c
  {
    if c in s then s[..CharIndex(s, c)] else s
  }

  /** `BeforeFirst` is the first piece of `split`. */
  lemma BeforeFirstIsSplit(s: string, c: char)
    ensures BeforeFirst(s, c) == Split(s, c)[0]
  {
  }

  /** `split(c)[0]` of a suffix, located in the whole string. */
  lemma BeforeFirstFrom(s: string, c: char, i: nat, f: string)
    requires i <= |s| && f == BeforeFirst(s[i..], c)
    ensures i + |f| <= |s| && s[i..i + |f|] == f
    ensures i + |f| == |s| || s[i + |f|] == c
  {
    PrefixOfSuffix(s, i, s[i..], f, c);
  }

  /**
   * `s.split(c)[1]`: the text after the first `c` up to the next one; `None` when `c` is
   * absent, where JavaScript gives `undefined`.
   */
  function SecondField(s: string, c: char): (r: Option<string>)
    ensures r.None? <==> c !in s
    ensures r.Some? ==> c !in r.value
    ensures c in s ==> r.value == BeforeFirst(s[CharIndex(s, c) + 1..], c)
  {
    if c in s then Some(BeforeFirst(s[CharIndex(s, c) + 1..], c)) else None
  }

  /** A prefix of the suffix of `s` from `off`, followed in it by `c` or its end, located in `s`. */
  lemma PrefixOfSuffix(s: string, off: nat, t: string, f: string, c: char)
    requires off <= |s| && t == s[off..]
    requires |f| <= |t| && f == t[..|f|] && (|f| < |t| ==> t[|f|] == c)
    ensures off + |f| <= |s| && s[off..off + |f|] == f
    ensures off + |f| == |s| || s[off + |f|] == c
  {
    assert s[off..off + |f|] == t[..|f|];
  }

  /** `SecondField` is the second piece of `split`, which exists exactly when `c` occurs. */
  lemma SecondFieldIsSplit(s: string, c: char)
    ensures c in s <==> |Split(s, c)| >= 2
    ensures c in s ==> SecondField(s, c).value == Split(s, c)[1]
  {
    if c in s {
      SplitUnfold(s, c);
      BeforeFirstIsSplit(s[CharIndex(s, c) + 1..], c);
    }
  }

  /** A prefix of a slice of `s` is the slice of `s` of the prefix's length, followed by the slice's next character. */
  lemma PrefixOfSlice(s: string, off: nat, a: string, p: string)
    requires off + |a| <= |s| && s[off..off + |a|] == a
    requires |p| <= |a| && a[..|p|] == p
    ensures off + |p| <= |s| && s[off..off + |p|] == p
    ensures |p| < |a| ==> s[off + |p|] == a[|p|]
  {
    assert s[off..off + |p|] == s[off..off + |a|][..|p|];
  }

  /** The first `d`-free piece of a slice of `s` ends where the slice ends or at a `d`. */
  lemma BeforeFirstInSlice(s: string, off: nat, a: string, c: char, d: char, p: string)
    requires off + |a| <= |s| && s[off..off + |a|] == a
    requires off + |a| == |s| || s[off + |a|] == c
    requires p == BeforeFirst(a, d)
    ensures off + |p| <= |s| && s[off..off + |p|] == p
    ensures off + |p| == |s| || s[off + |p|] == c || s[off + |p|] == d
  {
    PrefixOfSlice(s, off, a, p);
  }

  /** A prefix of a string without `c` has no `c` either. */
  lemma NoCharInPrefix(a: string, p: string, c: char)
    requires c !in a && |p| <= |a| && p == a[..|p|]
    ensures c !in p
  {
    forall k | 0 <= k < |p| ensures p[k] != c {
      assert p[k] == a[k];
    }
  }

  /** The text up to a position that holds `c` (or the end) with no `c` before it is what `split(c)[0]` gives. */
  lemma BeforeFirstAt(s: string, c: char, i: nat)
    requires i <= |s| && (forall k | 0 <= k < i :: s[k] != c) && (i == |s| || s[i] == c)
    ensures BeforeFirst(s, c) == s[..i]
  {
  }

  /** The end of the maximal run of `inClass` characters that starts at `m`. */
  function RunEnd(s: string, m: nat, inClass: char -> bool): (e: nat)
    requires m <= |s|
    ensures m <= e <= |s|
    ensures forall k | m <= k < e :: inClass(s[k])
    ensures e < |s| ==> !inClass(s[e])
    decreases |s| - m
  {
    if m < |s| && inClass(s[m]) then RunEnd(s, m + 1, inClass) else m
  }

  /** JavaScript's `toLowerCase` on one character (ASCII letters only, see the README). */
  function LowerChar(c: char): char {
    if 'A' <= c <= 'Z' then (c as int - 'A' as int + 'a' as int) as char else c
  }

  /** `s.toLowerCase()`. */
  function ToLower(s: string): (r: string)
    ensures |r| == |s|
  {
    seq(|s|, i requires 0 <= i < |s| => LowerChar(s[i]))
  }

  /** Case-insensitive substring test: `a.toLowerCase().includes(b.toLowerCase())`. */
  predicate ContainsIgnoreCase(a: string, b: string) {
    Contains(ToLower(a), ToLower(b))
  }
}
