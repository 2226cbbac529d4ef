/**
 * The few java.lang.String / StringBuilder / StringJoiner operations the core uses,
 * over Dafny strings (seq<char>). Case conversion covers ASCII letters only.
 */
module JavaStrings {

  /** Character.toLowerCase, restricted to ASCII letters. */
  function ToLower(c: char): (r: char)
    ensures 'A' <= c <= 'Z' ==> r as int == c as int + 32
    ensures !('A' <= c <= 'Z') ==> r == c
  {
    if 'A' <= c <= 'Z' then (c as int + 32) as char else c
  }

  /** Character.toUpperCase (String.toUpperCase(Locale.US) on one character), ASCII letters only. */
  function ToUpper(c: char): (r: char)
    ensures 'a' <= c <= 'z' ==> r as int == c as int - 32
    ensures !('a' <= c <= 'z') ==> r == c
  {
    if 'a' <= c <= 'z' then (c as int - 32) as char else c
  }

  /** True if `t` occurs in `s` starting at position `i`. */
  predicate OccursAt(s: string, t: string, i: nat)
  {
    i + |t| <= |s| && s[i..i + |t|] == t
  }

  /** String.contains. */
  predicate Contains(s: string, t: string)
  {
    exists i: nat | i <= |s| :: OccursAt(s, t, i)
  }

  /** String.indexOf(t, from): the first occurrence of `t` at or after `from`, or -1. */
  function IndexOfFrom(s: string, t: string, from: nat): (r: int)
    requires |t| > 0
    ensures r == -1 || from <= r <= |s| - |t|
    ensures r >= 0 ==> OccursAt(s, t, r)
    ensures forall i: nat :: from <= i && (r == -1 || i < r) ==> !OccursAt(s, t, i)
    decreases |s| - from
  {
    if from + |t| > |s| then -1
    else if s[from..from + |t|] == t then from
    else IndexOfFrom(s, t, from + 1)
  }

  /** String.indexOf(t). */
  function IndexOf(s: string, t: string): (r: int)
    requires |t| > 0
    ensures r == -1 || 0 <= r <= |s| - |t|
    ensures r >= 0 ==> OccursAt(s, t, r)
    ensures forall i: nat :: (r == -1 || i < r) ==> !OccursAt(s, t, i)
    ensures r >= 0 <==> Contains(s, t)
  {
    IndexOfFrom(s, t, 0)
  }

  /** StringBuilder.indexOf with a one-character string: the first `c` at or after `from`, or -1. */
  function IndexOfCharFrom(s: string, c: char, from: nat): (r: int)
    ensures r == -1 || from <= r < |s|
    ensures r >= 0 ==> s[r] == c
    ensures forall i :: from <= i < |s| && (r == -1 || i < r) ==> s[i] != c
    decreases |s| - from
  {
    if from >= |s| then -1
    else if s[from] == c then from
    else IndexOfCharFrom(s, c, from + 1)
  }

  /** String.replace(from, to) on single characters (the regex "\\." of replaceAll matches a literal dot). */
  function ReplaceChar(s: string, from: char, to: char): (r: string)
    ensures |r| == |s|
    ensures forall i :: 0 <= i < |s| ==> r[i] == (if s[i] == from then to else s[i])
  {
    if s == [] then [] else [if s[0] == from then to else s[0]] + ReplaceChar(s[1..], from, to)
  }

  /** StringJoiner(separator) with no prefix or suffix. */
  function Join(parts: seq<string>, separator: string): (r: string)
    ensures parts == [] ==> r == []
    ensures |parts| == 1 ==> r == parts[0]
  {
    if parts == [] then []
    else if |parts| == 1 then parts[0]
    else parts[0] + separator + Join(parts[1..], separator)
  }

  /** StringJoiner(separator, prefix, suffix).toString() with the default empty value. */
  function Joined(parts: seq<string>, separator: string, prefix: string, suffix: string): string
  {
    prefix + Join(parts, separator) + suffix
  }

  /** The joined text starts with the prefix, ends with the suffix, and is just those two for no parts. */
  lemma JoinedAffixes(parts: seq<string>, separator: string, prefix: string, suffix: string)
    ensures var r := Joined(parts, separator, prefix, suffix);
            |prefix| + |suffix| <= |r| &&
            r[..|prefix|] == prefix && r[|r| - |suffix|..] == suffix &&
            (parts == [] ==> r == prefix + suffix)
  {
    var r := Joined(parts, separator, prefix, suffix);
    assert r == prefix + (Join(parts, separator) + suffix);
  }

  /** The contents of a StringBuilder after appending every part in order. */
  function Concat(parts: seq<string>): string
  {
    if parts == [] then [] else parts[0] + Concat(parts[1..])
  }

  lemma {:induction false} ConcatAppend(a: seq<string>, b: seq<string>)
    ensures Concat(a + b) == Concat(a) + Concat(b)
  {
    if a == [] {
      assert a + b == b;
    } else {
      assert (a + b)[0] == a[0];
      assert (a + b)[1..] == a[1..] + b;
      ConcatAppend(a[1..], b);
    }
  }

  /** Appending one more part to a buffer that holds the parts so far. */
  lemma ConcatStep(out: string, done: seq<string>, next: string)
    ensures out + Concat(done) + next == out + Concat(done + [next])
  {
    ConcatAppend(done, [next]);
    assert Concat([next]) == next + Concat([]);
  }

  /** String.trim().isEmpty(): every character is at most U+0020. */
  predicate TrimmedIsEmpty(s: string)
  {
    forall i :: 0 <= i < |s| ==> s[i] <= ' '
  }
}
