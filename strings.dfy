/**
 * The few operations of Go's `strings` package that the gate and the
 * provisioner use, over `string` (= `seq<char>`).
 */
module Strings {

  /** Go `strings.HasPrefix`. */
  predicate HasPrefix(s: string, prefix: string)
  {
    |prefix| <= |s| && s[..|prefix|] == prefix
  }

  /** `pat` occurs somewhere in `s` (Go `strings.Contains`). */
  predicate Contains(s: string, pat: string)
    decreases |s|
  {
    HasPrefix(s, pat) || (|s| > 0 && Contains(s[1..], pat))
  }

  /** Go `strings.Index(s, string(c))`: the first index of `c`, or -1. */
  function IndexOf(s: string, c: char): (i: int)
    ensures -1 <= i < |s|
    ensures i == -1 <==> c !in s
    ensures 0 <= i ==> s[i] == c && c !in s[..i]
    decreases |s|
  {
    if |s| == 0 then -1
    else if s[0] == c then 0
    else
      var j := IndexOf(s[1..], c);
      if j == -1 then -1
      else
        assert s[..j + 1] == [s[0]] + s[1..][..j];
        j + 1
  }

  /**
   * Go `strings.Replace(s, pat, rep, -1)`: scan left to right and replace
   * every non-overlapping occurrence of `pat`; the output is not rescanned.
   */
  function ReplaceAll(s: string, pat: string, rep: string): (r: string)
    requires |pat| > 0
    ensures !Contains(s, pat) ==> r == s
    ensures |rep| <= |pat| ==> |r| <= |s|
    decreases |s|
  {
    if |s| == 0 then []
    else if HasPrefix(s, pat) then rep + ReplaceAll(s[|pat|..], pat, rep)
    else [s[0]] + ReplaceAll(s[1..], pat, rep)
  }

  /** An occurrence at the very start is replaced and scanning resumes after it. */
  lemma ReplaceAllAtPrefix(pat: string, s: string, rep: string)
    requires |pat| > 0
    ensures ReplaceAll(pat + s, pat, rep) == rep + ReplaceAll(s, pat, rep)
  {
    assert HasPrefix(pat + s, pat) by { assert (pat + s)[..|pat|] == pat; }
    assert (pat + s)[|pat|..] == s;
  }

  /** A first character that cannot start an occurrence is copied unchanged. */
  lemma ReplaceAllSkipsChar(c: char, rest: string, pat: string, rep: string)
    requires |pat| > 0 && c != pat[0]
    ensures ReplaceAll([c] + rest, pat, rep) == [c] + ReplaceAll(rest, pat, rep)
  {
    var s := [c] + rest;
    assert !HasPrefix(s, pat) by {
      assert |pat| <= |s| ==> s[..|pat|][0] == c;
    }
    assert s[1..] == rest;
  }

  /** In `[c] + pat + w`, with `c` unable to start an occurrence and none in `w`, only `pat` is replaced. */
  lemma ReplaceAllAfterChar(c: char, pat: string, w: string, rep: string)
    requires |pat| > 0 && c != pat[0] && !Contains(w, pat)
    ensures ReplaceAll([c] + (pat + w), pat, rep) == [c] + (rep + w)
  {
    ReplaceAllSkipsChar(c, pat + w, pat, rep);
    ReplaceAllAtPrefix(pat, w, rep);
  }

  /**
   * A prefix `v` without an occurrence, followed by a character `pat` does
   * not contain, is copied unchanged; replacing resumes after it.
   */
  lemma {:induction false} ReplaceAllSkips(v: string, rest: string, pat: string, rep: string)
    requires |pat| > 0 && !Contains(v, pat) && |rest| > 0 && rest[0] !in pat
    ensures ReplaceAll(v + rest, pat, rep) == v + ReplaceAll(rest, pat, rep)
    decreases |v|
  {
    var s := v + rest;
    if |v| == 0 {
      assert s == rest;
    } else {
      assert !HasPrefix(s, pat) by {
        if |pat| <= |v| {
          assert s[..|pat|] == v[..|pat|];
        } else if |pat| <= |s| {
          assert s[..|pat|][|v|] == rest[0];
        }
      }
      assert s[1..] == v[1..] + rest;
      ReplaceAllSkips(v[1..], rest, pat, rep);
    }
  }

  /** Regrouping a chain of five concatenations after its second link. */
  lemma ChainAssoc(a: string, x: string, b: string, y: string, c: string)
    ensures a + x + b + y + c == a + x + (b + y + c)
  {
  }

  /** Regrouping a prefix followed by a chain of five concatenations. */
  lemma PrefixChainAssoc(p: string, a: string, x: string, b: string, y: string, c: string)
    ensures p + a + x + b + y + c == p + (a + x + b + y + c)
  {
  }

  /** A string starts with itself followed by anything. */
  lemma PrefixOfConcat(prefix: string, s: string)
    ensures HasPrefix(prefix + s, prefix)
  {
    assert (prefix + s)[..|prefix|] == prefix;
  }

  /**
   * Both occurrences in `pat, v, c, pat, w` are replaced when `v` and `w`
   * hold none and `c` is no character of `pat`.
   */
  lemma ReplaceAllAroundChar(pat: string, v: string, c: char, w: string, rep: string)
    requires |pat| > 0 && c !in pat && !Contains(v, pat) && !Contains(w, pat)
    ensures ReplaceAll(pat + (v + ([c] + (pat + w))), pat, rep) == rep + (v + ([c] + (rep + w)))
  {
    var tail := [c] + (pat + w);
    ReplaceAllAtPrefix(pat, v + tail, rep);
    ReplaceAllSkips(v, tail, pat, rep);
    ReplaceAllAfterChar(c, pat, w, rep);
  }

  /**
   * A character that `pat` does not contain cannot be part of an occurrence,
   * so `x + [d] + y` contains `pat` only if `x` or `y` does.
   */
  lemma {:induction false} NoOccurrenceAcross(x: string, d: char, y: string, pat: string)
    requires |pat| > 0 && d !in pat
    requires !Contains(x, pat) && !Contains(y, pat)
    ensures !Contains(x + [d] + y, pat)
    decreases |x|
  {
    var s := x + [d] + y;
    if |x| == 0 {
      assert s[1..] == y;
      if |pat| <= |s| {
        assert s[..|pat|][0] == d;
      }
    } else {
      assert s[1..] == x[1..] + [d] + y;
      NoOccurrenceAcross(x[1..], d, y, pat);
      if |pat| <= |x| {
        assert s[..|pat|] == x[..|pat|];
      } else {
        assert s[|x|] == d;
      }
    }
  }

  /** Go `strings.Split(s, string(sep))`: always at least one part, none holding `sep`. */
  function Split(s: string, sep: char): (parts: seq<string>)
    ensures |parts| >= 1
    ensures forall i :: 0 <= i < |parts| ==> sep !in parts[i]
    decreases |s|
  {
    if |s| == 0 then [""]
    else
      var rest := Split(s[1..], sep);
      if s[0] == sep then [""] + rest
      else [[s[0]] + rest[0]] + rest[1..]
  }

  /** Go `strings.Join(parts, string(sep))`. */
  function Join(parts: seq<string>, sep: char): string
    decreases |parts|
  {
    if |parts| == 0 then ""
    else if |parts| == 1 then parts[0]
    else parts[0] + [sep] + Join(parts[1..], sep)
  }

  /** How many times `c` occurs in `s`. */
  function Count(s: string, c: char): nat
    decreases |s|
  {
    if |s| == 0 then 0 else (if s[0] == c then 1 else 0) + Count(s[1..], c)
  }

  /** A string without the separator is one part. */
  lemma {:induction false} SplitWithoutSeparator(s: string, sep: char)
    requires sep !in s
    ensures Split(s, sep) == [s]
    decreases |s|
  {
    if |s| > 0 {
      SplitWithoutSeparator(s[1..], sep);
      assert [s[0]] + s[1..] == s;
    }
  }

  /** Splitting stops at the first separator. */
  lemma {:induction false} SplitAtFirstSeparator(x: string, sep: char, y: string)
    requires sep !in x
    ensures Split(x + [sep] + y, sep) == [x] + Split(y, sep)
    decreases |x|
  {
    var s := x + [sep] + y;
    if |x| == 0 {
      assert s[1..] == y;
    } else {
      assert s[1..] == x[1..] + [sep] + y;
      SplitAtFirstSeparator(x[1..], sep, y);
      assert [x[0]] + x[1..] == x;
    }
  }

  /** Split undoes Join when no part holds the separator. */
  lemma {:induction false} SplitJoin(parts: seq<string>, sep: char)
    requires |parts| >= 1
    requires forall i :: 0 <= i < |parts| ==> sep !in parts[i]
    ensures Split(Join(parts, sep), sep) == parts
    decreases |parts|
  {
    if |parts| == 1 {
      SplitWithoutSeparator(parts[0], sep);
    } else {
      SplitJoin(parts[1..], sep);
      SplitAtFirstSeparator(parts[0], sep, Join(parts[1..], sep));
      assert [parts[0]] + parts[1..] == parts;
    }
  }

  /** Join undoes Split on every string. */
  lemma {:induction false} JoinSplit(s: string, sep: char)
    ensures Join(Split(s, sep), sep) == s
    decreases |s|
  {
    if |s| > 0 {
      var rest := Split(s[1..], sep);
      JoinSplit(s[1..], sep);
      if s[0] == sep {
        assert Split(s, sep) == [""] + rest;
        assert ([""] + rest)[1..] == rest;
        assert s == [sep] + s[1..];
      } else {
        var parts := [[s[0]] + rest[0]] + rest[1..];
        assert Split(s, sep) == parts;
        assert parts[1..] == rest[1..];
        if |rest| == 1 {
          assert s == [s[0]] + rest[0];
        } else {
          assert Join(rest, sep) == rest[0] + [sep] + Join(rest[1..], sep);
          assert s == [s[0]] + s[1..];
        }
      }
    }
  }

  /** The number of parts is one more than the number of separators. */
  lemma {:induction false} SplitCount(s: string, sep: char)
    ensures |Split(s, sep)| == Count(s, sep) + 1
    decreases |s|
  {
    if |s| > 0 {
      SplitCount(s[1..], sep);
    }
  }

  /** ASCII lower-casing of one character. */
  function LowerChar(c: char): char
  {
    if 'A' <= c <= 'Z' then (c as int + 32) as char else c
  }

  /** ASCII lower-casing, character by character. */
  function ToLowerAscii(s: string): (r: string)
    ensures |r| == |s|
    decreases |s|
  {
    if |s| == 0 then [] else [LowerChar(s[0])] + ToLowerAscii(s[1..])
  }

  /** Lower-casing maps position `i` of `s` to `LowerChar(s[i])`. */
  lemma {:induction false} ToLowerAsciiAt(s: string, i: nat)
    requires i < |s|
    ensures ToLowerAscii(s)[i] == LowerChar(s[i])
    decreases |s|
  {
    if i > 0 {
      ToLowerAsciiAt(s[1..], i - 1);
    }
  }

  /** A character that is not an upper-case letter occurs in `s` iff it occurs in its lower-cased form. */
  lemma LowerKeepsNonLetter(s: string, c: char)
    requires !('A' <= c <= 'Z') && !('a' <= c <= 'z')
    ensures c in ToLowerAscii(s) <==> c in s
  {
    var r := ToLowerAscii(s);
    if c in s {
      var i :| 0 <= i < |s| && s[i] == c;
      ToLowerAsciiAt(s, i);
    }
    if c in r {
      var i :| 0 <= i < |r| && r[i] == c;
      ToLowerAsciiAt(s, i);
    }
  }
}
