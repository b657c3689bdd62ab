/**
 * The string operations the discovery code applies to names, descriptions
 * and URLs: ASCII lower-casing, Python's substring test `pat in text`,
 * `str.replace`, `str.split(sep)[0]`, `str.split(sep)[-1]`, `str.endswith`
 * and `str(int)`.
 */
module Text {

  function LowerChar(c: char): char {
    if 'A' <= c <= 'Z' then (c as int + 32) as char else c
  }

  /** `s.lower()`, for ASCII letters (other characters are left unchanged). */
  function Lower(s: string): string {
    seq(|s|, i requires 0 <= i < |s| => LowerChar(s[i]))
  }

  /** Python's `pat in text` on two strings; the empty pattern occurs everywhere. */
  predicate Contains(text: string, pat: string)
    decreases |text|
  {
    pat <= text || (|text| > 0 && Contains(text[1..], pat))
  }

  /** An occurrence of `pat` at position `i` makes `pat in text` true. */
  lemma {:induction false} ContainsAt(text: string, pat: string, i: nat)
    requires i + |pat| <= |text| && text[i..i + |pat|] == pat
    ensures Contains(text, pat)
    decreases i
  {
    if i == 0 {
      assert pat <= text;
    } else {
      assert text[1..][i - 1..i - 1 + |pat|] == text[i..i + |pat|];
      ContainsAt(text[1..], pat, i - 1);
    }
  }

  /** A pattern that starts the suffix at position `p` occurs in the text. */
  lemma PrefixOccurs(text: string, p: nat, pat: string)
    requires p <= |text| && pat <= text[p..]
    ensures Contains(text, pat)
  {
    assert text[p..p + |pat|] == pat;
    ContainsAt(text, pat, p);
  }

  /** Conversely, `pat in text` means that `pat` occurs at some position. */
  lemma {:induction false} ContainsWitness(text: string, pat: string) returns (i: nat)
    requires Contains(text, pat)
    ensures i + |pat| <= |text| && text[i..i + |pat|] == pat
    decreases |text|
  {
    if pat <= text {
      i := 0;
    } else {
      var j := ContainsWitness(text[1..], pat);
      assert text[1..][j..j + |pat|] == text[j + 1..j + 1 + |pat|];
      i := j + 1;
    }
  }

  /** A text that contains `pat` still contains it with anything put around it. */
  lemma ContainsInside(pre: string, text: string, post: string, pat: string)
    requires Contains(text, pat)
    ensures Contains(pre + text + post, pat)
  {
    var i := ContainsWitness(text, pat);
    assert (pre + text + post)[|pre| + i..|pre| + i + |pat|] == text[i..i + |pat|];
    ContainsAt(pre + text + post, pat, |pre| + i);
  }

  /** Every character of a pattern that occurs in a text occurs in the text;
      so a pattern with a character the text lacks does not occur in it. */
  lemma CharOfOccurrence(text: string, pat: string, k: nat)
    requires k < |pat|
    ensures Contains(text, pat) ==> pat[k] in text
  {
    if Contains(text, pat) {
      var i := ContainsWitness(text, pat);
      assert text[i..i + |pat|][k] == text[i + k];
    }
  }

  /** `s.replace(old, new)`: every non-overlapping occurrence of `old`, scanned
      from the left, is replaced by `new`. */
  function ReplaceAll(s: string, target: string, repl: string): string
    requires |target| > 0
    decreases |s|
  {
    if s == [] then []
    else if target <= s then repl + ReplaceAll(s[|target|..], target, repl)
    else [s[0]] + ReplaceAll(s[1..], target, repl)
  }

  /** A string without `old` is returned unchanged. */
  lemma {:induction false} ReplaceAbsent(s: string, target: string, repl: string)
    requires |target| > 0 && !Contains(s, target)
    ensures ReplaceAll(s, target, repl) == s
    decreases |s|
  {
    if s != [] {
      ReplaceAbsent(s[1..], target, repl);
      assert [s[0]] + s[1..] == s;
    }
  }

  /** The leftmost occurrence of `old` becomes `new`; the text before it is kept
      and the text after it is processed in turn. */
  lemma {:induction false} ReplaceLeftmost(pre: string, target: string, repl: string, rest: string)
    requires |target| > 0
    requires forall i :: 0 <= i < |pre| ==> !(target <= (pre + target + rest)[i..])
    ensures ReplaceAll(pre + target + rest, target, repl) == pre + repl + ReplaceAll(rest, target, repl)
    decreases |pre|
  {
    var s := pre + target + rest;
    if pre == [] {
      assert s == target + rest;
      assert target <= s;
      assert s[|target|..] == rest;
    } else {
      assert !(target <= s[0..]);
      assert s[0..] == s;
      assert s[1..] == pre[1..] + target + rest;
      forall i | 0 <= i < |pre[1..]|
        ensures !(target <= (pre[1..] + target + rest)[i..])
      {
        assert (pre[1..] + target + rest)[i..] == s[i + 1..];
      }
      ReplaceLeftmost(pre[1..], target, repl, rest);
      assert [s[0]] + (pre[1..] + repl + ReplaceAll(rest, target, repl)) == pre + repl + ReplaceAll(rest, target, repl);
    }
  }

  /** Replacing a string by itself changes nothing. */
  lemma {:induction false} ReplaceBySelf(s: string, target: string)
    requires |target| > 0
    ensures ReplaceAll(s, target, target) == s
    decreases |s|
  {
    if s != [] {
      if target <= s {
        ReplaceBySelf(s[|target|..], target);
        assert target + s[|target|..] == s;
      } else {
        ReplaceBySelf(s[1..], target);
        assert [s[0]] + s[1..] == s;
      }
    }
  }

  /** `s.split(sep)[0]`: the longest prefix of `s` without `sep`. */
  function SplitFirst(s: string, sep: char): (r: string)
    ensures r <= s && sep !in r
    ensures |r| < |s| ==> s[|r|] == sep
    decreases |s|
  {
    if s == [] || s[0] == sep then [] else [s[0]] + SplitFirst(s[1..], sep)
  }

  /** The first segment of `a + b` is `a` when `a` has no `sep` and `b` is
      empty or starts with one. */
  lemma {:induction false} SplitFirstOf(a: string, b: string, sep: char)
    requires sep !in a && (b == [] || b[0] == sep)
    ensures SplitFirst(a + b, sep) == a
    decreases |a|
  {
    if a != [] {
      assert (a + b)[1..] == a[1..] + b;
      SplitFirstOf(a[1..], b, sep);
      assert a == [a[0]] + a[1..];
    } else {
      assert a + b == b;
    }
  }

  /** `s.split(sep)[-1]`: the longest suffix of `s` without `sep`. */
  function LastSegment(s: string, sep: char): (r: string)
    ensures |r| <= |s| && r == s[|s| - |r|..] && sep !in r
    ensures |r| < |s| ==> s[|s| - |r| - 1] == sep
    decreases |s|
  {
    if s == [] || s[|s| - 1] == sep then [] else LastSegment(s[..|s| - 1], sep) + [s[|s| - 1]]
  }

  /** The last segment of `a + [sep] + b` is `b` when `b` has no `sep`. */
  lemma {:induction false} LastSegmentAfter(a: string, sep: char, b: string)
    requires sep !in b
    ensures LastSegment(a + [sep] + b, sep) == b
    decreases |b|
  {
    var s := a + [sep] + b;
    if b != [] {
      var init := b[..|b| - 1];
      assert s[..|s| - 1] == a + [sep] + init;
      LastSegmentAfter(a, sep, init);
      assert b == init + [b[|b| - 1]];
    }
  }

  /** `s.endswith(suffix)` */
  predicate EndsWith(s: string, suffix: string) {
    |suffix| <= |s| && s[|s| - |suffix|..] == suffix
  }

  function DigitChar(d: nat): char
    requires d < 10
  {
    ('0' as int + d) as char
  }

  /** `str(n)` for a natural number: its decimal digits. */
  function NatToString(n: nat): (r: string)
    ensures |r| > 0 && forall i :: 0 <= i < |r| ==> '0' <= r[i] <= '9'
    ensures n >= 10 ==> |r| >= 2
    decreases n
  {
    if n < 10 then [DigitChar(n)] else NatToString(n / 10) + [DigitChar(n % 10)]
  }

  /** `str(i)` for an integer. */
  function IntToString(i: int): string {
    if i < 0 then "-" + NatToString(-i) else NatToString(i)
  }

  /** Different numbers have different decimal forms. */
  lemma {:induction false} NatToStringInjective(a: nat, b: nat)
    ensures NatToString(a) == NatToString(b) <==> a == b
    decreases a
  {
    if a >= 10 && b >= 10 {
      NatToStringInjective(a / 10, b / 10);
      if NatToString(a) == NatToString(b) {
        var s := NatToString(a);
        assert DigitChar(a % 10) == s[|s| - 1] == DigitChar(b % 10);
        assert NatToString(a / 10) == s[..|s| - 1] == NatToString(b / 10);
      }
    }
  }

  /** Different integers have different `str()` forms. */
  lemma IntToStringInjective(a: int, b: int)
    ensures IntToString(a) == IntToString(b) <==> a == b
  {
    if a < 0 && b < 0 {
      NatToStringInjective(-a, -b);
      if IntToString(a) == IntToString(b) {
        assert NatToString(-a) == IntToString(a)[1..] == NatToString(-b);
      }
    } else if a >= 0 && b >= 0 {
      NatToStringInjective(a, b);
    } else if a < 0 {
      assert IntToString(a)[0] == '-' != NatToString(b)[0];
    } else {
      assert IntToString(b)[0] == '-' != NatToString(a)[0];
    }
  }

  /** No `str()` of an integer contains a colon. */
  lemma IntToStringHasNoColon(i: int)
    ensures ':' !in IntToString(i)
  {
    var s := IntToString(i);
    if i >= 0 {
      assert forall k :: 0 <= k < |s| ==> s[k] != ':';
    } else {
      var d := NatToString(-i);
      assert s == "-" + d;
      assert forall k :: 0 <= k < |s| ==> s[k] != ':' by {
        forall k | 0 <= k < |s| ensures s[k] != ':' {
          if k > 0 { assert s[k] == d[k - 1]; }
        }
      }
    }
  }
}
