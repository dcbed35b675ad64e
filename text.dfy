/** The string operations the handler uses: `str.strip()`, the lower-casing used
    for the reset keyword, and `"\n".join(...)` together with its inverse,
    splitting on newlines. */
module PyText {

  /** The characters for which Python's `str.isspace()` holds: the ones that
      `str.strip()` with no argument removes. */
  const Whitespace: set<char> := {
    '\t', '\n', '\U{0B}', '\U{0C}', '\r', '\U{1C}', '\U{1D}', '\U{1E}', '\U{1F}', ' ',
    '\U{85}', '\U{A0}', '\U{1680}',
    '\U{2000}', '\U{2001}', '\U{2002}', '\U{2003}', '\U{2004}', '\U{2005}',
    '\U{2006}', '\U{2007}', '\U{2008}', '\U{2009}', '\U{200A}',
    '\U{2028}', '\U{2029}', '\U{202F}', '\U{205F}', '\U{3000}'
  }

  /** Every character of `s` is one of `chars`. */
  predicate AllIn(s: string, chars: set<char>)
  {
    forall i :: 0 <= i < |s| ==> s[i] in chars
  }

  /** `s.lstrip(chars)` */
  function StripLeft(s: string, chars: set<char>): string
  {
    if s != [] && s[0] in chars then StripLeft(s[1..], chars) else s
  }

  /** `s.rstrip(chars)` */
  function StripRight(s: string, chars: set<char>): string
  {
    if s != [] && s[|s| - 1] in chars then StripRight(s[..|s| - 1], chars) else s
  }

  /** `s.strip(chars)` */
  function StripChars(s: string, chars: set<char>): string
  {
    StripRight(StripLeft(s, chars), chars)
  }

  /** `s.strip()`: `s` without its leading and trailing whitespace. */
  function Strip(s: string): string
  {
    StripChars(s, Whitespace)
  }

  /** `StripLeft` removes a prefix of `chars` and stops at the first other
      character. */
  lemma {:induction false} StripLeftOf(pre: string, rest: string, chars: set<char>)
    requires AllIn(pre, chars)
    requires rest == [] || rest[0] !in chars
    ensures StripLeft(pre + rest, chars) == rest
  {
    if pre != [] {
      assert (pre + rest)[1..] == pre[1..] + rest;
      StripLeftOf(pre[1..], rest, chars);
    }
  }

  /** `StripRight` removes a suffix of `chars` and stops at the last other
      character. */
  lemma {:induction false} StripRightOf(rest: string, post: string, chars: set<char>)
    requires AllIn(post, chars)
    requires rest == [] || rest[|rest| - 1] !in chars
    ensures StripRight(rest + post, chars) == rest
  {
    if post != [] {
      var s := rest + post;
      assert s[..|s| - 1] == rest + post[..|post| - 1];
      StripRightOf(rest, post[..|post| - 1], chars);
    } else {
      assert rest + post == rest;
    }
  }

  /** Stripping is determined by what it keeps: whatever characters of `chars`
      surround a core that neither starts nor ends with one of them,
      `StripChars` returns the core. */
  lemma StripRecoversCore(pre: string, core: string, post: string, chars: set<char>)
    requires AllIn(pre, chars) && AllIn(post, chars)
    requires core == [] || (core[0] !in chars && core[|core| - 1] !in chars)
    ensures StripChars(pre + core + post, chars) == core
  {
    var s := pre + core + post;
    if core == [] {
      assert AllIn(pre + post, chars) by {
        forall k | 0 <= k < |pre + post| ensures (pre + post)[k] in chars {
          if k < |pre| { assert (pre + post)[k] == pre[k]; }
          else { assert (pre + post)[k] == post[k - |pre|]; }
        }
      }
      assert s == (pre + post) + [];
      StripLeftOf(pre + post, [], chars);
    } else {
      assert s == pre + (core + post);
      StripLeftOf(pre, core + post, chars);
      StripRightOf(core, post, chars);
    }
  }

  /** How many characters `StripLeft` cuts off. */
  lemma {:induction false} LeftCut(s: string, chars: set<char>) returns (i: nat)
    ensures i <= |s| && StripLeft(s, chars) == s[i..] && AllIn(s[..i], chars)
    ensures i < |s| ==> s[i] !in chars
  {
    if s != [] && s[0] in chars {
      var k := LeftCut(s[1..], chars);
      i := k + 1;
      assert s[..i] == [s[0]] + s[1..][..k];
    } else {
      i := 0;
    }
  }

  /** How many characters `StripRight` cuts off. */
  lemma {:induction false} RightCut(s: string, chars: set<char>) returns (k: nat)
    ensures k <= |s| && StripRight(s, chars) == s[..|s| - k] && AllIn(s[|s| - k..], chars)
    ensures k < |s| ==> s[|s| - 1 - k] !in chars
  {
    if s != [] && s[|s| - 1] in chars {
      var m := RightCut(s[..|s| - 1], chars);
      k := m + 1;
      assert s[|s| - k..] == s[..|s| - 1][|s| - 1 - m..] + [s[|s| - 1]];
    } else {
      k := 0;
    }
  }

  /** What `StripChars` keeps is a piece of `s` with only characters of
      `chars` cut off on either side, and it neither starts nor ends with one. */
  lemma StripIsTrim(s: string, chars: set<char>)
    ensures var r := StripChars(s, chars);
      && (r == [] || (r[0] !in chars && r[|r| - 1] !in chars))
      && exists i, j :: 0 <= i <= j <= |s| && r == s[i..j] && AllIn(s[..i], chars) && AllIn(s[j..], chars)
  {
    var i := LeftCut(s, chars);
    var u := s[i..];
    var k := RightCut(u, chars);
    var j := i + |u| - k;
    var r := StripChars(s, chars);
    assert r == u[..|u| - k] == s[i..j];
    assert s[j..] == u[|u| - k..];
    assert r != [] ==> r[0] == s[i] && r[|r| - 1] == u[|u| - 1 - k];
    assert 0 <= i <= j <= |s| && r == s[i..j] && AllIn(s[..i], chars) && AllIn(s[j..], chars);
  }

  /** Lower-casing of one character, ASCII letters only. */
  function LowerChar(ch: char): char
  {
    if 'A' <= ch <= 'Z' then (ch as int - 'A' as int + 'a' as int) as char else ch
  }

  /** `s.lower() == word` for a `word` of lower-case ASCII letters. Only the
      ASCII letters `A`-`Z` lower-case to ASCII letters (apart from the Kelvin
      sign, which becomes `k`), so ASCII lower-casing gives the same answer as
      Python's full `lower()` whenever `word` has no `k`. */
  predicate LowerEquals(s: string, word: string)
  {
    |s| == |word| && forall i :: 0 <= i < |s| ==> LowerChar(s[i]) == word[i]
  }

  /** `"\n".join(lines)`. */
  function Join(lines: seq<string>): string
  {
    if |lines| == 0 then ""
    else if |lines| == 1 then lines[0]
    else lines[0] + "\n" + Join(lines[1..])
  }

  /** Joining one more line at the end puts one newline before it. */
  lemma {:induction false} JoinSnoc(lines: seq<string>, x: string)
    requires lines != []
    ensures Join(lines + [x]) == Join(lines) + "\n" + x
  {
    if |lines| == 1 {
      assert (lines + [x])[1..] == [x];
    } else {
      assert (lines + [x])[1..] == lines[1..] + [x];
      JoinSnoc(lines[1..], x);
    }
  }

  /** Index of the first newline in `s`, or `|s|` when there is none. */
  function FirstNewline(s: string): (i: nat)
    ensures i <= |s|
    ensures '\n' !in s[..i]
    ensures i < |s| ==> s[i] == '\n'
  {
    if s == [] then 0
    else if s[0] == '\n' then 0
    else
      var k := FirstNewline(s[1..]);
      assert s[..1 + k] == [s[0]] + s[1..][..k];
      1 + k
  }

  /** `s.split("\n")`: the pieces of `s` between newlines. */
  function SplitLines(s: string): seq<string>
    decreases |s|
  {
    var i := FirstNewline(s);
    if i == |s| then [s] else [s[..i]] + SplitLines(s[i + 1..])
  }

  /** The newline found first in `a + "\n" + b` is the one after `a`. */
  lemma {:induction false} FirstNewlineAfter(a: string, b: string)
    requires '\n' !in a
    ensures FirstNewline(a + "\n" + b) == |a|
  {
    if a != [] {
      assert (a + "\n" + b)[1..] == a[1..] + "\n" + b;
      FirstNewlineAfter(a[1..], b);
    }
  }

  /** Splitting undoes joining, as long as no line contains a newline itself. */
  lemma {:induction false} SplitJoin(lines: seq<string>)
    requires lines != []
    requires forall k :: 0 <= k < |lines| ==> '\n' !in lines[k]
    ensures SplitLines(Join(lines)) == lines
  {
    if |lines| == 1 {
      assert '\n' !in lines[0];
    } else {
      var a, b := lines[0], Join(lines[1..]);
      FirstNewlineAfter(a, b);
      var s := a + "\n" + b;
      assert s[..|a|] == a && s[|a| + 1..] == b;
      SplitJoin(lines[1..]);
    }
  }
}
