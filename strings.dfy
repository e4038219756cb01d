/** The parts of Python's `str` behaviour that the bot relies on, over
    `seq<char>`: `in`, `startswith`/`endswith`, `replace`, `split` on one
    character, `join`, `strip`/`lstrip`/`rstrip`, `lower` (ASCII letters) and
    `str`/`int` on non-negative decimal numbers. */
module Strings {

  /** `s.startswith(p)` */
  predicate StartsWith(s: string, p: string) {
    p <= s
  }

  /** `s.endswith(p)` */
  predicate EndsWith(s: string, p: string) {
    |p| <= |s| && s[|s| - |p|..] == p
  }

  /** `sub in s` */
  predicate Contains(s: string, sub: string)
    decreases |s|
  {
    sub <= s || (|s| > 0 && Contains(s[1..], sub))
  }

  lemma {:induction false} ContainsNeedsRoom(s: string, sub: string)
    requires Contains(s, sub)
    ensures |sub| <= |s|
    decreases |s|
  {
    if !(sub <= s) {
      ContainsNeedsRoom(s[1..], sub);
    }
  }

  /** A one-character `sub in s` is membership of that character. */
  lemma {:induction false} ContainsChar(s: string, c: char)
    ensures Contains(s, [c]) <==> c in s
    decreases |s|
  {
    if |s| > 0 {
      ContainsChar(s[1..], c);
      assert s == [s[0]] + s[1..];
    }
  }

  /** `s.replace(pat, rep)`: every non-overlapping occurrence of `pat`,
      scanning from the left, is replaced by `rep`. */
  function ReplaceAll(s: string, pat: string, rep: string): string
    requires |pat| > 0
    decreases |s|
  {
    if |s| < |pat| then s
    else if s[..|pat|] == pat then rep + ReplaceAll(s[|pat|..], pat, rep)
    else [s[0]] + ReplaceAll(s[1..], pat, rep)
  }

  /** Replacing a pattern that does not occur changes nothing. */
  lemma {:induction false} ReplaceAbsent(s: string, pat: string, rep: string)
    requires |pat| > 0 && !Contains(s, pat)
    ensures ReplaceAll(s, pat, rep) == s
    decreases |s|
  {
    if |s| >= |pat| {
      assert s[..|pat|] != pat;
      ReplaceAbsent(s[1..], pat, rep);
      assert s == [s[0]] + s[1..];
    }
  }

  /** Removing a one-character pattern leaves no occurrence of it. */
  lemma {:induction false} RemoveCharGone(s: string, c: char)
    ensures c !in ReplaceAll(s, [c], "")
    decreases |s|
  {
    if |s| >= 1 {
      RemoveCharGone(s[1..], c);
    }
  }

  lemma {:induction false} RemovePairKeepsHead(s: string, c: char)
    requires |s| > 0 && s[0] != c
    ensures var r := ReplaceAll(s, [c, c], ""); |r| > 0 && r[0] == s[0]
  {
  }

  /** Removing every "cc" (for instance every "//") leaves no "cc" behind,
      even where the input had runs of three or more. */
  lemma {:induction false} RemovePairGone(s: string, c: char)
    ensures !Contains(ReplaceAll(s, [c, c], ""), [c, c])
    decreases |s|
  {
    var r := ReplaceAll(s, [c, c], "");
    if |s| < 2 {
      if Contains(r, [c, c]) {
        ContainsNeedsRoom(r, [c, c]);
      }
    } else if s[..2] == [c, c] {
      assert r == ReplaceAll(s[2..], [c, c], "");
      RemovePairGone(s[2..], c);
    } else {
      var tail := ReplaceAll(s[1..], [c, c], "");
      RemovePairGone(s[1..], c);
      assert r == [s[0]] + tail;
      assert r[1..] == tail;
      if s[0] == c {
        assert s[1] != c;
        RemovePairKeepsHead(s[1..], c);
      }
      assert !([c, c] <= r);
    }
  }

  /** `"".join`-style concatenation with a separator: `sep.join(parts)`. */
  function Join(sep: string, parts: seq<string>): string
    decreases |parts|
  {
    if |parts| == 0 then ""
    else if |parts| == 1 then parts[0]
    else parts[0] + sep + Join(sep, parts[1..])
  }

  /** With a non-empty separator the join is empty exactly when there is
      nothing to join or the only part is empty. */
  lemma JoinEmpty(sep: string, parts: seq<string>)
    requires |sep| > 0
    ensures Join(sep, parts) == "" <==> (|parts| == 0 || (|parts| == 1 && parts[0] == ""))
  {
    if |parts| > 1 {
      assert |Join(sep, parts)| >= |sep|;
    }
  }

  /** `s.split(c)`: the pieces between occurrences of `c`, in order. */
  function Split(s: string, c: char): (parts: seq<string>)
    ensures |parts| > 0
    decreases |s|
  {
    if |s| == 0 then [""]
    else
      var rest := Split(s[1..], c);
      if s[0] == c then [""] + rest
      else [[s[0]] + rest[0]] + rest[1..]
  }

  /** There is one more piece than there are separators. */
  lemma {:induction false} SplitCount(s: string, c: char)
    ensures |Split(s, c)| == multiset(s)[c] + 1
    decreases |s|
  {
    if |s| > 0 {
      SplitCount(s[1..], c);
      assert s == [s[0]] + s[1..];
      assert multiset(s) == multiset([s[0]]) + multiset(s[1..]);
    }
  }

  /** No piece contains the separator. */
  lemma {:induction false} SplitPieces(s: string, c: char)
    ensures forall i :: 0 <= i < |Split(s, c)| ==> c !in Split(s, c)[i]
    decreases |s|
  {
    if |s| > 0 {
      SplitPieces(s[1..], c);
    }
  }

  /** Joining the pieces with the separator gives back the string. */
  lemma {:induction false} SplitJoin(s: string, c: char)
    ensures Join([c], Split(s, c)) == s
    decreases |s|
  {
    if |s| > 0 {
      var rest := Split(s[1..], c);
      SplitJoin(s[1..], c);
      assert s == [s[0]] + s[1..];
      if s[0] == c {
        assert Split(s, c) == [""] + rest;
        assert Join([c], [""] + rest) == "" + [c] + Join([c], rest);
      } else {
        var parts := [[s[0]] + rest[0]] + rest[1..];
        assert Split(s, c) == parts;
        if |rest| > 1 {
          assert Join([c], rest) == rest[0] + [c] + Join([c], rest[1..]);
          assert parts[1..] == rest[1..];
          assert Join([c], parts) == ([s[0]] + rest[0]) + [c] + Join([c], rest[1..]);
        }
      }
    }
  }

  /** The characters Python's `str.strip()` removes (`str.isspace`). */
  predicate IsSpace(c: char) {
    c == ' ' || ('\t' <= c <= '\r') || ('\U{1C}' <= c <= '\U{1F}')
    || c == '\U{85}' || c == '\U{A0}' || c == '\U{1680}'
    || ('\U{2000}' <= c <= '\U{200A}') || c == '\U{2028}' || c == '\U{2029}'
    || c == '\U{202F}' || c == '\U{205F}' || c == '\U{3000}'
  }

  /** `s.lstrip(chars)`, with the characters given as a predicate. */
  function LStrip(s: string, drop: char -> bool): (r: string)
    ensures |r| <= |s| && r == s[|s| - |r|..]
    ensures |r| > 0 ==> !drop(r[0])
    ensures forall i :: 0 <= i < |s| - |r| ==> drop(s[i])
    decreases |s|
  {
    if |s| > 0 && drop(s[0]) then LStrip(s[1..], drop) else s
  }

  /** `s.rstrip(chars)`, with the characters given as a predicate. */
  function RStrip(s: string, drop: char -> bool): (r: string)
    ensures |r| <= |s| && r == s[..|r|]
    ensures |r| > 0 ==> !drop(r[|r| - 1])
    ensures forall i :: |r| <= i < |s| ==> drop(s[i])
    decreases |s|
  {
    if |s| > 0 && drop(s[|s| - 1]) then RStrip(s[..|s| - 1], drop) else s
  }

  /** Every character of a slice occurs in the whole. */
  lemma SliceMembers(s: string, i: nat, j: nat)
    requires i <= j <= |s|
    ensures forall ch :: ch in s[i..j] ==> ch in s
  {
    forall ch | ch in s[i..j]
      ensures ch in s
    {
      var k :| 0 <= k < j - i && s[i..j][k] == ch;
      assert s[i + k] == ch;
    }
  }

  /** `s.strip(chars)`: a piece of `s` that neither starts nor ends with a
      dropped character. */
  function StripBy(s: string, drop: char -> bool): (r: string)
    ensures forall ch :: ch in r ==> ch in s
    ensures |r| > 0 ==> !drop(r[0]) && !drop(r[|r| - 1])
  {
    var left := LStrip(s, drop);
    var r := RStrip(left, drop);
    SliceMembers(s, |s| - |left|, |s|);
    SliceMembers(left, 0, |r|);
    r
  }

  /** `s.strip()` */
  function Strip(s: string): string {
    StripBy(s, IsSpace)
  }

  /** Member of the character list `chars`, as in `s.strip("<>")`. */
  predicate InChars(chars: string, c: char) {
    c in chars
  }

  function LowerChar(c: char): char {
    if 'A' <= c <= 'Z' then (c as int + 32) as char else c
  }

  /** `s.lower()` on ASCII letters. */
  function Lower(s: string): (r: string)
    ensures |r| == |s|
  {
    seq(|s|, i requires 0 <= i < |s| => LowerChar(s[i]))
  }

  predicate IsDigit(c: char) {
    '0' <= c <= '9'
  }

  function DigitChar(d: nat): char
    requires d < 10
  {
    ('0' as int + d) as char
  }

  /** `str(n)` for a non-negative integer: its decimal digits. */
  function NatToString(n: nat): (r: string)
    ensures |r| > 0
    ensures forall i :: 0 <= i < |r| ==> IsDigit(r[i])
    ensures r[0] == '0' ==> n == 0
  {
    if n < 10 then [DigitChar(n)] else NatToString(n / 10) + [DigitChar(n % 10)]
  }

  function DigitValue(c: char): nat
    requires IsDigit(c)
  {
    c as int - '0' as int
  }

  /** The value of a string of decimal digits. */
  function DigitsValue(ds: string): nat
    requires forall i :: 0 <= i < |ds| ==> IsDigit(ds[i])
  {
    if |ds| == 0 then 0
    else DigitsValue(ds[..|ds| - 1]) * 10 + DigitValue(ds[|ds| - 1])
  }

  /** Reading back the digits that `str` wrote gives the number. */
  lemma {:induction false} DigitsRoundTrip(n: nat)
    ensures DigitsValue(NatToString(n)) == n
  {
    if n >= 10 {
      var front := NatToString(n / 10);
      DigitsRoundTrip(n / 10);
      assert (front + [DigitChar(n % 10)])[..|front|] == front;
    }
  }

  /** Different numbers print differently. */
  lemma NatToStringInjective(m: nat, n: nat)
    requires NatToString(m) == NatToString(n)
    ensures m == n
  {
    DigitsRoundTrip(m);
    DigitsRoundTrip(n);
  }
}
