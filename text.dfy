/** String helpers with Python's semantics, restricted to ASCII: lower-casing,
    substring tests, `strip`, `split`/`join` on one separator, `replace`,
    prefix slicing and decimal formatting of naturals. */
module Text {

  /** Python's `str.isspace` on the ASCII range. */
  predicate IsSpace(c: char) {
    c == ' ' || c == '\t' || c == '\n' || c == '\r' || c == '\U{B}' || c == '\U{C}'
    || ('\U{1C}' <= c <= '\U{1F}')
  }

  predicate IsDigit(c: char) {
    '0' <= c <= '9'
  }

  /** Word characters of a regular expression (`\w`), ASCII part. */
  predicate IsWordChar(c: char) {
    IsDigit(c) || ('a' <= c <= 'z') || ('A' <= c <= 'Z') || c == '_'
  }

  function LowerChar(c: char): (r: char)
    ensures 'A' <= c <= 'Z' ==> 'a' <= r <= 'z'
    ensures !('A' <= c <= 'Z') ==> r == c
  {
    if 'A' <= c <= 'Z' then (c as int + 32) as char else c
  }

  predicate IsLetter(c: char) {
    'a' <= c <= 'z' || 'A' <= c <= 'Z'
  }

  function UpperChar(c: char): (r: char)
    ensures 'a' <= c <= 'z' ==> 'A' <= r <= 'Z'
    ensures !('a' <= c <= 'z') ==> r == c
  {
    if 'a' <= c <= 'z' then (c as int - 32) as char else c
  }

  /** `str.title` on ASCII text. */
  function TitleCase(s: string): (r: string)
    ensures |r| == |s|
    ensures forall k :: 0 <= k < |s| ==> (IsLetter(r[k]) <==> IsLetter(s[k]))
    ensures forall k :: 0 <= k < |s| && !IsLetter(s[k]) ==> r[k] == s[k]
  {
    seq(|s|, i requires 0 <= i < |s| =>
      if !IsLetter(s[i]) then s[i]
      else if i == 0 || !IsLetter(s[i - 1]) then UpperChar(s[i])
      else LowerChar(s[i]))
  }

  /** A letter that starts a word becomes upper case, every other letter lower
      case, and the other characters stay. */
  lemma TitleCaseWords(s: string, i: nat)
    requires i < |s|
    ensures IsLetter(s[i]) && (i == 0 || !IsLetter(s[i - 1])) ==> 'A' <= TitleCase(s)[i] <= 'Z'
    ensures IsLetter(s[i]) && i > 0 && IsLetter(s[i - 1]) ==> 'a' <= TitleCase(s)[i] <= 'z'
    ensures !IsLetter(s[i]) ==> TitleCase(s)[i] == s[i]
  {
    var c := s[i];
    if i == 0 || !IsLetter(s[i - 1]) {
      assert TitleCase(s)[i] == UpperChar(c);
    } else {
      assert TitleCase(s)[i] == LowerChar(c);
    }
  }

  /** `s.lower()` */
  function Lower(s: string): (r: string)
    ensures |r| == |s|
  {
    if s == [] then [] else [LowerChar(s[0])] + Lower(s[1..])
  }

  lemma {:induction false} LowerAt(s: string, i: nat)
    requires i < |s|
    ensures Lower(s)[i] == LowerChar(s[i])
  {
    if i > 0 {
      LowerAt(s[1..], i - 1);
    }
  }

  lemma {:induction false} LowerConcat(a: string, b: string)
    ensures Lower(a + b) == Lower(a) + Lower(b)
  {
    if a != [] {
      assert (a + b)[0] == a[0];
      assert (a + b)[1..] == a[1..] + b;
      LowerConcat(a[1..], b);
    } else {
      assert a + b == b;
    }
  }

  /** `pat` occurs in `text` at offset `i`. */
  predicate MatchAt(text: string, pat: string, i: int) {
    0 <= i <= |text| - |pat| && text[i..i + |pat|] == pat
  }

  /** `pat in text` for strings. */
  predicate Contains(text: string, pat: string) {
    exists i :: 0 <= i <= |text| - |pat| && MatchAt(text, pat, i)
  }

  /** `s.startswith(p)` */
  predicate StartsWith(s: string, p: string) {
    |p| <= |s| && s[..|p|] == p
  }

  /** `s.endswith(p)` */
  predicate EndsWith(s: string, p: string) {
    |p| <= |s| && s[|s| - |p|..] == p
  }

  lemma StartsWithConcat(a: string, b: string)
    ensures StartsWith(a + b, a)
  {
    assert (a + b)[..|a|] == a;
  }

  lemma EndsWithConcat(a: string, b: string)
    ensures EndsWith(a + b, b)
  {
    assert (a + b)[|a + b| - |b|..] == b;
  }

  lemma EndsWithAppend(a: string, b: string, p: string)
    requires EndsWith(b, p)
    ensures EndsWith(a + b, p)
  {
    assert (a + b)[|a + b| - |p|..] == b[|b| - |p|..];
  }

  /** A string whose last character differs from that of `p` does not end with `p`. */
  lemma LastCharNotEndsWith(s: string, p: string)
    requires p != [] && (s == [] || s[|s| - 1] != p[|p| - 1])
    ensures !EndsWith(s, p)
  {
    if |p| <= |s| {
      assert s[|s| - |p|..][|p| - 1] == s[|s| - 1];
    }
  }

  lemma StartsWithContains(s: string, p: string)
    requires StartsWith(s, p)
    ensures Contains(s, p)
  {
    assert MatchAt(s, p, 0);
  }

  lemma ContainsInLonger(a: string, b: string, c: string, pat: string)
    requires Contains(b, pat)
    ensures Contains(a + b + c, pat)
  {
    var i :| 0 <= i <= |b| - |pat| && MatchAt(b, pat, i);
    var j := |a| + i;
    assert (a + b + c)[j..j + |pat|] == b[i..i + |pat|];
    assert MatchAt(a + b + c, pat, j);
  }

  /** Index of the first non-whitespace character of `s` at or after `from`, or |s|. */
  function StripStart(s: string, from: nat): (k: nat)
    requires from <= |s|
    ensures from <= k <= |s|
    ensures forall i :: from <= i < k ==> IsSpace(s[i])
    ensures k < |s| ==> !IsSpace(s[k])
    decreases |s| - from
  {
    if from == |s| || !IsSpace(s[from]) then from else StripStart(s, from + 1)
  }

  /** Index just past the last non-whitespace character of s[lo..hi], or `lo`. */
  function StripEnd(s: string, lo: nat, hi: nat): (k: nat)
    requires lo <= hi <= |s|
    ensures lo <= k <= hi
    ensures forall i :: k <= i < hi ==> IsSpace(s[i])
    ensures k > lo ==> !IsSpace(s[k - 1])
    decreases hi
  {
    if hi == lo || !IsSpace(s[hi - 1]) then hi else StripEnd(s, lo, hi - 1)
  }

  /** `s.strip()`: the longest infix with no whitespace at either end. */
  function Strip(s: string): (r: string)
    ensures r == [] || (!IsSpace(r[0]) && !IsSpace(r[|r| - 1]))
  {
    var a := StripStart(s, 0);
    s[a..StripEnd(s, a, |s|)]
  }

  /** What `strip` removes is whitespace, and what it keeps is a piece of `s`. */
  lemma StripInfix(s: string)
    ensures Contains(s, Strip(s))
  {
    var a := StripStart(s, 0);
    assert MatchAt(s, Strip(s), a);
  }

  /** `s.strip()` of a string made of whitespace only is empty. */
  lemma StripAllSpace(s: string)
    requires forall i :: 0 <= i < |s| ==> IsSpace(s[i])
    ensures Strip(s) == []
  {
  }

  /** Concatenation is associative; stated once for any element type, so that proofs
      about sequences of strings need not compare strings to see it. */
  lemma AppendAssoc<T>(a: seq<T>, b: seq<T>, c: seq<T>)
    ensures a + (b + c) == a + b + c
  {
  }

  /** `s.strip()` leaves a string with no surrounding whitespace unchanged. */
  lemma StripUnchanged(s: string)
    requires s == [] || (!IsSpace(s[0]) && !IsSpace(s[|s| - 1]))
    ensures Strip(s) == s
  {
  }

  /** `sep.join(parts)` */
  function Join(sep: string, parts: seq<string>): string {
    if parts == [] then ""
    else if |parts| == 1 then parts[0]
    else parts[0] + sep + Join(sep, parts[1..])
  }

  /** Index of the first occurrence of `c` in `s`, or |s|. */
  function IndexOf(s: string, c: char): (k: nat)
    ensures k <= |s|
    ensures k < |s| ==> s[k] == c
  {
    if s == [] then 0 else if s[0] == c then 0 else 1 + IndexOf(s[1..], c)
  }

  /** No occurrence of `c` comes before `IndexOf(s, c)`: it is the first one. */
  lemma {:induction false} IndexOfFirst(s: string, c: char)
    ensures forall i :: 0 <= i < IndexOf(s, c) ==> s[i] != c
  {
    if s != [] && s[0] != c {
      IndexOfFirst(s[1..], c);
      assert forall i :: 1 <= i < IndexOf(s, c) ==> s[i] == s[1..][i - 1];
    }
  }

  /** `s.split(sep)` for a one-character separator: the pieces between the
      separators, so one more piece than there are separators. */
  function Split(s: string, sep: char): (parts: seq<string>)
    ensures |parts| >= 1
    decreases |s|
  {
    if s == [] then [[]]
    else
      var rest := Split(s[1..], sep);
      if s[0] == sep then [[]] + rest else [[s[0]] + rest[0]] + rest[1..]
  }

  /** A string without the separator splits into itself alone. */
  lemma {:induction false} SplitWithout(s: string, sep: char)
    requires sep !in s
    ensures Split(s, sep) == [s]
    decreases |s|
  {
    if s != [] {
      assert sep !in s[1..];
      SplitWithout(s[1..], sep);
      assert s == [s[0]] + s[1..];
    }
  }

  /** Joining pieces whose first one gained a leading character. */
  lemma JoinConsFirst(c: char, parts: seq<string>, sep: string)
    requires |parts| >= 1
    ensures Join(sep, [[c] + parts[0]] + parts[1..]) == [c] + Join(sep, parts)
  {
    var q := [[c] + parts[0]] + parts[1..];
    assert q[0] == [c] + parts[0] && q[1..] == parts[1..];
    if |parts| > 1 {
      AppendAssoc([c] + parts[0], sep, Join(sep, parts[1..]));
      AppendAssoc([c], parts[0], sep);
      AppendAssoc([c], parts[0] + sep, Join(sep, parts[1..]));
    }
  }

  /** Splitting and joining again on the same separator gives back the string. */
  lemma {:induction false} JoinSplit(s: string, sep: char)
    ensures Join([sep], Split(s, sep)) == s
    decreases |s|
  {
    if s != [] {
      var rest := Split(s[1..], sep);
      JoinSplit(s[1..], sep);
      assert s == [s[0]] + s[1..];
      if s[0] == sep {
        assert ([[]] + rest)[1..] == rest;
      } else {
        JoinConsFirst(s[0], rest, [sep]);
      }
    }
  }

  /** Splitting at a separator splits each side independently. */
  lemma {:induction false} SplitConcat(x: string, sep: char, y: string)
    ensures Split(x + [sep] + y, sep) == Split(x, sep) + Split(y, sep)
    decreases |x|
  {
    var s := x + [sep] + y;
    if x == [] {
      assert s[0] == sep && s[1..] == y;
    } else {
      assert s[0] == x[0] && s[1..] == x[1..] + [sep] + y;
      SplitConcat(x[1..], sep, y);
      var a := Split(x[1..], sep);
      var b := Split(y, sep);
      if x[0] == sep {
        AppendAssoc([[]], a, b);
      } else {
        assert (a + b)[0] == a[0] && (a + b)[1..] == a[1..] + b;
        AppendAssoc([[x[0]] + a[0]], a[1..], b);
      }
    }
  }

  /** `s.replace(pat, rep)`: leftmost, non-overlapping occurrences. */
  function ReplaceAll(s: string, pat: string, rep: string): (r: string)
    requires pat != []
    ensures !Contains(s, pat) ==> r == s
    decreases |s|
  {
    if |s| < |pat| then s
    else if s[..|pat|] == pat then
      assert MatchAt(s, pat, 0);
      rep + ReplaceAll(s[|pat|..], pat, rep)
    else
      var r := [s[0]] + ReplaceAll(s[1..], pat, rep);
      assert !Contains(s, pat) ==> !Contains(s[1..], pat) by {
        if Contains(s[1..], pat) {
          var i :| 0 <= i <= |s[1..]| - |pat| && MatchAt(s[1..], pat, i);
          assert s[i + 1..i + 1 + |pat|] == pat;
          assert MatchAt(s, pat, i + 1);
        }
      }
      r
  }

  /** Replacing a character by a string in which it does not occur removes it. */
  lemma {:induction false} ReplaceRemovesChar(s: string, c: char, rep: string)
    requires c !in rep
    ensures c !in ReplaceAll(s, [c], rep)
    decreases |s|
  {
    if |s| >= 1 {
      ReplaceRemovesChar(s[1..], c, rep);
    }
  }

  /** Replacing a character keeps every character that is not `c` and not in `rep` out. */
  lemma {:induction false} ReplaceKeepsAbsent(s: string, c: char, rep: string, d: char)
    requires d !in s && d !in rep
    ensures d !in ReplaceAll(s, [c], rep)
    decreases |s|
  {
    if |s| >= 1 {
      ReplaceKeepsAbsent(s[1..], c, rep, d);
    }
  }

  /** Replacing a character: the text before its first occurrence is kept, that
      occurrence becomes `rep`, and the replacement goes on after it. */
  lemma ConsConcat<T>(x: seq<T>, a: seq<T>, b: seq<T>)
    requires x != []
    ensures [x[0]] + (x[1..] + a + b) == x + a + b
  {
    assert x == [x[0]] + x[1..];
  }

  lemma ReplaceCharStep(s: string, c: char, rep: string)
    requires s != []
    ensures s[0] == c ==> ReplaceAll(s, [c], rep) == rep + ReplaceAll(s[1..], [c], rep)
    ensures s[0] != c ==> ReplaceAll(s, [c], rep) == [s[0]] + ReplaceAll(s[1..], [c], rep)
  {
    assert s[..1] == [s[0]];
  }

  lemma {:induction false} ReplaceCharAt(x: string, c: char, y: string, rep: string)
    requires c !in x
    ensures ReplaceAll(x + [c] + y, [c], rep) == x + rep + ReplaceAll(y, [c], rep)
    decreases |x|
  {
    var s := x + [c] + y;
    ReplaceCharStep(s, c, rep);
    if x == [] {
      assert s[1..] == y;
    } else {
      var t := x[1..];
      assert c !in t by {
        forall k | 0 <= k < |t|
          ensures t[k] != c
        {
          assert t[k] == x[k + 1];
        }
      }
      assert s[1..] == t + [c] + y;
      ReplaceCharAt(t, c, y, rep);
      var tail := ReplaceAll(y, [c], rep);
      assert ReplaceAll(s, [c], rep) == [x[0]] + (t + rep + tail);
      ConsConcat(x, rep, tail);
    }
  }

  /** A text with one occurrence of the character: that occurrence becomes `rep`. */
  lemma ReplaceCharOnce(x: string, c: char, y: string, rep: string)
    requires c !in x && c !in y
    ensures ReplaceAll(x + [c] + y, [c], rep) == x + rep + y
  {
    ReplaceCharAt(x, c, y, rep);
    ReplaceCharAbsent(y, c, rep);
  }

  /** A text without the character is left alone. */
  lemma ReplaceCharAbsent(x: string, c: char, rep: string)
    requires c !in x
    ensures ReplaceAll(x, [c], rep) == x
  {
    forall i | 0 <= i <= |x| - 1
      ensures !MatchAt(x, [c], i)
    {
      assert x[i..i + 1] == [x[i]];
    }
  }

  /** `s.lstrip(c)`: the characters `c` at the front removed. */
  function LStrip(s: string, c: char): (r: string)
    ensures |r| <= |s| && r == s[|s| - |r|..]
    ensures r == [] || r[0] != c
    ensures forall i :: 0 <= i < |s| - |r| ==> s[i] == c
    decreases |s|
  {
    if s != [] && s[0] == c then LStrip(s[1..], c) else s
  }

  /** `s.rstrip(c)`: the characters `c` at the end removed. */
  function RStrip(s: string, c: char): (r: string)
    ensures |r| <= |s| && r == s[..|r|]
    ensures r == [] || r[|r| - 1] != c
    ensures forall i :: |r| <= i < |s| ==> s[i] == c
    decreases |s|
  {
    if s != [] && s[|s| - 1] == c then RStrip(s[..|s| - 1], c) else s
  }

  /** Python's prefix slice `s[:n]` for a non-negative bound. */
  function Prefix<T>(s: seq<T>, n: nat): (r: seq<T>)
    ensures |r| == if n < |s| then n else |s|
    ensures r == s[..|r|]
  {
    if n < |s| then s[..n] else s
  }

  function DigitChar(d: nat): (c: char)
    requires d < 10
    ensures IsDigit(c)
  {
    ('0' as int + d) as char
  }

  /** `str(n)` for a natural number. */
  function NatToString(n: nat): (r: string)
    ensures |r| >= 1
    ensures forall i :: 0 <= i < |r| ==> IsDigit(r[i])
    ensures n < 10 <==> |r| == 1
  {
    if n < 10 then [DigitChar(n)] else NatToString(n / 10) + [DigitChar(n % 10)]
  }

  /** `str(i)` for an integer: a minus sign before the digits of a negative one. */
  function IntToString(i: int): string
  {
    if i >= 0 then NatToString(i) else "-" + NatToString(-i)
  }

  /** Value of a string of decimal digits. */
  function DigitsValue(s: string): nat
    requires forall i :: 0 <= i < |s| ==> IsDigit(s[i])
  {
    if s == [] then 0
    else
      assert IsDigit(s[|s| - 1]);
      DigitsValue(s[..|s| - 1]) * 10 + (s[|s| - 1] as int - '0' as int)
  }

  /** Reading back what NatToString wrote gives the number. */
  lemma {:induction false} NatToStringValue(n: nat)
    ensures DigitsValue(NatToString(n)) == n
  {
    if n >= 10 {
      NatToStringValue(n / 10);
      var s := NatToString(n);
      assert s[..|s| - 1] == NatToString(n / 10);
    }
  }

  /** NatToString is injective. */
  lemma NatToStringInjective(m: nat, n: nat)
    requires NatToString(m) == NatToString(n)
    ensures m == n
  {
    NatToStringValue(m);
    NatToStringValue(n);
  }

  /** `f"{n:02d}"` for a natural number: at least two digits, zero-padded. */
  function TwoDigits(n: nat): (r: string)
    ensures |r| >= 2
    ensures forall i :: 0 <= i < |r| ==> IsDigit(r[i])
    ensures DigitsValue(r) == n
  {
    NatToStringValue(n);
    if n < 10 then
      assert DigitsValue(['0']) == 0;
      assert ['0', DigitChar(n)][..1] == ['0'];
      ['0', DigitChar(n)]
    else NatToString(n)
  }

  /** `f"{n:03d}"` for a natural number: at least three digits, zero-padded. */
  function ThreeDigits(n: nat): (r: string)
    ensures |r| >= 3
    ensures forall i :: 0 <= i < |r| ==> IsDigit(r[i])
    ensures DigitsValue(r) == n
  {
    NatToStringValue(n);
    if n < 10 then
      assert ['0', '0', DigitChar(n)][..2] == ['0', '0'];
      assert ['0', '0'][..1] == ['0'];
      ['0', '0', DigitChar(n)]
    else if n < 100 then
      assert DigitsValue(['0']) == 0;
      var s := NatToString(n);
      assert ['0'] + s == ['0', s[0], s[1]];
      assert (['0'] + s)[..2] == ['0', s[0]];
      assert ['0', s[0]][..1] == ['0'];
      assert s[..1] == [s[0]];
      ['0'] + s
    else NatToString(n)
  }
}
