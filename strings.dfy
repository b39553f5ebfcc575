/** The few `str` methods the modelled code uses, on ASCII text. */
module Strings {

  predicate IsUpper(c: char) { 'A' <= c <= 'Z' }
  predicate IsLower(c: char) { 'a' <= c <= 'z' }
  predicate IsLetter(c: char) { IsUpper(c) || IsLower(c) }
  predicate IsDigit(c: char) { '0' <= c <= '9' }

  /**
   * The ASCII characters `str.strip()` removes, those `str.isspace()` holds for: space, tab, line feed, carriage
   * return, vertical tab, form feed, and the four separators `\x1c` to `\x1f`.
   */
  predicate IsSpace(c: char) {
    c == ' ' || c == '\t' || c == '\n' || c == '\r' || c == '\U{000B}' || c == '\U{000C}' || '\U{001C}' <= c <= '\U{001F}'
  }

  function LowerChar(c: char): (r: char)
    ensures !IsUpper(r)
    ensures IsLetter(c) <==> IsLetter(r)
    ensures !IsUpper(c) ==> r == c
  {
    if IsUpper(c) then (c as int + 32) as char else c
  }

  function UpperChar(c: char): (r: char)
    ensures !IsLower(r)
    ensures IsLetter(c) <==> IsLetter(r)
    ensures !IsLower(c) ==> r == c
  {
    if IsLower(c) then (c as int - 32) as char else c
  }

  /** `s.lower()` */
  function Lower(s: string): (r: string)
    ensures |r| == |s|
    ensures forall i :: 0 <= i < |s| ==> r[i] == LowerChar(s[i])
  {
    seq(|s|, i requires 0 <= i < |s| => LowerChar(s[i]))
  }

  predicate IsLowerCase(s: string) { forall i :: 0 <= i < |s| ==> !IsUpper(s[i]) }

  lemma LowerIsLowerCase(s: string)
    ensures IsLowerCase(Lower(s))
    ensures Lower(Lower(s)) == Lower(s)
  {
  }

  lemma LowerOfLowerCase(s: string)
    requires IsLowerCase(s)
    ensures Lower(s) == s
  {
  }

  /** `s.title()`: a letter is upper-cased when the character before it is not a letter, lower-cased otherwise. */
  function Title(s: string): (r: string)
    ensures |r| == |s|
    ensures forall i :: 0 <= i < |s| ==> r[i] == TitleCharAt(s, i)
  {
    seq(|s|, i requires 0 <= i < |s| => TitleCharAt(s, i))
  }

  function TitleCharAt(s: string, i: nat): char
    requires i < |s|
  {
    if i == 0 || !IsLetter(s[i - 1]) then UpperChar(s[i]) else LowerChar(s[i])
  }

  /** The number of whitespace characters `s` starts with. */
  function LeadingSpaces(s: string): (n: nat)
    ensures n <= |s|
  {
    if s != [] && IsSpace(s[0]) then 1 + LeadingSpaces(s[1..]) else 0
  }

  /** The number of whitespace characters `s` ends with. */
  function TrailingSpaces(s: string): (n: nat)
    ensures n <= |s|
  {
    if s != [] && IsSpace(s[|s| - 1]) then 1 + TrailingSpaces(s[..|s| - 1]) else 0
  }

  /** `s.strip()` */
  function Strip(s: string): string
  {
    var l := s[LeadingSpaces(s)..];
    l[..|l| - TrailingSpaces(l)]
  }

  /** The leading run is all whitespace, and the character after it is not. */
  lemma {:induction false} LeadingSpacesMeaning(s: string)
    ensures forall i :: 0 <= i < LeadingSpaces(s) ==> IsSpace(s[i])
    ensures LeadingSpaces(s) < |s| ==> !IsSpace(s[LeadingSpaces(s)])
  {
    if s != [] && IsSpace(s[0]) {
      LeadingSpacesMeaning(s[1..]);
    }
  }

  /** The trailing run is all whitespace, and the character before it is not. */
  lemma {:induction false} TrailingSpacesMeaning(s: string)
    ensures forall i :: |s| - TrailingSpaces(s) <= i < |s| ==> IsSpace(s[i])
    ensures TrailingSpaces(s) < |s| ==> !IsSpace(s[|s| - 1 - TrailingSpaces(s)])
  {
    if s != [] && IsSpace(s[|s| - 1]) {
      TrailingSpacesMeaning(s[..|s| - 1]);
    }
  }

  /**
   * `s.strip()` is the text between the leading and the trailing whitespace: it neither starts nor ends with
   * whitespace, it is empty exactly when `s` is all whitespace, it leaves a text without whitespace alone,
   * and each of its characters is one of `s`. It is a slice of `s` whose cut-off ends are all whitespace, so the
   * whitespace inside is kept.
   */
  lemma StripMeaning(s: string)
    ensures Strip(s) == [] || (!IsSpace(Strip(s)[0]) && !IsSpace(Strip(s)[|Strip(s)| - 1]))
    ensures Strip(s) == [] <==> forall i :: 0 <= i < |s| ==> IsSpace(s[i])
    ensures (forall i :: 0 <= i < |s| ==> !IsSpace(s[i])) ==> Strip(s) == s
    ensures forall i :: 0 <= i < |Strip(s)| ==> Strip(s)[i] in s
    ensures exists a, b :: IsStripSlice(s, a, b) && Strip(s) == s[a..b]
  {
    assert Strip(s) == [] || (!IsSpace(Strip(s)[0]) && !IsSpace(Strip(s)[|Strip(s)| - 1])) by {
      StripEnds(s);
    }
    assert Strip(s) == [] <==> forall i :: 0 <= i < |s| ==> IsSpace(s[i]) by {
      StripEnds(s);
    }
    assert (forall i :: 0 <= i < |s| ==> !IsSpace(s[i])) ==> Strip(s) == s by {
      StripKeeps(s);
    }
    assert forall i :: 0 <= i < |Strip(s)| ==> Strip(s)[i] in s by {
      StripKeeps(s);
    }
    StripSlice(s);
  }

  /** `s[a..b]` is `s` with only whitespace cut off at either end. */
  predicate IsStripSlice(s: string, a: int, b: int)
  {
    && 0 <= a <= b <= |s|
    && (forall i :: 0 <= i < a ==> IsSpace(s[i]))
    && (forall i :: b <= i < |s| ==> IsSpace(s[i]))
  }

  /** The stripped text is a slice of `s` with only whitespace cut off at either end. */
  lemma StripSlice(s: string)
    ensures exists a, b :: IsStripSlice(s, a, b) && Strip(s) == s[a..b]
  {
    var a := LeadingSpaces(s);
    var b := |s| - TrailingSpaces(s[a..]);
    StripBounds(s);
    LeadingSpacesMeaning(s);
    TrailingCut(s, a);
    assert IsStripSlice(s, a, b);
  }

  /** The stripped text is the slice between the leading and the trailing whitespace. */
  lemma StripBounds(s: string)
    ensures Strip(s) == s[LeadingSpaces(s)..|s| - TrailingSpaces(s[LeadingSpaces(s)..])]
  {
    var a := LeadingSpaces(s);
    SliceOfSuffix(s, a, |s| - a - TrailingSpaces(s[a..]));
  }

  /** A prefix of a suffix is a slice. */
  lemma SliceOfSuffix<T>(s: seq<T>, a: nat, n: nat)
    requires a + n <= |s|
    ensures s[a..][..n] == s[a..a + n]
  {
  }

  /** What the trailing run of a suffix `s[a..]` cuts off is whitespace in `s`. */
  lemma TrailingCut(s: string, a: nat)
    requires a <= |s|
    ensures forall i :: |s| - TrailingSpaces(s[a..]) <= i < |s| ==> IsSpace(s[i])
  {
    var l := s[a..];
    var t := TrailingSpaces(l);
    forall i | |s| - t <= i < |s| ensures IsSpace(s[i]) {
      var j := i - a;
      assert 0 <= j < |l| && s[i] == l[j];
      TrailingSpacesMeaning(l);
      assert |l| - t <= j;
    }
  }

  /** The stripped text neither starts nor ends with whitespace, and is empty exactly for an all-whitespace text. */
  lemma StripEnds(s: string)
    ensures Strip(s) == [] || (!IsSpace(Strip(s)[0]) && !IsSpace(Strip(s)[|Strip(s)| - 1]))
    ensures Strip(s) == [] <==> forall i :: 0 <= i < |s| ==> IsSpace(s[i])
  {
    var a := LeadingSpaces(s);
    var l := s[a..];
    var b := TrailingSpaces(l);
    var r := l[..|l| - b];
    LeadingSpacesMeaning(s);
    TrailingSpacesMeaning(l);
    if r != [] {
      assert r[0] == s[a];
      assert r[|r| - 1] == l[|l| - 1 - b];
    }
  }

  /** A text without whitespace strips to itself, and stripping only drops characters. */
  lemma StripKeeps(s: string)
    ensures (forall i :: 0 <= i < |s| ==> !IsSpace(s[i])) ==> Strip(s) == s
    ensures forall i :: 0 <= i < |Strip(s)| ==> Strip(s)[i] in s
  {
    var a := LeadingSpaces(s);
    var l := s[a..];
    var b := TrailingSpaces(l);
    var r := l[..|l| - b];
    assert forall i :: 0 <= i < |r| ==> r[i] == s[a + i];
    if forall i :: 0 <= i < |s| ==> !IsSpace(s[i]) {
      if s != [] {
        assert !IsSpace(s[0]);
        assert l == s;
        if l != [] {
          assert !IsSpace(l[|l| - 1]);
        }
      }
    }
  }

  /** `sub` occurs in `s` starting at index `i`. */
  predicate OccursAt(s: string, sub: string, i: int) {
    0 <= i && i + |sub| <= |s| && s[i..i + |sub|] == sub
  }

  /** `sub in s` */
  function Contains(s: string, sub: string): (b: bool)
    ensures b <==> exists i :: OccursAt(s, sub, i)
    decreases |s|
  {
    if |sub| > |s| then false
    else if s[..|sub|] == sub then assert OccursAt(s, sub, 0); true
    else
      var b := Contains(s[1..], sub);
      assert b ==> exists i :: OccursAt(s, sub, i) by {
        if b {
          var i :| OccursAt(s[1..], sub, i);
          assert s[i + 1..i + 1 + |sub|] == s[1..][i..i + |sub|];
          assert OccursAt(s, sub, i + 1);
        }
      }
      assert (exists i :: OccursAt(s, sub, i)) ==> b by {
        if exists i :: OccursAt(s, sub, i) {
          var i :| OccursAt(s, sub, i);
          assert i != 0;
          assert s[1..][i - 1..i - 1 + |sub|] == s[i..i + |sub|];
          assert OccursAt(s[1..], sub, i - 1);
        }
      }
      b
  }

  /** A string in which the first character of `sub` never starts a long enough tail does not contain `sub`. */
  lemma NoOccurrence(s: string, sub: string)
    requires |sub| > 0 && forall i :: 0 <= i && i + |sub| <= |s| ==> s[i] != sub[0]
    ensures !Contains(s, sub)
  {
  }

  /** `s.split(sep)` for a one-character separator. */
  function Split(s: string, sep: char): (r: seq<string>)
    ensures |r| >= 1
    ensures forall i :: 0 <= i < |r| ==> sep !in r[i]
    decreases |s|
  {
    if s == [] then [[]]
    else
      var rest := Split(s[1..], sep);
      if s[0] == sep then [[]] + rest
      else [[s[0]] + rest[0]] + rest[1..]
  }

  /** `sep.join(parts)` */
  function Join(parts: seq<string>, sep: char): (r: string)
    requires |parts| >= 1
  {
    if |parts| == 1 then parts[0] else parts[0] + [sep] + Join(parts[1..], sep)
  }

  /** Splitting and joining again gives back the text. */
  lemma {:induction false} JoinSplit(s: string, sep: char)
    ensures Join(Split(s, sep), sep) == s
    decreases |s|
  {
    if s != [] {
      var rest := Split(s[1..], sep);
      JoinSplit(s[1..], sep);
      if s[0] == sep {
        assert Split(s, sep) == [[]] + rest;
        assert Join([[]] + rest, sep) == [] + [sep] + Join(rest, sep) by {
          assert ([[]] + rest)[1..] == rest;
        }
      } else {
        var r := [[s[0]] + rest[0]] + rest[1..];
        assert Split(s, sep) == r;
        if |rest| == 1 {
          assert Join(r, sep) == [s[0]] + rest[0];
        } else {
          assert r[1..] == rest[1..];
          assert Join(rest, sep) == rest[0] + [sep] + Join(rest[1..], sep);
          assert Join(r, sep) == [s[0]] + rest[0] + [sep] + Join(rest[1..], sep);
        }
      }
    }
  }

  /** One character in front of a text either starts a new piece or joins the first. */
  lemma SplitCons(c: char, rest: string, sep: char)
    ensures Split([c] + rest, sep) ==
      if c == sep then [[]] + Split(rest, sep) else [[c] + Split(rest, sep)[0]] + Split(rest, sep)[1..]
  {
    assert ([c] + rest)[0] == c && ([c] + rest)[1..] == rest;
  }

  /** Splitting two texts joined by the separator gives the pieces of the first, then those of the second. */
  lemma {:induction false} SplitConcat(s: string, t: string, sep: char)
    ensures Split(s + [sep] + t, sep) == Split(s, sep) + Split(t, sep)
    decreases |s|
  {
    if s == [] {
      assert s + [sep] + t == [sep] + t;
      SplitCons(sep, t, sep);
    } else {
      SplitConcat(s[1..], t, sep);
      assert s == [s[0]] + s[1..];
      SplitConcatCons(s[0], s[1..], t, sep);
    }
  }

  /** The step of `SplitConcat`: one more character in front of the first text. */
  lemma SplitConcatCons(c: char, s: string, t: string, sep: char)
    requires Split(s + [sep] + t, sep) == Split(s, sep) + Split(t, sep)
    ensures Split([c] + s + [sep] + t, sep) == Split([c] + s, sep) + Split(t, sep)
  {
    assert [c] + s + [sep] + t == [c] + (s + [sep] + t);
    SplitCons(c, s + [sep] + t, sep);
    SplitCons(c, s, sep);
    var r, st := Split(s, sep), Split(t, sep);
    if c == sep {
      AppendAssoc([[]], r, st);
    } else {
      AppendTail(r, st);
      AppendAssoc([[c] + r[0]], r[1..], st);
    }
  }

  /** Concatenation is associative; stated for any element type, so its proof does not look inside the elements. */
  lemma AppendAssoc<T>(a: seq<T>, b: seq<T>, c: seq<T>)
    ensures a + (b + c) == (a + b) + c
  {
  }

  /** The head and tail of a concatenation whose first part is not empty. */
  lemma AppendTail<T>(a: seq<T>, b: seq<T>)
    requires a != []
    ensures (a + b)[0] == a[0] && (a + b)[1..] == a[1..] + b
  {
  }

  /** A prefix without the separator joins the first piece of what follows it. */
  lemma {:induction false} SplitPrefix(a: string, t: string, sep: char)
    requires sep !in a
    ensures Split(a + t, sep) == [a + Split(t, sep)[0]] + Split(t, sep)[1..]
    decreases |a|
  {
    if a != [] {
      SplitPrefix(a[1..], t, sep);
      assert (a + t)[1..] == a[1..] + t;
      assert [a[0]] + (a[1..] + Split(t, sep)[0]) == a + Split(t, sep)[0];
    } else {
      var r := Split(t, sep);
      assert a + t == t && a + r[0] == r[0];
      assert [r[0]] + r[1..] == r;
    }
  }

  /** Joining pieces that hold no separator and splitting again gives back the pieces. */
  lemma {:induction false} SplitJoin(parts: seq<string>, sep: char)
    requires |parts| >= 1 && forall i :: 0 <= i < |parts| ==> sep !in parts[i]
    ensures Split(Join(parts, sep), sep) == parts
  {
    if |parts| == 1 {
      SplitPrefix(parts[0], [], sep);
      assert parts[0] + [] == parts[0];
    } else {
      var rest := Join(parts[1..], sep);
      SplitJoin(parts[1..], sep);
      assert parts[0] + [sep] + rest == parts[0] + ([sep] + rest);
      SplitPrefix(parts[0], [sep] + rest, sep);
      assert ([sep] + rest)[1..] == rest;
      assert Split([sep] + rest, sep) == [[]] + parts[1..];
      assert parts[0] + [] == parts[0];
    }
  }

  /** Decimal digits of a natural number, as `str(n)` writes it. */
  function NatToString(n: nat): (r: string)
    ensures |r| >= 1
    ensures forall i :: 0 <= i < |r| ==> IsDigit(r[i])
    ensures DigitsValue(r) == n
    ensures n > 0 ==> r[0] != '0'
    decreases n
  {
    if n < 10 then [('0' as int + n) as char]
    else
      var p := NatToString(n / 10);
      var d := [('0' as int + n % 10) as char];
      DigitsValueAppend(p, d);
      p + d
  }

  /** The value of a string of decimal digits. */
  function DigitsValue(s: string): nat
    requires forall i :: 0 <= i < |s| ==> IsDigit(s[i])
  {
    if s == [] then 0 else 10 * DigitsValue(s[..|s| - 1]) + DigitValue(s[|s| - 1])
  }

  function DigitValue(c: char): nat
    requires IsDigit(c)
  {
    c as int - '0' as int
  }

  lemma DigitsValueAppend(p: string, d: string)
    requires forall i :: 0 <= i < |p| ==> IsDigit(p[i])
    requires |d| == 1 && IsDigit(d[0])
    ensures forall i :: 0 <= i < |p + d| ==> IsDigit((p + d)[i])
    ensures DigitsValue(p + d) == 10 * DigitsValue(p) + DigitValue(d[0])
  {
    assert (p + d)[..|p + d| - 1] == p;
  }
}
