/** Text helpers shared by the three code bases: decimal rendering and parsing
    of integers, substring search with Python `str.find` semantics, Python
    `str.strip`, JavaScript truthiness of optional strings, ASCII case
    conversion and joining. */
module Strings {
  import opened Wrappers

  // ---------------------------------------------------------------------
  // Decimal numbers
  // ---------------------------------------------------------------------

  predicate IsDigit(c: char) { '0' <= c <= '9' }

  predicate AllDigits(s: string) { forall i :: 0 <= i < |s| ==> IsDigit(s[i]) }

  function DigitChar(d: nat): (c: char)
    requires d < 10
    ensures IsDigit(c) && c as int - '0' as int == d
  {
    ('0' as int + d) as char
  }

  /** Decimal text of a natural number, without leading zeros. */
  function NatToString(n: nat): (s: string)
    ensures |s| >= 1 && AllDigits(s)
    ensures n >= 10 ==> s[0] != '0'
    decreases n
  {
    if n < 10 then [DigitChar(n)] else NatToString(n / 10) + [DigitChar(n % 10)]
  }

  /** Decimal text of an integer as JavaScript's `String(n)`, Python's `str(n)`
      and Kotlin string templates produce it: a minus sign for negatives. */
  function IntToString(n: int): (s: string)
    ensures |s| >= 1
    ensures n >= 0 ==> s == NatToString(n)
    ensures n < 0 ==> s == "-" + NatToString(-n)
  {
    if n < 0 then "-" + NatToString(-n) else NatToString(n)
  }

  /** The value of a run of decimal digits (the inverse of NatToString). */
  function DigitsValue(s: string): nat
    requires AllDigits(s)
  {
    if s == [] then 0 else DigitsValue(s[..|s| - 1]) * 10 + (s[|s| - 1] as int - '0' as int)
  }

  lemma {:induction false} DigitsValueOfNatToString(n: nat)
    ensures DigitsValue(NatToString(n)) == n
    decreases n
  {
    if n >= 10 {
      var s := NatToString(n);
      assert s[..|s| - 1] == NatToString(n / 10);
      DigitsValueOfNatToString(n / 10);
    }
  }

  /** The longest prefix of `s` made of digits. */
  function DigitRun(s: string): (d: string)
    ensures AllDigits(d) && d <= s
  {
    if s == [] || !IsDigit(s[0]) then [] else [s[0]] + DigitRun(s[1..])
  }

  lemma {:induction false} DigitRunOfDigitsThenOther(d: string, rest: string)
    requires AllDigits(d)
    requires rest == [] || !IsDigit(rest[0])
    ensures DigitRun(d + rest) == d
  {
    if d != [] {
      assert (d + rest)[1..] == d[1..] + rest;
      DigitRunOfDigitsThenOther(d[1..], rest);
    } else {
      assert d + rest == rest;
    }
  }

  /** Reads a run of decimal digits from the front of `s` and returns its
      value with the text that follows it. */
  function ReadNat(s: string): (int, string)
  {
    var d := DigitRun(s);
    (DigitsValue(d), s[|d|..])
  }

  /** Reads an optionally signed decimal integer from the front of `s` and
      returns it with the text that follows it. */
  function ReadInt(s: string): (int, string)
  {
    if |s| > 0 && s[0] == '-' then
      var (v, rest) := ReadNat(s[1..]);
      (-v, rest)
    else ReadNat(s)
  }

  /** Reading digits followed by a non-digit stops at the non-digit. */
  lemma ReadNatThen(d: string, rest: string)
    requires AllDigits(d)
    requires rest == [] || !IsDigit(rest[0])
    ensures ReadNat(d + rest) == (DigitsValue(d), rest)
  {
    DigitRunOfDigitsThenOther(d, rest);
    assert (d + rest)[|d|..] == rest;
  }

  /** A minus sign and the digits of `m` read back as `-m`. */
  lemma ReadIntOfNegative(m: nat, rest: string)
    requires rest == [] || !IsDigit(rest[0])
    ensures ReadInt("-" + NatToString(m) + rest) == (-(m as int), rest)
  {
    var d := NatToString(m);
    var s := "-" + d + rest;
    assert s[0] == '-';
    assert s[1..] == d + rest;
    ReadNatThen(d, rest);
    DigitsValueOfNatToString(m);
  }

  /** The digits of `m` read back as `m`. */
  lemma ReadIntOfNatural(m: nat, rest: string)
    requires rest == [] || !IsDigit(rest[0])
    ensures ReadInt(NatToString(m) + rest) == (m, rest)
  {
    var d := NatToString(m);
    assert (d + rest)[0] == d[0];
    ReadNatThen(d, rest);
    DigitsValueOfNatToString(m);
  }

  /** Reading back the decimal text of `n` gives `n` and leaves whatever text
      followed it, when that text does not start with a digit. */
  lemma ReadIntOfIntToString(n: int, rest: string)
    requires rest == [] || !IsDigit(rest[0])
    ensures ReadInt(IntToString(n) + rest) == (n, rest)
  {
    if n < 0 {
      ReadIntOfNegative(-n, rest);
    } else {
      ReadIntOfNatural(n, rest);
    }
  }

  /** `String(n).padStart(width, pad)`: left-pad to at least `width`. */
  function PadStart(s: string, width: nat, pad: char): (r: string)
    ensures |s| >= width ==> r == s
    ensures |s| < width ==> |r| == width && r[width - |s|..] == s
    ensures forall i :: 0 <= i < |r| - |s| ==> r[i] == pad
    decreases width - |s|
  {
    if |s| >= width then s else PadStart([pad] + s, width, pad)
  }

  // ---------------------------------------------------------------------
  // Substring search
  // ---------------------------------------------------------------------

  predicate OccursAt(s: string, t: string, i: int)
  {
    0 <= i && i + |t| <= |s| && s[i..i + |t|] == t
  }

  /** `t in s` (Python) / `s.includes(t)` (JavaScript). */
  predicate Contains(s: string, t: string)
  {
    exists i | 0 <= i <= |s| - |t| :: OccursAt(s, t, i)
  }

  /** Python `s.find(t, start)` for a non-negative `start`: the lowest index at
      or after `start` where `t` occurs, or -1 when there is none. */
  function FindFrom(s: string, t: string, start: nat): (r: int)
    ensures r == -1 || (start <= r && OccursAt(s, t, r))
    ensures r != -1 ==> forall i :: start <= i < r ==> !OccursAt(s, t, i)
    ensures r == -1 ==> forall i :: start <= i ==> !OccursAt(s, t, i)
    decreases |s| - start
  {
    if start + |t| > |s| then -1
    else if s[start..start + |t|] == t then start
    else FindFrom(s, t, start + 1)
  }

  lemma FindFromZeroIsContains(s: string, t: string)
    ensures FindFrom(s, t, 0) != -1 <==> Contains(s, t)
  {
    var r := FindFrom(s, t, 0);
    if r != -1 {
      assert OccursAt(s, t, r);
    }
  }

  // ---------------------------------------------------------------------
  // Python whitespace and str.strip()
  // ---------------------------------------------------------------------

  /** Python `str.isspace()` for one character. */
  predicate IsPySpace(c: char)
  {
    var k := c as int;
    k == 32 || 9 <= k <= 13 || 28 <= k <= 31 || k == 0x85 || k == 0xA0 || k == 0x1680
    || 0x2000 <= k <= 0x200A || k == 0x2028 || k == 0x2029 || k == 0x202F
    || k == 0x205F || k == 0x3000
  }

  function StripLeft(s: string): (r: string)
    ensures |r| <= |s| && r == s[|s| - |r|..]
    ensures r == [] || !IsPySpace(r[0])
    ensures forall k :: 0 <= k < |s| - |r| ==> IsPySpace(s[k])
  {
    if |s| > 0 && IsPySpace(s[0]) then StripLeft(s[1..]) else s
  }

  function StripRight(s: string): (r: string)
    ensures |r| <= |s| && r == s[..|r|]
    ensures r == [] || !IsPySpace(r[|r| - 1])
    ensures forall k :: |r| <= k < |s| ==> IsPySpace(s[k])
  {
    if |s| > 0 && IsPySpace(s[|s| - 1]) then StripRight(s[..|s| - 1]) else s
  }

  /** Python `s.strip()`. */
  function Strip(s: string): string
  {
    StripRight(StripLeft(s))
  }

  /** Stripping text that starts with a non-space keeps its first character. */
  lemma StripKeepsFirst(s: string)
    requires |s| > 0 && !IsPySpace(s[0])
    ensures |Strip(s)| > 0 && Strip(s)[0] == s[0]
  {
    assert StripLeft(s) == s;
  }

  /** Python `s.split()` with no argument: the maximal runs of non-whitespace. */
  function Split(s: string): seq<string>
    decreases |s|
  {
    var t := StripLeft(s);
    if t == [] then []
    else
      var w := WordPrefix(t);
      [w] + Split(t[|w|..])
  }

  /** The longest prefix of `s` without whitespace. */
  function WordPrefix(s: string): (w: string)
    ensures w <= s
    ensures forall i :: 0 <= i < |w| ==> !IsPySpace(w[i])
    ensures |w| < |s| ==> IsPySpace(s[|w|])
    ensures |s| > 0 && !IsPySpace(s[0]) ==> |w| >= 1
  {
    if s == [] || IsPySpace(s[0]) then [] else [s[0]] + WordPrefix(s[1..])
  }

  predicate NoSpace(w: string) { forall i :: 0 <= i < |w| ==> !IsPySpace(w[i]) }

  /** The text with every whitespace character removed. */
  function RemoveSpaces(s: string): string
  {
    if s == [] then [] else (if IsPySpace(s[0]) then [] else [s[0]]) + RemoveSpaces(s[1..])
  }

  function Concat(ws: seq<string>): string
  {
    if ws == [] then [] else ws[0] + Concat(ws[1..])
  }

  lemma {:induction false} RemoveSpacesAppend(a: string, b: string)
    ensures RemoveSpaces(a + b) == RemoveSpaces(a) + RemoveSpaces(b)
  {
    if a != [] {
      assert (a + b)[1..] == a[1..] + b;
      RemoveSpacesAppend(a[1..], b);
    } else {
      assert a + b == b;
    }
  }

  lemma {:induction false} RemoveSpacesOfSpaces(s: string)
    requires forall i :: 0 <= i < |s| ==> IsPySpace(s[i])
    ensures RemoveSpaces(s) == []
  {
    if s != [] { RemoveSpacesOfSpaces(s[1..]); }
  }

  lemma {:induction false} RemoveSpacesOfWord(s: string)
    requires NoSpace(s)
    ensures RemoveSpaces(s) == s
  {
    if s != [] { RemoveSpacesOfWord(s[1..]); }
  }

  /** Every element is a non-empty word without whitespace. */
  predicate AllWords(ws: seq<string>)
  {
    forall k :: 0 <= k < |ws| ==> |ws[k]| > 0 && NoSpace(ws[k])
  }

  /** Splitting loses exactly the whitespace: every word is non-empty and
      space-free. */
  lemma {:induction false} SplitWordsAreWords(s: string)
    ensures AllWords(Split(s))
    decreases |s|
  {
    var t := StripLeft(s);
    if t != [] {
      var w := WordPrefix(t);
      var rest := t[|w|..];
      SplitWordsAreWords(rest);
      var ws := Split(s);
      assert ws == [w] + Split(rest);
      assert |w| > 0 && NoSpace(w);
      forall k | 0 <= k < |ws| ensures |ws[k]| > 0 && NoSpace(ws[k]) {
        if k > 0 { assert ws[k] == Split(rest)[k - 1]; }
      }
    }
  }

  /** ... and the words put together are the text without its whitespace. */
  lemma {:induction false} SplitConcat(s: string)
    ensures Concat(Split(s)) == RemoveSpaces(s)
    decreases |s|
  {
    var t := StripLeft(s);
    RemoveSpacesOfLead(s);
    if t != [] {
      var w := WordPrefix(t);
      var rest := t[|w|..];
      SplitConcat(rest);
      RemoveSpacesOfLeadingWord(t);
      ConcatCons(w, Split(rest));
    }
  }

  /** Dropping leading whitespace does not change what `RemoveSpaces` keeps. */
  lemma RemoveSpacesOfLead(s: string)
    ensures RemoveSpaces(s) == RemoveSpaces(StripLeft(s))
  {
    var t := StripLeft(s);
    var lead := s[..|s| - |t|];
    assert s == lead + t;
    RemoveSpacesAppend(lead, t);
    RemoveSpacesOfSpaces(lead);
  }

  /** A text that starts with a word keeps that word whole. */
  lemma RemoveSpacesOfLeadingWord(t: string)
    ensures RemoveSpaces(t) == WordPrefix(t) + RemoveSpaces(t[|WordPrefix(t)|..])
  {
    var w := WordPrefix(t);
    var rest := t[|w|..];
    assert t == w + rest;
    RemoveSpacesAppend(w, rest);
    RemoveSpacesOfWord(w);
  }

  lemma ConcatCons(w: string, ws: seq<string>)
    ensures Concat([w] + ws) == w + Concat(ws)
  {
    assert ([w] + ws)[1..] == ws;
  }

  // ---------------------------------------------------------------------
  // Case conversion, joining, keyed lookup
  // ---------------------------------------------------------------------

  function LowerChar(c: char): char
  {
    if 'A' <= c <= 'Z' then (c as int + 32) as char else c
  }

  function UpperChar(c: char): char
  {
    if 'a' <= c <= 'z' then (c as int - 32) as char else c
  }

  /** `toLowerCase()` on ASCII letters. */
  function Lower(s: string): (r: string)
    ensures |r| == |s| && forall i :: 0 <= i < |s| ==> r[i] == LowerChar(s[i])
  {
    seq(|s|, i requires 0 <= i < |s| => LowerChar(s[i]))
  }

  /** `toUpperCase()` on ASCII letters. */
  function Upper(s: string): (r: string)
    ensures |r| == |s| && forall i :: 0 <= i < |s| ==> r[i] == UpperChar(s[i])
  {
    seq(|s|, i requires 0 <= i < |s| => UpperChar(s[i]))
  }

  /** Kotlin `a.equals(b, ignoreCase = true)` on ASCII letters. */
  predicate EqualsIgnoreCase(a: string, b: string)
  {
    Lower(a) == Lower(b)
  }

  /** Kotlin `s.contains(t, ignoreCase = true)` on ASCII letters. */
  predicate ContainsIgnoreCase(s: string, t: string)
  {
    Contains(Lower(s), Lower(t))
  }

  /** `t` matches `s` at position `i`, letter by letter up to case. */
  predicate MatchesAt(s: string, t: string, i: int)
  {
    0 <= i <= |s| - |t| && forall k :: 0 <= k < |t| ==> LowerChar(s[i + k]) == LowerChar(t[k])
  }

  /** Case-insensitive containment is a match of `t` at some position of
      `s`. */
  lemma ContainsIgnoreCaseAt(s: string, t: string)
    ensures ContainsIgnoreCase(s, t) <==> exists i :: MatchesAt(s, t, i)
  {
    var ls, lt := Lower(s), Lower(t);
    if ContainsIgnoreCase(s, t) {
      var i :| 0 <= i <= |ls| - |lt| && OccursAt(ls, lt, i);
      forall k | 0 <= k < |t| ensures LowerChar(s[i + k]) == LowerChar(t[k]) {
        assert ls[i..i + |lt|][k] == ls[i + k];
      }
      assert MatchesAt(s, t, i);
    }
    if exists i :: MatchesAt(s, t, i) {
      var i :| MatchesAt(s, t, i);
      assert ls[i..i + |lt|] == lt;
      assert OccursAt(ls, lt, i);
    }
  }

  /** `parts.join(sep)`. */
  function Join(parts: seq<string>, sep: string): string
  {
    if parts == [] then ""
    else if |parts| == 1 then parts[0]
    else parts[0] + sep + Join(parts[1..], sep)
  }

  /** JavaScript `parts.filter(Boolean).join(sep)` where an absent part is
      written as the empty string. */
  function JoinPresent(parts: seq<string>, sep: string): string
  {
    Join(NonEmpty(parts), sep)
  }

  function NonEmpty(parts: seq<string>): (r: seq<string>)
    ensures forall i :: 0 <= i < |r| ==> r[i] != ""
    ensures |r| <= |parts|
  {
    if parts == [] then []
    else (if parts[0] == "" then [] else [parts[0]]) + NonEmpty(parts[1..])
  }

  /** Joining at most two parts: nothing, the one part, or both around the
      separator. */
  lemma JoinUpToTwo(parts: seq<string>, sep: string)
    requires |parts| <= 2
    ensures parts == [] ==> Join(parts, sep) == ""
    ensures |parts| == 1 ==> Join(parts, sep) == parts[0]
    ensures |parts| == 2 ==> Join(parts, sep) == parts[0] + sep + parts[1]
  {
    if |parts| == 2 {
      assert parts[1..] == [parts[1]];
    }
  }

  /** `[a, b, c].filter(Boolean).join(sep)`: empty exactly when all three
      are; the first present part comes first; a part standing alone is the
      whole text; with all three present they are joined in order. */
  lemma JoinPresentThree(a: string, b: string, c: string, sep: string)
    ensures JoinPresent([a, b, c], sep) == "" <==> a == "" && b == "" && c == ""
    ensures a != "" ==> a <= JoinPresent([a, b, c], sep)
    ensures a == "" && b == "" ==> JoinPresent([a, b, c], sep) == c
    ensures a != "" && b != "" && c != "" ==> JoinPresent([a, b, c], sep) == a + sep + b + sep + c
  {
    assert [a, b, c][1..] == [b, c];
    assert [b, c][1..] == [c];
    assert [c][1..] == [];
    var nc := if c == "" then [] else [c];
    var nb := (if b == "" then [] else [b]) + nc;
    var r := (if a == "" then [] else [a]) + nb;
    assert NonEmpty([c]) == nc;
    assert NonEmpty([b, c]) == nb;
    assert NonEmpty([a, b, c]) == r;
    if r != [] {
      assert |r| == 1 || Join(r, sep) == r[0] + sep + Join(r[1..], sep);
    }
    if a != "" && b != "" && c != "" {
      assert r == [a, b, c];
      assert Join([c], sep) == c;
      assert Join([b, c], sep) == b + sep + c;
      assert Join([a, b, c], sep) == a + sep + (b + sep + c);
    }
  }


  /** The value bound to `key` in a list of decoded object members; a later
      binding of the same key overrides an earlier one, as in `json.loads`
      and `JSON.parse`. */
  function LastBinding<V>(fields: seq<(string, V)>, key: string): (r: Option<V>)
    ensures r.Some? ==> exists i :: 0 <= i < |fields| && fields[i] == (key, r.value)
    ensures r.None? <==> forall i :: 0 <= i < |fields| ==> fields[i].0 != key
  {
    if fields == [] then None
    else if fields[|fields| - 1].0 == key then Some(fields[|fields| - 1].1)
    else LastBinding(fields[..|fields| - 1], key)
  }
}
