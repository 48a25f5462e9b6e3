/** The formatting helpers of the browser client (MLBAPP/static/js/utils.js):
    ordinal numbers, the inning label, the date text, and the status text and
    status class of a game. */
module Display {
  import opened Wrappers
  import opened Strings
  import opened Js

  /** JavaScript `a % b` for a positive `b`: the remainder has the sign of
      `a`, unlike Dafny's Euclidean `%`. */
  function JsRem(a: int, b: int): (r: int)
    requires b > 0
    ensures -b < r < b
    ensures a >= 0 ==> 0 <= r && r == a % b
    ensures a < 0 ==> r <= 0 && r == -((-a) % b)
  {
    if a >= 0 then a % b else -((-a) % b)
  }

  /** The white space and line terminators JavaScript trims from a string
      before reading it as a number (StrWhiteSpaceChar, section 7.1.4.1.1 of
      ECMA-262). */
  predicate IsJsSpace(c: char)
  {
    var k := c as int;
    9 <= k <= 13 || k == 32 || k == 0xA0 || k == 0x1680 || 0x2000 <= k <= 0x200A
    || k == 0x2028 || k == 0x2029 || k == 0x202F || k == 0x205F || k == 0x3000 || k == 0xFEFF
  }

  function TrimStart(s: string): (r: string)
    ensures |r| <= |s| && r == s[|s| - |r|..]
    ensures r == [] || !IsJsSpace(r[0])
    ensures forall k :: 0 <= k < |s| - |r| ==> IsJsSpace(s[k])
  {
    if |s| > 0 && IsJsSpace(s[0]) then TrimStart(s[1..]) else s
  }

  function TrimEnd(s: string): (r: string)
    ensures |r| <= |s| && r == s[..|r|]
    ensures r == [] || !IsJsSpace(r[|r| - 1])
    ensures forall k :: |r| <= k < |s| ==> IsJsSpace(s[k])
  {
    if |s| > 0 && IsJsSpace(s[|s| - 1]) then TrimEnd(s[..|s| - 1]) else s
  }

  /** The value of one digit in base `radix`, letters in either case
      counting from ten; None when it is not such a digit. */
  function RadixDigit(c: char, radix: nat): (r: Option<nat>)
    ensures r.Some? ==> r.value < radix
  {
    var d: int :=
      if '0' <= c <= '9' then c as int - '0' as int
      else if 'a' <= c <= 'z' then c as int - 'a' as int + 10
      else if 'A' <= c <= 'Z' then c as int - 'A' as int + 10
      else radix;
    if 0 <= d < radix then Some(d) else None
  }

  /** The value of a non-empty run of base-`radix` digits, or None when some
      character is not one. */
  function RadixValue(s: string, radix: nat): (r: Option<nat>)
    ensures r.Some? ==> s != [] && forall i :: 0 <= i < |s| ==> RadixDigit(s[i], radix).Some?
  {
    if s == [] then None
    else
      var d := RadixDigit(s[|s| - 1], radix);
      if d.None? then None
      else if |s| == 1 then d
      else
        match RadixValue(s[..|s| - 1], radix)
        case None => None
        case Some(v) => Some(v * radix + d.value)
  }

  /** A decimal integer with an optional sign. */
  function SignedDecimal(t: string): (r: Option<int>)
  {
    if t != [] && t[0] == '-' then
      match RadixValue(t[1..], 10)
      case None => None
      case Some(v) => Some(-(v as int))
    else if t != [] && t[0] == '+' then RadixValue(t[1..], 10)
    else RadixValue(t, 10)
  }

  /** JavaScript's reading of a string as a number, or None for NaN: the
      surrounding white space is trimmed; nothing left reads as 0; "0x",
      "0o" and "0b" (either case) start an unsigned hexadecimal, octal or
      binary integer; anything else must be a decimal integer with an
      optional sign. */
  function StringToNumber(s: string): (r: Option<int>)
    ensures TrimEnd(TrimStart(s)) == [] ==> r == Some(0)
  {
    TrimmedToNumber(TrimEnd(TrimStart(s)))
  }

  /** The number a string with no white space around it reads as. */
  function TrimmedToNumber(t: string): Option<int>
  {
    if t == [] then Some(0)
    else if |t| > 2 && t[0] == '0' && (t[1] == 'x' || t[1] == 'X') then RadixValue(t[2..], 16)
    else if |t| > 2 && t[0] == '0' && (t[1] == 'o' || t[1] == 'O') then RadixValue(t[2..], 8)
    else if |t| > 2 && t[0] == '0' && (t[1] == 'b' || t[1] == 'B') then RadixValue(t[2..], 2)
    else SignedDecimal(t)
  }

  /** JavaScript's numeric conversion (`num % 10` applies it), or None for
      NaN: strings are read by `StringToNumber`, arrays through their text,
      and other objects are NaN. */
  function ToNumber(v: JsVal): (r: Option<int>)
    ensures v.Num? ==> r == Some(v.n)
    ensures v.Str? ==> r == StringToNumber(v.s)
    ensures v.Arr? ==> r == StringToNumber(ToText(v))
    ensures v.Undefined? || v.Obj? ==> r.None?
  {
    match v
    case Undefined => None
    case Null => Some(0)
    case Bool(b) => Some(if b then 1 else 0)
    case Num(n) => Some(n)
    case Str(s) => StringToNumber(s)
    case Arr(_) => StringToNumber(ToText(v))
    case Obj(_) => None
  }

  /** The decimal digits of a natural number read back in base ten. */
  lemma {:induction false} RadixValueOfNatToString(n: nat)
    ensures RadixValue(NatToString(n), 10) == Some(n)
    decreases n
  {
    var s := NatToString(n);
    if n >= 10 {
      assert s[..|s| - 1] == NatToString(n / 10);
      RadixValueOfNatToString(n / 10);
    }
  }

  /** A number's own text reads back as the number. */
  lemma StringToNumberOfText(n: int)
    ensures StringToNumber(IntToString(n)) == Some(n)
  {
    var m: nat := if n < 0 then -n else n;
    var d := NatToString(m);
    RadixValueOfNatToString(m);
    var s := IntToString(n);
    assert IsDigit(s[|s| - 1]);
    assert IsDigit(s[0]) || s[0] == '-';
    Untrimmed(s);
    assert !(|s| > 2 && s[0] == '0');
    assert TrimmedToNumber(s) == SignedDecimal(s);
    if n < 0 {
      assert s[0] == '-' && s[1..] == d;
      assert SignedDecimal(s) == Some(-(m as int));
    } else {
      assert s == d && IsDigit(s[0]);
      assert SignedDecimal(s) == RadixValue(d, 10);
    }
  }

  /** A string that neither starts nor ends with white space is not
      trimmed. */
  lemma Untrimmed(s: string)
    requires s != [] && !IsJsSpace(s[0]) && !IsJsSpace(s[|s| - 1])
    ensures TrimEnd(TrimStart(s)) == s
  {
  }

  /** White space around a number's text does not change its value. */
  lemma StringToNumberIgnoresPadding(pre: string, s: string, post: string)
    requires forall i :: 0 <= i < |pre| ==> IsJsSpace(pre[i])
    requires forall i :: 0 <= i < |post| ==> IsJsSpace(post[i])
    ensures StringToNumber(pre + s + post) == StringToNumber(s)
  {
    TrimmedPadding(pre, s, post);
  }

  lemma {:induction false} TrimmedPadding(pre: string, s: string, post: string)
    requires forall i :: 0 <= i < |pre| ==> IsJsSpace(pre[i])
    requires forall i :: 0 <= i < |post| ==> IsJsSpace(post[i])
    ensures TrimEnd(TrimStart(pre + s + post)) == TrimEnd(TrimStart(s))
  {
    assert pre + s + post == pre + (s + post);
    TrimStartSkipsSpaces(pre, s + post);
    TrimStartAppend(s, post);
    if TrimStart(s) != [] {
      TrimEndSkipsSpaces(TrimStart(s), post);
    } else {
      TrimStartSkipsSpaces(post, []);
      assert post + [] == post;
    }
  }

  lemma {:induction false} TrimStartSkipsSpaces(pre: string, y: string)
    requires forall i :: 0 <= i < |pre| ==> IsJsSpace(pre[i])
    ensures TrimStart(pre + y) == TrimStart(y)
  {
    if pre != [] {
      assert (pre + y)[1..] == pre[1..] + y;
      TrimStartSkipsSpaces(pre[1..], y);
    } else {
      assert pre + y == y;
    }
  }

  lemma {:induction false} TrimStartAppend(s: string, post: string)
    ensures TrimStart(s) != [] ==> TrimStart(s + post) == TrimStart(s) + post
    ensures TrimStart(s) == [] ==> TrimStart(s + post) == TrimStart(post)
  {
    if s == [] {
      assert s + post == post;
    } else {
      assert (s + post)[0] == s[0];
      if IsJsSpace(s[0]) {
        assert (s + post)[1..] == s[1..] + post;
        TrimStartAppend(s[1..], post);
      }
    }
  }

  lemma {:induction false} TrimEndSkipsSpaces(t: string, post: string)
    requires forall i :: 0 <= i < |post| ==> IsJsSpace(post[i])
    ensures TrimEnd(t + post) == TrimEnd(t)
    decreases |post|
  {
    if post != [] {
      var n := |post| - 1;
      assert (t + post)[..|t + post| - 1] == t + post[..n];
      TrimEndSkipsSpaces(t, post[..n]);
    } else {
      assert t + post == t;
    }
  }

  /** The suffix `getOrdinalSuffix` appends for the number `n`. */
  function OrdinalSuffix(n: int): (s: string)
    ensures s == "st" <==> JsRem(n, 10) == 1 && JsRem(n, 100) != 11
    ensures s == "nd" <==> JsRem(n, 10) == 2 && JsRem(n, 100) != 12
    ensures s == "rd" <==> JsRem(n, 10) == 3 && JsRem(n, 100) != 13
    ensures s == "th" <==>
      !(JsRem(n, 10) == 1 && JsRem(n, 100) != 11)
      && !(JsRem(n, 10) == 2 && JsRem(n, 100) != 12)
      && !(JsRem(n, 10) == 3 && JsRem(n, 100) != 13)
  {
    var j := JsRem(n, 10);
    var k := JsRem(n, 100);
    if j == 1 && k != 11 then "st"
    else if j == 2 && k != 12 then "nd"
    else if j == 3 && k != 13 then "rd"
    else "th"
  }

  /** `getOrdinalSuffix(num)`: the value's own text followed by the suffix;
      a value that converts to NaN always gets "th". */
  function Ordinal(num: JsVal): (r: string)
    ensures num.Num? ==> r == IntToString(num.n) + OrdinalSuffix(num.n)
    ensures ToNumber(num).None? ==> r == ToText(num) + "th"
  {
    match ToNumber(num)
    case Some(n) => ToText(num) + OrdinalSuffix(n)
    case None => ToText(num) + "th"
  }

  /** Adding tens leaves the last digit alone. */
  lemma {:induction false} ModTenShift(k: nat, a: nat)
    ensures (10 * k + a) % 10 == a % 10
  {
    if k > 0 {
      ModTenShift(k - 1, a);
      assert 10 * k + a == (10 * (k - 1) + a) + 10;
    }
  }

  lemma ModTen(m: nat)
    ensures (m % 100) % 10 == m % 10
  {
    var q := m / 100;
    var r := m % 100;
    assert m == 100 * q + r;
    ModTenShift(10 * q, r);
  }

  /** For non-negative numbers the suffix depends only on the last two
      digits. */
  lemma OrdinalSuffixLastTwoDigits(n: nat)
    ensures OrdinalSuffix(n) == OrdinalSuffix(n % 100)
  {
    ModTen(n);
  }

  /** 11, 12 and 13 (and 111, 212, ...) take "th". */
  lemma OrdinalSuffixTeens(n: nat)
    requires 11 <= n % 100 <= 13
    ensures OrdinalSuffix(n) == "th"
  {
    ModTen(n);
  }

  /** Because JavaScript's `%` keeps the sign, every negative number takes
      "th" (so -1 becomes "-1th"). */
  lemma OrdinalSuffixNegative(n: int)
    requires n < 0
    ensures OrdinalSuffix(n) == "th"
  {
  }

  /** `formatInning(inningHalf, inningNum)`: "Top" only for the exact string
      'top', "Bottom" for every other value. */
  function FormatInning(half: JsVal, num: JsVal): (r: string)
    ensures StrictEq(half, Str("top")) ==> r == "Top " + Ordinal(num)
    ensures !StrictEq(half, Str("top")) ==> r == "Bottom " + Ordinal(num)
  {
    (if StrictEq(half, Str("top")) then "Top" else "Bottom") + " " + Ordinal(num)
  }

  lemma FormatInningTopIff(half: JsVal, num: JsVal)
    ensures "Top " <= FormatInning(half, num) <==> half == Str("top")
  {
    var r := FormatInning(half, num);
    if half != Str("top") {
      assert r[0] == 'B';
    }
  }

  /** A number below 100 as two digits, zero-padded (`padStart(2, '0')`). */
  function TwoDigits(n: nat): (t: string)
    requires n < 100
    ensures |t| == 2 && AllDigits(t) && DigitsValue(t) == n
  {
    DigitsValueOfNatToString(n);
    var s := NatToString(n);
    if n >= 10 then
      assert |s| == 2 by { assert s == NatToString(n / 10) + [DigitChar(n % 10)]; }
      s
    else
      var t := PadStart(s, 2, '0');
      assert t == "0" + s;
      assert t[..1] == "0";
      t
  }

  /** `formatDate(date)` given `getFullYear()`, `getMonth()` (0-based) and
      `getDate()`: "year-MM-DD" with month and day padded to two digits and
      the year as it is. */
  function FormatDate(year: int, month0: int, day: int): (r: string)
    requires 0 <= month0 <= 11 && 1 <= day <= 31
    ensures var y := IntToString(year);
      |r| == |y| + 6 && r[..|y|] == y && r[|y|] == '-' && r[|y| + 3] == '-'
      && AllDigits(r[|y| + 1..|y| + 3]) && DigitsValue(r[|y| + 1..|y| + 3]) == month0 + 1
      && AllDigits(r[|y| + 4..]) && DigitsValue(r[|y| + 4..]) == day
  {
    var y := IntToString(year);
    var m := TwoDigits(month0 + 1);
    var d := TwoDigits(day);
    DateParts(y, m, d);
    y + "-" + m + "-" + d
  }

  /** Where the parts of "year-MM-DD" sit. */
  lemma DateParts(y: string, m: string, d: string)
    requires |m| == 2 && |d| == 2
    ensures var r := y + "-" + m + "-" + d;
      |r| == |y| + 6 && r[..|y|] == y && r[|y|] == '-' && r[|y| + 3] == '-'
      && r[|y| + 1..|y| + 3] == m && r[|y| + 4..] == d
  {
    var r := y + "-" + m + "-" + d;
    assert r[|y| + 1..|y| + 3] == m;
    assert r[|y| + 4..] == d;
  }

  predicate IsLiveState(state: JsVal)
  {
    StrictEq(state, Str("Live")) || StrictEq(state, Str("In Progress"))
  }

  /** `getGameStatusClass(status)`. */
  function StatusClass(status: JsVal): (r: string)
    ensures var state := Get(status, "abstractGameState");
      (r == "final" <==> Truthy(status) && state == Str("Final"))
      && (r == "live" <==> Truthy(status) && (state == Str("Live") || state == Str("In Progress")))
      && (r == "preview" <==> Truthy(status) && state == Str("Preview"))
      && (r == "" <==> !Truthy(status) || (state != Str("Final") && !IsLiveState(state) && state != Str("Preview")))
  {
    if !Truthy(status) then ""
    else
      var state := Get(status, "abstractGameState");
      if StrictEq(state, Str("Final")) then "final"
      else if IsLiveState(state) then "live"
      else if StrictEq(state, Str("Preview")) then "preview"
      else ""
  }

  /** `value.includes('Delayed')`, or None where `includes` is not a method
      of the value and the call throws. */
  function IncludesDelayed(value: JsVal): (r: Option<bool>)
    ensures value.Str? ==> r == Some(Contains(value.s, "Delayed"))
    ensures !value.Str? && !value.Arr? ==> r.None?
  {
    match value
    case Str(s) => Some(Contains(s, "Delayed"))
    case Arr(items) => Some(Str("Delayed") in items)
    case _ => None
  }

  /** `getGameStatusDisplay(status)`: the value it returns, or None when it
      throws (a live state whose `detailedState` is neither a string nor an array). The time text of
      a Preview game comes from `formatTime`, which is an input. */
  function StatusDisplay(status: JsVal, formatTime: JsVal -> string): (r: Option<JsVal>)
    ensures !Truthy(status) ==> r == Some(Str(""))
    ensures Truthy(status) && Get(status, "abstractGameState") == Str("Final") ==> r == Some(Str("Final"))
    ensures Truthy(status) && IsLiveState(Get(status, "abstractGameState")) ==>
      match IncludesDelayed(Get(status, "detailedState"))
      case None => r.None?
      case Some(delayed) => r == Some(Str(if delayed then "Delayed" else "Live"))
    ensures r.None? ==> Truthy(status) && IsLiveState(Get(status, "abstractGameState"))
  {
    if !Truthy(status) then Some(Str(""))
    else
      var state := Get(status, "abstractGameState");
      if StrictEq(state, Str("Final")) then Some(Str("Final"))
      else if IsLiveState(state) then
        match IncludesDelayed(Get(status, "detailedState"))
        case None => None
        case Some(delayed) => Some(Str(if delayed then "Delayed" else "Live"))
      else if StrictEq(state, Str("Preview")) then Some(Str(formatTime(Get(status, "gameDate"))))
      else Some(Get(status, "detailedState"))
  }

  /** The status class and the status text agree: a "final" game reads
      "Final", a "live" one "Live" or "Delayed" (or throws), a "preview" one
      its start time, and any other truthy status its detailedState. */
  lemma StatusClassAgreesWithDisplay(status: JsVal, formatTime: JsVal -> string)
    ensures StatusClass(status) == "final" ==> StatusDisplay(status, formatTime) == Some(Str("Final"))
    ensures StatusClass(status) == "live" ==>
      StatusDisplay(status, formatTime) in {None, Some(Str("Live")), Some(Str("Delayed"))}
    ensures StatusClass(status) == "preview" ==>
      StatusDisplay(status, formatTime) == Some(Str(formatTime(Get(status, "gameDate"))))
    ensures StatusClass(status) == "" && Truthy(status) ==>
      StatusDisplay(status, formatTime) == Some(Get(status, "detailedState"))
  {
  }
}
