/** The Python string operations the core applies to configuration text:
    `str.split(sep)` with a one-character separator, `int(text)` in base 10, and
    the zero-padded decimal fields that `strftime` writes. */
module PyText {
  import opened JsonValue

  /** Glue the parts back together with `sep` between neighbours (`sep.join`). */
  function Join(parts: seq<string>, sep: char): string {
    if |parts| == 0 then ""
    else if |parts| == 1 then parts[0]
    else parts[0] + [sep] + Join(parts[1..], sep)
  }

  /** `s.split(sep)`: the maximal pieces of `s` between separators. Python's result is
      the one list of pieces that are free of `sep` and join back to `s`. */
  function Split(s: string, sep: char): (parts: seq<string>)
    ensures |parts| >= 1
    ensures Join(parts, sep) == s
    ensures forall i :: 0 <= i < |parts| ==> sep !in parts[i]
  {
    if |s| == 0 then [""]
    else
      var rest := Split(s[1..], sep);
      if s[0] == sep then
        assert Join([""] + rest, sep) == "" + [sep] + Join(rest, sep);
        [""] + rest
      else
        var parts := [[s[0]] + rest[0]] + rest[1..];
        assert parts[1..] == rest[1..];
        assert Join(parts, sep) == [s[0]] + Join(rest, sep);
        assert s == [s[0]] + s[1..];
        parts
  }

  /** A text free of the separator is one piece. */
  lemma {:induction false} SplitNoSeparator(a: string, sep: char)
    requires sep !in a
    ensures Split(a, sep) == [a]
    decreases |a|
  {
    if |a| > 0 {
      SplitNoSeparator(a[1..], sep);
      assert a == [a[0]] + a[1..];
    }
  }

  /** The first separator cuts off exactly the text before it. */
  lemma {:induction false} SplitAtFirst(a: string, sep: char, b: string)
    requires sep !in a
    ensures Split(a + [sep] + b, sep) == [a] + Split(b, sep)
    decreases |a|
  {
    var s := a + [sep] + b;
    if |a| == 0 {
      assert s[1..] == b;
    } else {
      assert s[1..] == a[1..] + [sep] + b;
      SplitAtFirst(a[1..], sep, b);
      assert [a[0]] + a[1..] == a;
    }
  }

  /** The whitespace `int()` strips: the ASCII space and control whitespace. */
  predicate IsSpace(c: char) {
    c == ' ' || c == '\t' || c == '\n' || c == '\r' || c == '\U{0B}' || c == '\U{0C}'
  }

  predicate IsDigit(c: char) {
    '0' <= c <= '9'
  }

  predicate AllDigits(s: string) {
    forall i :: 0 <= i < |s| ==> IsDigit(s[i])
  }

  /** `s.lstrip()` for the whitespace above. */
  function TrimStart(s: string): (t: string)
    ensures |t| <= |s| && t == s[|s| - |t|..]
    ensures t != [] ==> !IsSpace(t[0])
  {
    if |s| > 0 && IsSpace(s[0]) then TrimStart(s[1..]) else s
  }

  /** `s.rstrip()` for the whitespace above. */
  function TrimEnd(s: string): (t: string)
    ensures |t| <= |s| && t == s[..|t|]
    ensures t != [] ==> !IsSpace(t[|t| - 1])
  {
    if |s| > 0 && IsSpace(s[|s| - 1]) then TrimEnd(s[..|s| - 1]) else s
  }

  function DigitValue(c: char): nat
    requires IsDigit(c)
  {
    (c as int - '0' as int) as nat
  }

  function Digit(d: nat): (c: char)
    requires d < 10
    ensures IsDigit(c) && DigitValue(c) == d
  {
    ('0' as int + d) as char
  }

  /** The number a string of decimal digits denotes, most significant digit first. */
  function DigitsValue(ds: string): nat
    requires AllDigits(ds)
  {
    if |ds| == 0 then 0 else DigitsValue(ds[..|ds| - 1]) * 10 + DigitValue(ds[|ds| - 1])
  }

  /** `int(text)`: surrounding whitespace, an optional sign and at least one decimal
      digit; anything else is a ValueError, given here as None. */
  function ParseInt(text: string): Option<int> {
    ParseSigned(TrimEnd(TrimStart(text)))
  }

  /** An optional sign followed by at least one decimal digit. */
  function ParseSigned(t: string): Option<int> {
    var digits := if |t| > 0 && (t[0] == '-' || t[0] == '+') then t[1..] else t;
    if |digits| == 0 || !AllDigits(digits) then None
    else
      var v: int := DigitsValue(digits);
      Some(if t[0] == '-' then -v else v)
  }

  predicate AllSpace(s: string) {
    forall i :: 0 <= i < |s| ==> IsSpace(s[i])
  }

  /** The texts `int()` accepts: leading whitespace, an optional sign, a non-empty run of
      decimal digits and trailing whitespace, in this order. */
  predicate IntegerLayout(text: string, lead: string, sign: string, digits: string, trail: string) {
    text == lead + sign + digits + trail && AllSpace(lead) && AllSpace(trail) &&
    (sign == "" || sign == "+" || sign == "-") && digits != [] && AllDigits(digits)
  }

  /** The value of a sign and its digits. */
  function SignedValue(sign: string, digits: string): int
    requires AllDigits(digits)
  {
    var v: int := DigitsValue(digits);
    if sign == "-" then -v else v
  }

  /** `int()` accepts a text exactly when it has the layout above, and then gives the
      signed value of its digits; everything else is Python's ValueError. */
  lemma ParseIntShape(text: string)
    ensures ParseInt(text).Some? <==>
      exists lead, sign, digits, trail :: IntegerLayout(text, lead, sign, digits, trail)
    ensures forall lead, sign, digits, trail :: IntegerLayout(text, lead, sign, digits, trail) ==>
      ParseInt(text) == Some(SignedValue(sign, digits))
  {
    forall lead, sign, digits, trail | IntegerLayout(text, lead, sign, digits, trail)
      ensures ParseInt(text) == Some(SignedValue(sign, digits))
    {
      ParseLayout(lead, sign, digits, trail);
    }
    if ParseInt(text).Some? {
      var lead, sign, digits, trail := LayoutOfParsed(text);
    }
  }

  /** The layout of a text that parses, cut at the whitespace `int()` strips. */
  lemma LayoutOfParsed(text: string) returns (lead: string, sign: string, digits: string, trail: string)
    requires ParseInt(text).Some?
    ensures IntegerLayout(text, lead, sign, digits, trail)
  {
    var u := TrimEnd(TrimStart(text));
    lead, trail := StrippedParts(text);
    sign, digits := SignedParts(u);
    Regroup(lead, sign, digits, trail);
  }

  lemma Regroup(a: string, b: string, c: string, d: string)
    ensures a + (b + c) + d == a + b + c + d
  {
  }

  /** A text is its stripped text with whitespace on either side. */
  lemma StrippedParts(text: string) returns (lead: string, trail: string)
    ensures text == lead + TrimEnd(TrimStart(text)) + trail
    ensures AllSpace(lead) && AllSpace(trail)
  {
    var u0 := TrimStart(text);
    var u := TrimEnd(u0);
    lead := LeadingSpace(text);
    trail := TrailingSpace(u0);
    Associate(lead, u, trail);
  }

  lemma Associate(a: string, b: string, c: string)
    ensures a + (b + c) == a + b + c
  {
  }

  /** What `lstrip` removes, in front of what it keeps. */
  lemma LeadingSpace(text: string) returns (lead: string)
    ensures text == lead + TrimStart(text) && AllSpace(lead)
  {
    TrimStartStrips(text);
    lead := text[..|text| - |TrimStart(text)|];
  }

  /** What `rstrip` removes, behind what it keeps. */
  lemma TrailingSpace(text: string) returns (trail: string)
    ensures text == TrimEnd(text) + trail && AllSpace(trail)
  {
    TrimEndStrips(text);
    trail := text[|TrimEnd(text)|..];
  }

  /** A text `ParseSigned` accepts is an optional sign and a run of digits. */
  lemma SignedParts(u: string) returns (sign: string, digits: string)
    requires ParseSigned(u).Some?
    ensures u == sign + digits
    ensures (sign == "" || sign == "+" || sign == "-") && digits != [] && AllDigits(digits)
  {
    if |u| > 0 && (u[0] == '-' || u[0] == '+') {
      sign := [u[0]];
      digits := u[1..];
    } else {
      sign := "";
      digits := u;
    }
  }

  /** Every text of that layout parses to its signed value. */
  lemma ParseLayout(lead: string, sign: string, digits: string, trail: string)
    requires AllSpace(lead) && AllSpace(trail)
    requires (sign == "" || sign == "+" || sign == "-") && digits != [] && AllDigits(digits)
    ensures ParseInt(lead + sign + digits + trail) == Some(SignedValue(sign, digits))
  {
    var core := sign + digits;
    assert IsDigit(digits[0]) && core[|core| - 1] == digits[|digits| - 1];
    assert IsDigit(core[|core| - 1]);
    assert lead + sign + digits + trail == lead + (core + trail);
    TrimStartSpaces(lead, core + trail);
    TrimEndSpaces(core, trail);
    assert TrimEnd(TrimStart(lead + (core + trail))) == core;
    SignedLayout(sign, digits);
  }

  /** A sign and its digits, with no whitespace around them. */
  lemma SignedLayout(sign: string, digits: string)
    requires (sign == "" || sign == "+" || sign == "-") && digits != [] && AllDigits(digits)
    ensures ParseSigned(sign + digits) == Some(SignedValue(sign, digits))
  {
    var core := sign + digits;
    if sign == "" {
      assert core == digits;
      assert IsDigit(digits[0]);
    } else {
      assert core[0] == sign[0] && core[1..] == digits;
    }
  }

  /** What `lstrip` removes is whitespace. */
  lemma {:induction false} TrimStartStrips(s: string)
    ensures AllSpace(s[..|s| - |TrimStart(s)|])
    decreases |s|
  {
    if |s| > 0 && IsSpace(s[0]) {
      TrimStartStrips(s[1..]);
      var k := |s| - |TrimStart(s)|;
      assert s[..k] == [s[0]] + s[1..][..k - 1];
    }
  }

  /** What `rstrip` removes is whitespace. */
  lemma {:induction false} TrimEndStrips(s: string)
    ensures AllSpace(s[|TrimEnd(s)|..])
    decreases |s|
  {
    if |s| > 0 && IsSpace(s[|s| - 1]) {
      var s' := s[..|s| - 1];
      TrimEndStrips(s');
      var k := |TrimEnd(s)|;
      assert s[k..] == s'[k..] + [s[|s| - 1]];
    }
  }

  /** A character other than whitespace, a sign or a digit makes `int()` fail. */
  lemma AcceptedChars(text: string)
    ensures ParseInt(text).Some? ==>
      forall i :: 0 <= i < |text| ==>
        IsSpace(text[i]) || IsDigit(text[i]) || text[i] == '+' || text[i] == '-'
  {
    if ParseInt(text).Some? {
      var lead, sign, digits, trail := LayoutOfParsed(text);
      forall i | 0 <= i < |text|
        ensures IsSpace(text[i]) || IsDigit(text[i]) || text[i] == '+' || text[i] == '-'
      {
        LayoutChar(text, lead, sign, digits, trail, i);
      }
    }
  }

  /** Each character of such a layout is whitespace, a digit or a sign. */
  lemma LayoutChar(text: string, lead: string, sign: string, digits: string, trail: string, i: int)
    requires IntegerLayout(text, lead, sign, digits, trail) && 0 <= i < |text|
    ensures IsSpace(text[i]) || IsDigit(text[i]) || text[i] == '+' || text[i] == '-'
  {
    if i < |lead| {
      assert text[i] == lead[i];
    } else if i < |lead| + |sign| {
      assert text[i] == sign[i - |lead|];
    } else if i < |lead| + |sign| + |digits| {
      assert text[i] == digits[i - |lead| - |sign|];
    } else {
      assert text[i] == trail[i - |lead| - |sign| - |digits|];
    }
  }

  /** One character that is no whitespace, digit or sign is a ValueError for `int()`. */
  lemma ParseIntRejects(text: string, i: int)
    requires 0 <= i < |text|
    requires !IsSpace(text[i]) && !IsDigit(text[i]) && text[i] != '+' && text[i] != '-'
    ensures ParseInt(text) == None
  {
    AcceptedChars(text);
  }

  /** The decimal digits of `n`, without leading zeros. */
  function ShowNat(n: nat): (s: string)
    ensures |s| > 0 && AllDigits(s)
  {
    if n < 10 then [Digit(n)] else ShowNat(n / 10) + [Digit(n % 10)]
  }

  /** `str(n)`. */
  function Show(n: int): (s: string) {
    if n < 0 then "-" + ShowNat(-n) else ShowNat(n)
  }

  lemma {:induction false} DigitsOfShowNat(n: nat)
    ensures DigitsValue(ShowNat(n)) == n
  {
    if n >= 10 {
      var s := ShowNat(n);
      assert s[..|s| - 1] == ShowNat(n / 10);
      DigitsOfShowNat(n / 10);
    }
  }

  /** Text without surrounding whitespace is left alone by the stripping. */
  lemma TrimUnpadded(t: string)
    requires t != [] && !IsSpace(t[0]) && !IsSpace(t[|t| - 1])
    ensures TrimEnd(TrimStart(t)) == t
  {
  }

  /** `int(str(n)) == n` for every integer. */
  lemma ParseShow(n: int)
    ensures ParseInt(Show(n)) == Some(n)
  {
    TrimUnpadded(Show(n));
    SignedShow(n);
  }

  lemma SignedShow(n: int)
    ensures ParseSigned(Show(n)) == Some(n)
  {
    var m: nat := if n < 0 then -n else n;
    DigitsOfShowNat(m);
    if n < 0 {
      assert Show(n)[1..] == ShowNat(m);
    }
  }

  /** `int()` accepts the whitespace around a number. */
  lemma ParsePadded(n: int, before: string, after: string)
    requires forall i :: 0 <= i < |before| ==> IsSpace(before[i])
    requires forall i :: 0 <= i < |after| ==> IsSpace(after[i])
    ensures ParseInt(before + Show(n) + after) == Some(n)
  {
    var s := Show(n);
    ShowUnpadded(n);
    var rest := s + after;
    assert before + s + after == before + rest;
    TrimStartSpaces(before, rest);
    TrimEndSpaces(s, after);
    SignedShow(n);
  }

  /** `str(n)` starts with a sign or digit and ends with a digit. */
  lemma ShowUnpadded(n: int)
    ensures Show(n) != [] && !IsSpace(Show(n)[0]) && !IsSpace(Show(n)[|Show(n)| - 1])
  {
    var m: nat := if n < 0 then -n else n;
    var d := ShowNat(m);
    assert IsDigit(d[0]) && IsDigit(d[|d| - 1]);
  }

  lemma {:induction false} TrimStartSpaces(w: string, t: string)
    requires forall i :: 0 <= i < |w| ==> IsSpace(w[i])
    requires t != [] && !IsSpace(t[0])
    ensures TrimStart(w + t) == t
    decreases |w|
  {
    if |w| > 0 {
      assert (w + t)[1..] == w[1..] + t;
      TrimStartSpaces(w[1..], t);
    } else {
      assert w + t == t;
    }
  }

  lemma {:induction false} TrimEndSpaces(t: string, w: string)
    requires forall i :: 0 <= i < |w| ==> IsSpace(w[i])
    requires t != [] && !IsSpace(t[|t| - 1])
    ensures TrimEnd(t + w) == t
    decreases |w|
  {
    if |w| > 0 {
      assert (t + w)[..|t + w| - 1] == t + w[..|w| - 1];
      TrimEndSpaces(t, w[..|w| - 1]);
    } else {
      assert t + w == t;
    }
  }

  function Pow10(k: nat): (p: nat)
    ensures p >= 1
  {
    if k == 0 then 1 else 10 * Pow10(k - 1)
  }

  /** The last `width` decimal digits of `n`, zero-padded (`%02d`, `%04d`). */
  function ZeroPad(n: nat, width: nat): (s: string)
    ensures |s| == width && AllDigits(s)
  {
    if width == 0 then "" else ZeroPad(n / 10, width - 1) + [Digit(n % 10)]
  }

  /** Zero padding loses nothing when the number fits the width. */
  lemma {:induction false} ZeroPadValue(n: nat, width: nat)
    requires n < Pow10(width)
    ensures DigitsValue(ZeroPad(n, width)) == n
  {
    if width > 0 {
      var s := ZeroPad(n, width);
      assert s[..|s| - 1] == ZeroPad(n / 10, width - 1);
      ZeroPadValue(n / 10, width - 1);
    }
  }

  /** `int()` reads a zero-padded field back as the number. */
  lemma ParseZeroPad(n: nat, width: nat)
    requires 1 <= width && n < Pow10(width)
    ensures ParseInt(ZeroPad(n, width)) == Some(n)
  {
    ZeroPadValue(n, width);
    ParseDigits(ZeroPad(n, width));
  }

  /** `int()` reads a non-empty run of digits as its decimal value. */
  lemma ParseDigits(s: string)
    requires |s| > 0 && AllDigits(s)
    ensures ParseInt(s) == Some(DigitsValue(s))
  {
    assert IsDigit(s[0]) && IsDigit(s[|s| - 1]);
    TrimUnpadded(s);
    SignedDigits(s);
  }

  lemma SignedDigits(s: string)
    requires |s| > 0 && AllDigits(s)
    ensures ParseSigned(s) == Some(DigitsValue(s))
  {
    assert IsDigit(s[0]);
  }

  /** Two numbers that fit the width have the same padding only if they are equal. */
  lemma ZeroPadInjective(a: nat, b: nat, width: nat)
    requires a < Pow10(width) && b < Pow10(width)
    ensures ZeroPad(a, width) == ZeroPad(b, width) <==> a == b
  {
    ZeroPadValue(a, width);
    ZeroPadValue(b, width);
  }
}
