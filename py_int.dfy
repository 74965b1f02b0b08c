/**
 * Python's `int(s)` applied to a `str` in base 10, restricted to ASCII:
 * surrounding whitespace is stripped, an optional `+` or `-` follows, and then
 * one or more decimal digits in which a single `_` may separate two digits.
 * Anything else raises `ValueError`, modelled here as `None`.
 */
module PyInt {
  import opened Wrappers

  /** The ASCII characters `int()` strips: space, tab, newline, vertical tab, form feed, carriage return. */
  predicate IsSpace(c: char) {
    c == ' ' || 9 <= c as int <= 13
  }

  predicate IsDigit(c: char) {
    '0' <= c <= '9'
  }

  function DigitValue(c: char): (d: nat)
    requires IsDigit(c)
    ensures d < 10
  {
    c as int - '0' as int
  }

  function DigitChar(d: nat): (c: char)
    requires d < 10
    ensures IsDigit(c) && DigitValue(c) == d
  {
    ('0' as int + d) as char
  }

  predicate AllSpaces(s: string) {
    forall i :: 0 <= i < |s| ==> IsSpace(s[i])
  }

  /** Drops the leading whitespace. */
  function TrimStart(s: string): string {
    if s != [] && IsSpace(s[0]) then TrimStart(s[1..]) else s
  }

  /** Drops the trailing whitespace. */
  function TrimEnd(s: string): string {
    if s != [] && IsSpace(s[|s| - 1]) then TrimEnd(s[..|s| - 1]) else s
  }

  /** `TrimStart(s)` is the suffix of `s` left after its leading run of spaces. */
  lemma {:induction false} TrimStartSpec(s: string)
    ensures |TrimStart(s)| <= |s|
    ensures forall i :: 0 <= i < |TrimStart(s)| ==> TrimStart(s)[i] == s[i + |s| - |TrimStart(s)|]
    ensures forall i :: 0 <= i < |s| - |TrimStart(s)| ==> IsSpace(s[i])
    ensures TrimStart(s) != [] ==> !IsSpace(TrimStart(s)[0])
  {
    if s != [] && IsSpace(s[0]) {
      TrimStartSpec(s[1..]);
    }
  }

  /** `TrimEnd(s)` is the prefix of `s` left before its trailing run of spaces. */
  lemma {:induction false} TrimEndSpec(s: string)
    ensures |TrimEnd(s)| <= |s|
    ensures forall i :: 0 <= i < |TrimEnd(s)| ==> TrimEnd(s)[i] == s[i]
    ensures forall i :: |TrimEnd(s)| <= i < |s| ==> IsSpace(s[i])
    ensures TrimEnd(s) != [] ==> !IsSpace(TrimEnd(s)[|TrimEnd(s)| - 1])
  {
    if s != [] && IsSpace(s[|s| - 1]) {
      TrimEndSpec(s[..|s| - 1]);
    }
  }

  function Strip(s: string): string {
    TrimEnd(TrimStart(s))
  }

  /**
   * A decimal digit group, `digit ('_'? digit)*`, read from the right:
   * a digit, or a group followed by a digit, or a group, an underscore and a digit.
   */
  predicate IsDigitGroup(s: string)
    decreases |s|
  {
    && |s| > 0
    && IsDigit(s[|s| - 1])
    && var init := s[..|s| - 1];
       || init == []
       || (IsDigit(init[|init| - 1]) && IsDigitGroup(init))
       || (init[|init| - 1] == '_' && IsDigitGroup(init[..|init| - 1]))
  }

  /** The decimal value of the digits of a group, read left to right, underscores skipped. */
  function GroupValue(s: string): nat
    requires IsDigitGroup(s)
    decreases |s|
  {
    var init := s[..|s| - 1];
    var d := DigitValue(s[|s| - 1]);
    if init == [] then d
    else if init[|init| - 1] == '_' then 10 * GroupValue(init[..|init| - 1]) + d
    else 10 * GroupValue(init) + d
  }

  /** The literal after stripping: an optional sign, then a digit group. */
  function ParseStripped(t: string): Option<int> {
    if t != [] && (t[0] == '+' || t[0] == '-') then
      var body := t[1..];
      if IsDigitGroup(body) then
        Some(if t[0] == '-' then -(GroupValue(body) as int) else GroupValue(body))
      else None
    else if IsDigitGroup(t) then Some(GroupValue(t))
    else None
  }

  /** `int(s)` for a `str` argument: `Some(n)` when it returns `n`, `None` when it raises `ValueError`. */
  function ParseInt(s: string): Option<int> {
    ParseStripped(Strip(s))
  }

  /** Canonical decimal rendering of a natural number, without sign or underscores. */
  function ShowNat(n: nat): (s: string)
    ensures |s| > 0
    ensures forall i :: 0 <= i < |s| ==> IsDigit(s[i])
  {
    if n < 10 then [DigitChar(n)] else ShowNat(n / 10) + [DigitChar(n % 10)]
  }

  /** `str(n)` for an integer: a `-` for negatives, then the digits. */
  function ShowInt(n: int): string {
    if n < 0 then "-" + ShowNat(-n) else ShowNat(n)
  }

  // ---------------------------------------------------------------------------
  // Whitespace

  lemma {:induction false} TrimStartOfSpaces(w: string, x: string)
    requires AllSpaces(w)
    ensures TrimStart(w + x) == TrimStart(x)
  {
    if w != [] {
      assert (w + x)[1..] == w[1..] + x;
      TrimStartOfSpaces(w[1..], x);
    } else {
      assert w + x == x;
    }
  }

  lemma {:induction false} TrimEndOfSpaces(x: string, w: string)
    requires AllSpaces(w)
    ensures TrimEnd(x + w) == TrimEnd(x)
  {
    if w != [] {
      var w' := w[..|w| - 1];
      assert (x + w)[..|x + w| - 1] == x + w';
      TrimEndOfSpaces(x, w');
    } else {
      assert x + w == x;
    }
  }

  lemma {:induction false} TrimStartAppend(s: string, w: string)
    requires TrimStart(s) != []
    ensures TrimStart(s + w) == TrimStart(s) + w
  {
    if s != [] && IsSpace(s[0]) {
      assert (s + w)[1..] == s[1..] + w;
      TrimStartAppend(s[1..], w);
    }
  }

  lemma StripOfSpaces(s: string)
    requires AllSpaces(s)
    ensures Strip(s) == []
  {
    TrimStartOfSpaces(s, []);
    assert s + [] == s;
  }

  lemma StripBare(s: string)
    requires s == [] || (!IsSpace(s[0]) && !IsSpace(s[|s| - 1]))
    ensures Strip(s) == s
  {
  }

  /** Surrounding ASCII whitespace never changes what `int()` makes of a string. */
  lemma StripIgnoresSurroundingSpace(w1: string, s: string, w2: string)
    requires AllSpaces(w1) && AllSpaces(w2)
    ensures Strip(w1 + s + w2) == Strip(s)
  {
    assert w1 + s + w2 == w1 + (s + w2);
    TrimStartOfSpaces(w1, s + w2);
    if TrimStart(s) == [] {
      TrimStartSpec(s);
      assert AllSpaces(s);
      assert AllSpaces(s + w2);
      TrimStartOfSpaces(s + w2, []);
      assert s + w2 + [] == s + w2;
    } else {
      TrimStartAppend(s, w2);
      TrimEndOfSpaces(TrimStart(s), w2);
    }
  }

  lemma ParseIgnoresSurroundingSpace(w1: string, s: string, w2: string)
    requires AllSpaces(w1) && AllSpaces(w2)
    ensures ParseInt(w1 + s + w2) == ParseInt(s)
  {
    StripIgnoresSurroundingSpace(w1, s, w2);
  }


  // ---------------------------------------------------------------------------
  // Digit groups

  /** A digit group starts with a digit and holds only digits and underscores. */
  lemma {:induction false} DigitGroupChars(s: string)
    requires IsDigitGroup(s)
    ensures IsDigit(s[0])
    ensures forall i :: 0 <= i < |s| ==> IsDigit(s[i]) || s[i] == '_'
    decreases |s|
  {
    var init := s[..|s| - 1];
    if init == [] {
    } else if IsDigitGroup(init) {
      DigitGroupChars(init);
      assert forall i :: 0 <= i < |init| ==> s[i] == init[i];
    } else {
      var pre := init[..|init| - 1];
      DigitGroupChars(pre);
      assert forall i :: 0 <= i < |pre| ==> s[i] == pre[i];
    }
  }

  /** No two underscores are adjacent in a digit group. */
  lemma {:induction false} DigitGroupNoDoubleUnderscore(s: string, i: nat)
    requires IsDigitGroup(s) && i + 1 < |s|
    ensures s[i] != '_' || s[i + 1] != '_'
    decreases |s|
  {
    var init := s[..|s| - 1];
    if i + 1 < |s| - 1 {
      if IsDigitGroup(init) {
        DigitGroupNoDoubleUnderscore(init, i);
        assert init[i] == s[i] && init[i + 1] == s[i + 1];
      } else {
        var pre := init[..|init| - 1];
        if i + 1 < |pre| {
          DigitGroupNoDoubleUnderscore(pre, i);
          assert pre[i] == s[i] && pre[i + 1] == s[i + 1];
        } else {
          assert s[i] == pre[|pre| - 1];
        }
      }
    }
  }

  /** Two digit groups joined by an underscore form a group worth as much as the two run together. */
  lemma {:induction false} DigitGroupJoin(a: string, b: string)
    requires IsDigitGroup(a) && IsDigitGroup(b)
    ensures IsDigitGroup(a + b) && IsDigitGroup(a + "_" + b)
    ensures GroupValue(a + "_" + b) == GroupValue(a + b)
    decreases |b|
  {
    var binit := b[..|b| - 1];
    var s := a + "_" + b;
    var t := a + b;
    assert s[..|s| - 1] == a + "_" + binit;
    assert t[..|t| - 1] == a + binit;
    assert s[|s| - 1] == b[|b| - 1] == t[|t| - 1];
    if binit == [] {
      assert t[..|t| - 1] == a;
      assert (a + "_")[..|a|] == a;
    } else if IsDigitGroup(binit) {
      DigitGroupJoin(a, binit);
    } else {
      var bpre := binit[..|binit| - 1];
      DigitGroupJoin(a, bpre);
      assert (a + "_" + binit)[..|a + "_" + binit| - 1] == a + "_" + bpre;
      assert (a + binit)[..|a + binit| - 1] == a + bpre;
    }
  }

  /** A leading zero neither breaks a digit group nor changes its value. */
  lemma {:induction false} DigitGroupLeadingZero(s: string)
    requires IsDigitGroup(s)
    ensures IsDigitGroup("0" + s) && GroupValue("0" + s) == GroupValue(s)
    decreases |s|
  {
    var init := s[..|s| - 1];
    var z := "0" + s;
    assert z[..|z| - 1] == "0" + init;
    assert z[|z| - 1] == s[|s| - 1];
    if init == [] {
      assert "0"[..0] == [];
      assert GroupValue("0") == 0;
    } else if IsDigitGroup(init) {
      DigitGroupLeadingZero(init);
    } else {
      var pre := init[..|init| - 1];
      DigitGroupLeadingZero(pre);
      assert ("0" + init)[..|"0" + init| - 1] == "0" + pre;
    }
  }

  /** The canonical rendering of `n` is a digit group worth `n`. */
  lemma {:induction false} ShowNatGroup(n: nat)
    ensures IsDigitGroup(ShowNat(n)) && GroupValue(ShowNat(n)) == n
  {
    var s := ShowNat(n);
    if n >= 10 {
      ShowNatGroup(n / 10);
      assert s[..|s| - 1] == ShowNat(n / 10);
    } else {
      assert s[..0] == [];
    }
  }

  // ---------------------------------------------------------------------------
  // What int() accepts

  lemma ParseDigitGroup(s: string)
    requires IsDigitGroup(s)
    ensures ParseInt(s) == Some(GroupValue(s))
  {
    DigitGroupChars(s);
    StripBare(s);
  }

  lemma ParseSigned(sign: char, s: string)
    requires sign == '+' || sign == '-'
    requires IsDigitGroup(s)
    ensures ParseInt([sign] + s) == Some(if sign == '-' then -(GroupValue(s) as int) else GroupValue(s))
  {
  }

  /** `int(str(n)) == n` for every integer `n`. */
  lemma ParseShowRoundTrip(n: int)
    ensures ParseInt(ShowInt(n)) == Some(n)
  {
    if n < 0 {
      ShowNatGroup(-n);
      ParseSigned('-', ShowNat(-n));
      assert ShowInt(n) == ['-'] + ShowNat(-n);
    } else {
      ShowNatGroup(n);
      ParseDigitGroup(ShowNat(n));
    }
  }

  /** A leading `+` is accepted and changes nothing. */
  lemma ParsePlusSign(s: string)
    requires IsDigitGroup(s)
    ensures ParseInt("+" + s) == ParseInt(s)
  {
    ParseSigned('+', s);
    ParseDigitGroup(s);
  }

  /** Leading zeros are accepted in base 10: `int("06") == int("6")`. */
  lemma ParseLeadingZero(s: string)
    requires IsDigitGroup(s)
    ensures ParseInt("0" + s) == ParseInt(s)
  {
    DigitGroupLeadingZero(s);
    ParseDigitGroup("0" + s);
    ParseDigitGroup(s);
  }

  /** A single underscore between two digit groups is ignored: `int("1_000") == int("1000")`. */
  lemma ParseUnderscoreBetweenGroups(a: string, b: string)
    requires IsDigitGroup(a) && IsDigitGroup(b)
    ensures ParseInt(a + "_" + b) == ParseInt(a + b)
  {
    DigitGroupJoin(a, b);
    ParseDigitGroup(a + "_" + b);
    ParseDigitGroup(a + b);
  }

  // ---------------------------------------------------------------------------
  // What int() refuses

  /** A blank string (empty or only whitespace) is not an integer literal. */
  lemma ParseBlank(s: string)
    requires AllSpaces(s)
    ensures ParseInt(s) == None
  {
    StripOfSpaces(s);
  }

  /** An ASCII character other than whitespace, a digit, a sign or an underscore anywhere makes `int()` fail. */
  lemma ParseRejectsForeignChar(s: string, i: nat)
    requires i < |s| && s[i] as int < 128
    requires !IsSpace(s[i]) && !IsDigit(s[i]) && s[i] != '+' && s[i] != '-' && s[i] != '_'
    ensures ParseInt(s) == None
  {
    var a := TrimStart(s);
    var off := |s| - |a|;
    TrimStartSpec(s);
    assert a[i - off] == s[i];
    var t := TrimEnd(a);
    TrimEndSpec(a);
    assert t[i - off] == s[i];
    if t != [] && (t[0] == '+' || t[0] == '-') {
      var body := t[1..];
      assert body[i - off - 1] == s[i];
      if IsDigitGroup(body) {
        DigitGroupChars(body);
      }
    } else if IsDigitGroup(t) {
      DigitGroupChars(t);
    }
  }

  /** Two adjacent underscores anywhere make `int()` fail. */
  lemma ParseRejectsDoubleUnderscore(s: string, i: nat)
    requires i + 1 < |s| && s[i] == '_' && s[i + 1] == '_'
    ensures ParseInt(s) == None
  {
    var a := TrimStart(s);
    var off := |s| - |a|;
    TrimStartSpec(s);
    assert a[i - off] == '_' && a[i + 1 - off] == '_';
    var t := TrimEnd(a);
    TrimEndSpec(a);
    assert t[i - off] == '_' && t[i + 1 - off] == '_';
    if t != [] && (t[0] == '+' || t[0] == '-') {
      var body := t[1..];
      assert body[i - off - 1] == '_' && body[i - off] == '_';
      if IsDigitGroup(body) {
        DigitGroupNoDoubleUnderscore(body, i - off - 1);
      }
    } else if IsDigitGroup(t) {
      DigitGroupNoDoubleUnderscore(t, i - off);
    }
  }

  // ---------------------------------------------------------------------------
  // Examples

  lemma ParseRejectExamples()
    ensures ParseInt("") == None && ParseInt("  ") == None
    ensures ParseInt("abc") == None
    ensures ParseInt("4.5") == None
    ensures ParseInt("1__0") == None
  {
  }

  lemma ParseRejectPlacementExamples()
    ensures ParseInt("+") == None
    ensures ParseInt("- 5") == None
    ensures ParseInt("_1") == None
    ensures ParseInt("1_") == None
  {
  }

  lemma ParseAcceptPlainExample()
    ensures ParseInt("45") == Some(45)
  {
  }

  lemma ParseAcceptSpacedExample()
    ensures ParseInt(" -12\n") == Some(-12)
  {
    ParseShowRoundTrip(-12);
    assert ShowInt(-12) == "-12";
    ParseIgnoresSurroundingSpace(" ", "-12", "\n");
    assert " " + "-12" + "\n" == " -12\n";
  }

  lemma ParseAcceptZerosExample()
    ensures ParseInt("+007") == Some(7)
  {
    ShowNatGroup(7);
    assert ShowNat(7) == "7";
    DigitGroupLeadingZero("7");
    assert "0" + "7" == "07";
    DigitGroupLeadingZero("07");
    assert "0" + "07" == "007";
    ParsePlusSign("007");
    ParseDigitGroup("007");
  }

  lemma ParseAcceptUnderscoreExample()
    ensures ParseInt("1_000") == Some(1000)
  {
    ShowNatGroup(1);
    assert ShowNat(1) == "1";
    ShowNatGroup(0);
    assert ShowNat(0) == "0";
    DigitGroupLeadingZero("0");
    assert "0" + "0" == "00";
    DigitGroupLeadingZero("00");
    assert "0" + "00" == "000";
    ParseUnderscoreBetweenGroups("1", "000");
    assert "1" + "_" + "000" == "1_000";
    assert "1" + "000" == "1000";
    ParseShowRoundTrip(1000);
    assert ShowInt(1000) == "1000";
  }
}
