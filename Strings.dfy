/** The Python string operations the bot relies on: `str.split()` with no
    separator, `str.split(',')`, `str.strip()`, `str.startswith`, `int()` on a
    decimal string and `str()` of an integer. Whitespace is the ASCII part of
    what Python's `str.isspace` accepts. */
module Strings {
  import opened Json

  /** ASCII characters Python treats as whitespace: space, \t, \n, \v, \f, \r
      and the four separators \x1c to \x1f. */
  predicate IsSpace(c: char) {
    c == ' ' || c == '\t' || c == '\n' || c == '\r'
    || ('\U{000B}' <= c <= '\U{000C}') || ('\U{001C}' <= c <= '\U{001F}')
  }

  predicate NoSpace(t: string) {
    forall i :: 0 <= i < |t| ==> !IsSpace(t[i])
  }

  predicate AllSpace(t: string) {
    forall i :: 0 <= i < |t| ==> IsSpace(t[i])
  }

  /** `s.startswith(p)`. */
  predicate StartsWith(s: string, p: string) {
    IsPrefix(p, s)
  }

  /** `sep.join(parts)`. */
  function Join(sep: string, parts: seq<string>): string {
    if |parts| == 0 then ""
    else if |parts| == 1 then parts[0]
    else parts[0] + sep + Join(sep, parts[1..])
  }

  /** Length of the longest prefix of `s` free of whitespace. */
  function TokenLen(s: string): (n: nat)
    ensures n <= |s|
    ensures NoSpace(s[..n])
    ensures n < |s| ==> IsSpace(s[n])
  {
    if s == [] || IsSpace(s[0]) then 0
    else
      var n := 1 + TokenLen(s[1..]);
      assert s[..n] == [s[0]] + s[1..][..n - 1];
      n
  }

  /** `s.split()`: the maximal runs of non-whitespace characters, in order. */
  function Split(s: string): (r: seq<string>)
    ensures forall i :: 0 <= i < |r| ==> r[i] != "" && NoSpace(r[i])
    decreases |s|
  {
    if s == [] then []
    else if IsSpace(s[0]) then Split(s[1..])
    else
      var n := TokenLen(s);
      [s[..n]] + Split(s[n..])
  }

  lemma {:induction false} TokenLenOf(t: string, rest: string)
    requires NoSpace(t)
    requires rest == [] || IsSpace(rest[0])
    ensures TokenLen(t + rest) == |t|
  {
    if t != [] {
      assert (t + rest)[1..] == t[1..] + rest;
      TokenLenOf(t[1..], rest);
    }
  }

  lemma {:induction false} SplitSkipsSpace(w: string, s: string)
    requires AllSpace(w)
    ensures Split(w + s) == Split(s)
  {
    if w != [] {
      assert (w + s)[0] == w[0];
      assert (w + s)[1..] == w[1..] + s;
      assert AllSpace(w[1..]) by { assert forall k :: 0 <= k < |w[1..]| ==> w[1..][k] == w[k + 1]; }
      SplitSkipsSpace(w[1..], s);
    } else {
      assert w + s == s;
    }
  }

  lemma SplitCons(t: string, rest: string)
    requires t != "" && NoSpace(t)
    requires rest == [] || IsSpace(rest[0])
    ensures Split(t + rest) == [t] + Split(rest)
  {
    TokenLenOf(t, rest);
    assert (t + rest)[0] == t[0];
    assert (t + rest)[..|t|] == t;
    assert (t + rest)[|t|..] == rest;
  }

  lemma {:induction false} SplitJoinTail(toks: seq<string>, v: string)
    requires AllSpace(v)
    requires forall i :: 0 <= i < |toks| ==> toks[i] != "" && NoSpace(toks[i])
    ensures Split(Join(" ", toks) + v) == toks
    decreases |toks|
  {
    if |toks| == 0 {
      SplitSkipsSpace(v, []);
      assert v + [] == v;
      assert Join(" ", toks) + v == v;
    } else if |toks| == 1 {
      SplitCons(toks[0], v);
      SplitSkipsSpace(v, []);
      assert v + [] == v;
    } else {
      SplitJoinTail(toks[1..], v);
      SplitJoinStep(toks, v);
    }
  }

  lemma SplitJoinStep(toks: seq<string>, v: string)
    requires |toks| >= 2
    requires toks[0] != "" && NoSpace(toks[0])
    requires Split(Join(" ", toks[1..]) + v) == toks[1..]
    ensures Split(Join(" ", toks) + v) == toks
  {
    var tail := Join(" ", toks[1..]) + v;
    assert toks == [toks[0]] + toks[1..];
    JoinCons(toks[0], toks[1..], " ");
    assert Join(" ", toks) + v == toks[0] + (" " + tail);
    SplitCons(toks[0], " " + tail);
    SplitSkipsSpace(" ", tail);
  }

  /** Splitting a space-joined list of tokens gives the tokens back, whatever
      whitespace surrounds it. */
  lemma SplitJoin(w: string, toks: seq<string>, v: string)
    requires AllSpace(w) && AllSpace(v)
    requires forall i :: 0 <= i < |toks| ==> toks[i] != "" && NoSpace(toks[i])
    ensures Split(w + Join(" ", toks) + v) == toks
  {
    assert w + Join(" ", toks) + v == w + (Join(" ", toks) + v);
    SplitSkipsSpace(w, Join(" ", toks) + v);
    SplitJoinTail(toks, v);
  }

  /** `s` without its leading whitespace. */
  /** Tokens, each followed by its own run of whitespace: `toks[0] + gaps[0] +
      toks[1] + gaps[1] + ...`. Every run but the last separates two tokens. */
  function Weave(toks: seq<string>, gaps: seq<string>): string
    requires |gaps| == |toks|
  {
    if toks == [] then "" else toks[0] + (gaps[0] + Weave(toks[1..], gaps[1..]))
  }

  /** The runs that may follow the tokens: whitespace only, and non-empty
      between two tokens. */
  predicate Gaps(toks: seq<string>, gaps: seq<string>) {
    && |gaps| == |toks|
    && (forall i :: 0 <= i < |gaps| ==> AllSpace(gaps[i]))
    && (forall i :: 0 <= i < |gaps| - 1 ==> gaps[i] != "")
  }

  predicate Tokens(toks: seq<string>) {
    forall i :: 0 <= i < |toks| ==> toks[i] != "" && NoSpace(toks[i])
  }

  lemma {:induction false} SplitWeaveFrom(toks: seq<string>, gaps: seq<string>)
    requires Tokens(toks) && Gaps(toks, gaps)
    ensures Split(Weave(toks, gaps)) == toks
    decreases |toks|
  {
    if toks != [] {
      var t, g := toks[0], gaps[0];
      var rest := Weave(toks[1..], gaps[1..]);
      assert Tokens(toks[1..]) by {
        forall i | 0 <= i < |toks[1..]| ensures toks[1..][i] != "" && NoSpace(toks[1..][i]) {
          assert toks[1..][i] == toks[i + 1];
        }
      }
      assert Gaps(toks[1..], gaps[1..]) by {
        forall i | 0 <= i < |gaps[1..]| ensures AllSpace(gaps[1..][i]) && (i < |gaps[1..]| - 1 ==> gaps[1..][i] != "") {
          assert gaps[1..][i] == gaps[i + 1];
        }
      }
      SplitWeaveFrom(toks[1..], gaps[1..]);
      if g == "" {
        assert |toks| == 1 && rest == "";
        assert g + rest == [];
      }
      SplitCons(t, g + rest);
      SplitSkipsSpace(g, rest);
    }
  }

  /** `s.split()` on tokens separated by any non-empty runs of whitespace,
      with any whitespace before and after, gives exactly the tokens. */
  lemma SplitWeave(w: string, toks: seq<string>, gaps: seq<string>)
    requires AllSpace(w) && Tokens(toks) && Gaps(toks, gaps)
    ensures Split(w + Weave(toks, gaps)) == toks
  {
    SplitSkipsSpace(w, Weave(toks, gaps));
    SplitWeaveFrom(toks, gaps);
  }

  lemma WeaveHead(toks: seq<string>, gaps: seq<string>)
    requires |gaps| == |toks| && |toks| >= 1 && toks[0] != ""
    ensures Weave(toks, gaps) != [] && Weave(toks, gaps)[0] == toks[0][0]
  {
  }

  lemma SpaceStep(c: char, w': string, r: string)
    requires IsSpace(c) && AllSpace(w')
    ensures AllSpace([c] + w') && [c] + (w' + r) == ([c] + w') + r
  {
    var w := [c] + w';
    forall i | 0 <= i < |w| ensures IsSpace(w[i]) {
      if i > 0 { assert w[i] == w'[i - 1]; }
    }
  }

  lemma TokenStep(tok: string, rest: string, w': string, toks': seq<string>, gaps': seq<string>)
    requires tok != "" && NoSpace(tok) && Tokens(toks') && Gaps(toks', gaps') && AllSpace(w')
    requires rest == w' + Weave(toks', gaps')
    requires rest == [] || IsSpace(rest[0])
    ensures Gaps([tok] + toks', [w'] + gaps')
    ensures tok + rest == Weave([tok] + toks', [w'] + gaps')
  {
    var toks, gaps := [tok] + toks', [w'] + gaps';
    if toks' != [] {
      WeaveHead(toks', gaps');
      assert !IsSpace(Weave(toks', gaps')[0]);
      assert rest != [] && IsSpace(rest[0]);
      assert w' != "";
    }
    assert toks[1..] == toks' && gaps[1..] == gaps';
    forall i | 0 <= i < |gaps| ensures AllSpace(gaps[i]) && (i < |gaps| - 1 ==> gaps[i] != "") {
      if i > 0 { assert gaps[i] == gaps'[i - 1]; }
    }
  }

  /** Every string is whitespace, then the tokens of its split, each followed
      by its run of whitespace: `s.split()` drops only whitespace and keeps
      every other character, in order. */
  lemma {:induction false} SplitDecompose(s: string) returns (w: string, gaps: seq<string>)
    ensures AllSpace(w) && Gaps(Split(s), gaps)
    ensures s == w + Weave(Split(s), gaps)
    decreases |s|
  {
    if s == [] {
      w, gaps := "", [];
    } else if IsSpace(s[0]) {
      var w', gaps' := SplitDecompose(s[1..]);
      SpaceStep(s[0], w', Weave(Split(s[1..]), gaps'));
      w, gaps := [s[0]] + w', gaps';
      assert s == [s[0]] + s[1..];
    } else {
      var n := TokenLen(s);
      var tok, rest := s[..n], s[n..];
      assert n != 0;
      var w', gaps' := SplitDecompose(rest);
      TokenStep(tok, rest, w', Split(rest), gaps');
      w, gaps := "", [w'] + gaps';
      assert s == tok + rest;
    }
  }

  function StripLeft(s: string): string {
    if s != [] && IsSpace(s[0]) then StripLeft(s[1..]) else s
  }

  /** `s` without its trailing whitespace. */
  function StripRight(s: string): string {
    if s != [] && IsSpace(s[|s| - 1]) then StripRight(s[..|s| - 1]) else s
  }

  /** `s.strip()`. */
  function Strip(s: string): (r: string)
    ensures |r| <= |s|
    ensures r == [] || (!IsSpace(r[0]) && !IsSpace(r[|r| - 1]))
  {
    StripLeftSpec(s);
    StripRightSpec(StripLeft(s));
    var r := StripRight(StripLeft(s));
    assert r != [] ==> r[0] == StripLeft(s)[0];
    r
  }

  lemma {:induction false} StripLeftSpec(s: string)
    ensures var r := StripLeft(s);
      |r| <= |s| && r == s[|s| - |r|..] && AllSpace(s[..|s| - |r|]) && (r == [] || !IsSpace(r[0]))
  {
    if s != [] && IsSpace(s[0]) {
      var t := s[1..];
      StripLeftSpec(t);
      var r := StripLeft(t);
      var k := |t| - |r|;
      assert t[k..] == s[k + 1..];
      assert s[..k + 1] == [s[0]] + t[..k];
      assert AllSpace([s[0]] + t[..k]);
    }
  }

  lemma {:induction false} StripRightSpec(s: string)
    ensures var r := StripRight(s);
      |r| <= |s| && r == s[..|r|] && AllSpace(s[|r|..]) && (r == [] || !IsSpace(r[|r| - 1]))
  {
    if s != [] && IsSpace(s[|s| - 1]) {
      StripRightSpec(s[..|s| - 1]);
      var r := StripRight(s[..|s| - 1]);
      assert s[|r|..] == s[..|s| - 1][|r|..] + [s[|s| - 1]];
    }
  }

  /** `s.strip()` is the slice of `s` left after dropping whitespace at both
      ends: only whitespace is dropped, and what is left neither starts nor
      ends with whitespace. */
  lemma StripSpec(s: string)
    ensures var r := Strip(s);
      && (exists i, j :: 0 <= i <= j <= |s| && r == s[i..j] && AllSpace(s[..i]) && AllSpace(s[j..]))
      && (r == [] || (!IsSpace(r[0]) && !IsSpace(r[|r| - 1])))
  {
    var l := StripLeft(s);
    StripLeftSpec(s);
    StripRightSpec(l);
    var r := Strip(s);
    var i := |s| - |l|;
    assert r == s[i..i + |r|];
    assert s[i + |r|..] == l[|r|..];
  }

  /** Text free of whitespace is left as it is. */
  lemma StripPlain(t: string)
    requires NoSpace(t)
    ensures Strip(t) == t
  {
    assert StripLeft(t) == t;
    assert StripRight(t) == t;
  }

  /** `s.split(d)` for a one-character separator `d`: the pieces between
      separators, empty ones included, never an empty list. */
  function SplitOn(s: string, d: char): (r: seq<string>)
    ensures |r| >= 1
    ensures forall i :: 0 <= i < |r| ==> d !in r[i]
  {
    if s == [] then [""]
    else
      var rest := SplitOn(s[1..], d);
      if s[0] == d then [""] + rest
      else [[s[0]] + rest[0]] + rest[1..]
  }

  /** Joining the pieces of a split with the separator restores the string. */
  lemma {:induction false} JoinSplitOn(s: string, d: char)
    ensures Join([d], SplitOn(s, d)) == s
  {
    if s != [] {
      var rest := SplitOn(s[1..], d);
      JoinSplitOn(s[1..], d);
      if s[0] != d && |rest| > 1 {
        assert rest == [rest[0]] + rest[1..];
        assert Join([d], rest) == rest[0] + [d] + Join([d], rest[1..]);
      }
    }
  }

  lemma JoinCons(p: string, rest: seq<string>, sep: string)
    requires |rest| >= 1
    ensures Join(sep, [p] + rest) == p + sep + Join(sep, rest)
  {
    assert ([p] + rest)[1..] == rest;
  }

  /** A string free of the separator is a single piece. */
  lemma {:induction false} SplitOnPlain(p: string, d: char)
    requires d !in p
    ensures SplitOn(p, d) == [p]
  {
    if p != [] {
      SplitOnPlain(p[1..], d);
      assert p == [p[0]] + p[1..];
    }
  }

  /** A separator-free prefix followed by the separator is the first piece. */
  lemma {:induction false} SplitOnPrefix(p: string, rest: string, d: char)
    requires d !in p
    ensures SplitOn(p + [d] + rest, d) == [p] + SplitOn(rest, d)
  {
    var s := p + [d] + rest;
    if p == [] {
      assert s == [d] + rest;
      assert s[1..] == rest;
    } else {
      assert s[1..] == p[1..] + [d] + rest;
      SplitOnPrefix(p[1..], rest, d);
      assert p == [p[0]] + p[1..];
    }
  }

  /** Splitting pieces free of the separator, joined by it, gives the pieces back. */
  lemma {:induction false} SplitOnJoin(ps: seq<string>, d: char)
    requires |ps| >= 1
    requires forall i :: 0 <= i < |ps| ==> d !in ps[i]
    ensures SplitOn(Join([d], ps), d) == ps
  {
    if |ps| == 1 {
      SplitOnPlain(ps[0], d);
    } else {
      assert ps == [ps[0]] + ps[1..];
      JoinCons(ps[0], ps[1..], [d]);
      SplitOnPrefix(ps[0], Join([d], ps[1..]), d);
      SplitOnJoin(ps[1..], d);
    }
  }

  predicate IsDigit(c: char) {
    '0' <= c <= '9'
  }

  predicate AllDigits(t: string) {
    forall i :: 0 <= i < |t| ==> IsDigit(t[i])
  }

  /** The number a string of decimal digits denotes (leading zeros allowed). */
  function DigitsValue(t: string): nat
    requires AllDigits(t)
  {
    if t == [] then 0
    else 10 * DigitsValue(t[..|t| - 1]) + (t[|t| - 1] as int - '0' as int)
  }

  /** `int(s)` on a string without surrounding whitespace: an optional sign
      followed by one or more ASCII digits; anything else is a ValueError
      (None). */
  function ParseInt(s: string): (r: Option<int>)
    ensures r.Some? ==> s != [] && NoSpace(s)
    ensures r.Some? && r.value < 0 ==> s[0] == '-'
  {
    var signed := |s| > 0 && (s[0] == '+' || s[0] == '-');
    var body := if signed then s[1..] else s;
    if body != [] && AllDigits(body) then
      assert NoSpace(s) by {
        forall i | 0 <= i < |s| ensures !IsSpace(s[i]) {
          if signed && i > 0 { assert s[i] == body[i - 1]; }
        }
      }
      var v: int := DigitsValue(body);
      Some(if signed && s[0] == '-' then -v else v)
    else None
  }

  function Digit(d: nat): char
    requires d < 10
  {
    ('0' as int + d) as char
  }

  /** `str(n)` for a non-negative integer: decimal, no leading zeros. */
  function ShowNat(n: nat): string {
    if n < 10 then [Digit(n)] else ShowNat(n / 10) + [Digit(n % 10)]
  }

  /** `str(n)`. */
  function ShowInt(n: int): string {
    if n < 0 then "-" + ShowNat(-n) else ShowNat(n)
  }

  lemma {:induction false} ShowNatDigits(n: nat)
    ensures ShowNat(n) != "" && AllDigits(ShowNat(n))
    ensures DigitsValue(ShowNat(n)) == n
    ensures ShowNat(n)[0] != '0' || n == 0
  {
    if n >= 10 {
      ShowNatDigits(n / 10);
      var t := ShowNat(n / 10) + [Digit(n % 10)];
      assert t[..|t| - 1] == ShowNat(n / 10);
    }
  }

  lemma ParseShowNat(n: nat)
    ensures ParseInt(ShowNat(n)) == Some(n)
  {
    ShowNatDigits(n);
    assert ShowNat(n)[0] != '+' && ShowNat(n)[0] != '-';
  }

  lemma ParseShowNegative(n: nat)
    requires n > 0
    ensures ParseInt("-" + ShowNat(n)) == Some(-(n as int))
  {
    ShowNatDigits(n);
    assert ("-" + ShowNat(n))[1..] == ShowNat(n);
  }

  /** `int(str(n)) == n`. */
  lemma ParseShowInt(n: int)
    ensures ParseInt(ShowInt(n)) == Some(n)
  {
    if n < 0 {
      ParseShowNegative(-n);
    } else {
      ParseShowNat(n);
    }
  }

  /** `k` zero digits. */
  function Zeros(k: nat): (z: string)
    ensures |z| == k && AllDigits(z)
  {
    if k == 0 then "" else "0" + Zeros(k - 1)
  }

  function Abs(v: int): nat {
    if v < 0 then -v else v
  }

  /** The sign written before the digits of `v`: none, `+` for a value that
      is not negative, `-` for one that is not positive (so `-0` is 0). */
  predicate SignFits(sign: string, v: int) {
    (sign == "" && v >= 0) || (sign == "+" && v >= 0) || (sign == "-" && v <= 0)
  }

  lemma DigitsValueSnoc(t: string, c: char)
    requires AllDigits(t) && IsDigit(c)
    ensures AllDigits(t + [c]) && DigitsValue(t + [c]) == 10 * DigitsValue(t) + (c as int - '0' as int)
  {
    assert (t + [c])[..|t|] == t;
  }

  lemma {:induction false} DigitsValueLeadingZero(t: string)
    requires AllDigits(t)
    ensures AllDigits("0" + t) && DigitsValue("0" + t) == DigitsValue(t)
    decreases |t|
  {
    if t == [] {
      assert "0" + t == [] + ['0'];
      DigitsValueSnoc([], '0');
    } else {
      var init, last := t[..|t| - 1], t[|t| - 1];
      assert t == init + [last];
      assert "0" + t == ("0" + init) + [last];
      DigitsValueLeadingZero(init);
      DigitsValueSnoc(init, last);
      DigitsValueSnoc("0" + init, last);
    }
  }

  /** Leading zeros do not change the value. */
  lemma {:induction false} DigitsValueZeros(k: nat, t: string)
    requires AllDigits(t)
    ensures AllDigits(Zeros(k) + t) && DigitsValue(Zeros(k) + t) == DigitsValue(t)
  {
    if k > 0 {
      DigitsValueZeros(k - 1, t);
      assert Zeros(k) + t == "0" + (Zeros(k - 1) + t);
      DigitsValueLeadingZero(Zeros(k - 1) + t);
    } else {
      assert Zeros(k) + t == t;
    }
  }

  lemma ShowNatStep(m: nat, d: nat)
    requires m >= 1 && d < 10
    ensures ShowNat(10 * m + d) == ShowNat(m) + [Digit(d)]
  {
    var n := 10 * m + d;
    assert n / 10 == m && n % 10 == d;
  }

  /** A digit string without a leading zero is the decimal text of its value. */
  lemma {:induction false} ShowNatCanonical(t: string)
    requires t != [] && AllDigits(t) && t[0] != '0'
    ensures ShowNat(DigitsValue(t)) == t
    decreases |t|
  {
    var init, last := t[..|t| - 1], t[|t| - 1];
    var d := last as int - '0' as int;
    assert t == init + [last];
    assert DigitsValue(t) == 10 * DigitsValue(init) + d by {
      DigitsValueSnoc(init, last);
    }
    if init != [] {
      var m := DigitsValue(init);
      assert ShowNat(m) == init by {
        ShowNatCanonical(init);
      }
      assert m != 0 by {
        assert init[0] == t[0];
      }
      assert ShowNat(10 * m + d) == init + [Digit(d)] by {
        ShowNatStep(m, d);
      }
    }
  }

  /** Any digit string is some zeros followed by the decimal text of its value. */
  lemma {:induction false} DigitsCanonical(t: string) returns (k: nat)
    requires t != [] && AllDigits(t)
    ensures t == Zeros(k) + ShowNat(DigitsValue(t))
    decreases |t|
  {
    if t[0] != '0' {
      k := 0;
      ShowNatCanonical(t);
    } else if |t| == 1 {
      k := 0;
      assert t == "0";
      assert DigitsValue(t) == 10 * DigitsValue([]) + 0 by { assert t[..0] == []; }
    } else {
      var k' := DigitsCanonical(t[1..]);
      k := k' + 1;
      assert t == "0" + t[1..];
      DigitsValueLeadingZero(t[1..]);
    }
  }

  /** A sign that fits `v` followed by digits worth `|v|` reads back as `v`. */
  lemma ParseOfParts(s: string, sign: string, body: string, v: int)
    requires s == sign + body && SignFits(sign, v)
    requires body != [] && AllDigits(body) && DigitsValue(body) == Abs(v)
    ensures ParseInt(s) == Some(v)
  {
    if sign == "" {
      assert s == body && IsDigit(s[0]);
    } else {
      assert s[0] == sign[0] && s[1..] == body;
    }
  }

  /** An accepted text splits into a fitting sign and digits worth `|v|`. */
  lemma PartsOfParse(s: string) returns (sign: string, body: string)
    requires ParseInt(s).Some?
    ensures s == sign + body && SignFits(sign, ParseInt(s).value)
    ensures body != [] && AllDigits(body) && DigitsValue(body) == Abs(ParseInt(s).value)
  {
    var signed := |s| > 0 && (s[0] == '+' || s[0] == '-');
    body := if signed then s[1..] else s;
    sign := if signed then [s[0]] else "";
    assert s == sign + body;
  }

  /** Writing `v` with a fitting sign and any leading zeros reads back as `v`:
      `int("007") == 7`, `int("+5") == 5`, `int("-0") == 0`. */
  lemma ParseIntOfForm(s: string, sign: string, k: nat, v: int)
    requires SignFits(sign, v) && s == sign + (Zeros(k) + ShowNat(Abs(v)))
    ensures ParseInt(s) == Some(v)
  {
    var n := Abs(v);
    var body := Zeros(k) + ShowNat(n);
    assert body != [] && AllDigits(body) && DigitsValue(body) == n by {
      ShowNatDigits(n);
      DigitsValueZeros(k, ShowNat(n));
    }
    ParseOfParts(s, sign, body, v);
  }

  /** Every accepted text is a fitting sign, some zeros, then the decimal
      text of the value. */
  lemma ParseIntForm(s: string) returns (sign: string, k: nat)
    requires ParseInt(s).Some?
    ensures SignFits(sign, ParseInt(s).value)
    ensures s == sign + (Zeros(k) + ShowNat(Abs(ParseInt(s).value)))
  {
    var body;
    sign, body := PartsOfParse(s);
    k := DigitsCanonical(body);
    var t := ShowNat(Abs(ParseInt(s).value));
    assert body == Zeros(k) + t;
    assert s == sign + (Zeros(k) + t);
  }

  /** `int(s) == v` exactly when `s` is an optional sign that fits `v`, then
      any number of zeros, then the decimal text of `v`'s magnitude. */
  lemma ParseIntExactly(s: string, v: int)
    ensures ParseInt(s) == Some(v) <==>
      exists sign: string, k: nat :: SignFits(sign, v) && s == sign + (Zeros(k) + ShowNat(Abs(v)))
  {
    if ParseInt(s) == Some(v) {
      var sign, k := ParseIntForm(s);
    }
    if exists sign: string, k: nat :: SignFits(sign, v) && s == sign + (Zeros(k) + ShowNat(Abs(v))) {
      var sign: string, k: nat :| SignFits(sign, v) && s == sign + (Zeros(k) + ShowNat(Abs(v)));
      ParseIntOfForm(s, sign, k, v);
    }
  }
}
