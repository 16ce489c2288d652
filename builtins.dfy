/** The few Python built-ins the foil core relies on, stated exactly:
    `str.strip()` with no argument, `str()` of the values a caller may put
    in a configuration dict, and `int()` applied to a string. */
module Builtins {

  datatype Option<+T> = None | Some(value: T)

  /** The Python exceptions the modelled code can raise. */
  datatype PyError = TypeError | AttributeError | ValueError

  /** Either a value or the exception that escaped instead of it. */
  datatype Outcome<+T> = Ok(value: T) | Raised(error: PyError)

  /** A value a caller may place in a configuration dict. */
  datatype PyValue = PyStr(s: string) | PyInt(n: int) | PyBool(b: bool)

  /** The characters Python 2's `str.strip()` removes: space, \t, \n, \v, \f, \r. */
  predicate IsSpace(c: char) {
    c == ' ' || ('\t' <= c <= '\r')
  }

  predicate AllSpace(s: string) {
    forall k :: 0 <= k < |s| ==> IsSpace(s[k])
  }

  /** Neither end of `s` is whitespace. */
  predicate Trimmed(s: string) {
    s == [] || (!IsSpace(s[0]) && !IsSpace(s[|s| - 1]))
  }

  /** `s.lstrip()`: `s` without its leading whitespace. */
  function TrimLeft(s: string): (r: string)
    ensures r == [] || !IsSpace(r[0])
  {
    if s != [] && IsSpace(s[0]) then TrimLeft(s[1..]) else s
  }

  /** `s.rstrip()`: `s` without its trailing whitespace. */
  function TrimRight(s: string): (r: string)
    ensures |r| <= |s| && (r == [] || (!IsSpace(r[|r| - 1]) && r[0] == s[0]))
  {
    if s != [] && IsSpace(s[|s| - 1]) then TrimRight(s[..|s| - 1]) else s
  }

  /** `s.strip()`. */
  function Strip(s: string): (r: string)
    ensures Trimmed(r)
  {
    TrimRight(TrimLeft(s))
  }

  /** `lstrip` removes exactly a whitespace prefix in front of a non-blank start. */
  lemma {:induction false} TrimLeftPadded(pre: string, rest: string)
    requires AllSpace(pre) && (rest == [] || !IsSpace(rest[0]))
    ensures TrimLeft(pre + rest) == rest
  {
    if pre == [] {
      assert pre + rest == rest;
    } else {
      assert (pre + rest)[0] == pre[0];
      assert (pre + rest)[1..] == pre[1..] + rest;
      TrimLeftPadded(pre[1..], rest);
    }
  }

  /** `rstrip` removes exactly a whitespace suffix behind a non-blank end. */
  lemma {:induction false} TrimRightPadded(rest: string, post: string)
    requires AllSpace(post) && (rest == [] || !IsSpace(rest[|rest| - 1]))
    ensures TrimRight(rest + post) == rest
  {
    if post == [] {
      assert rest + post == rest;
    } else {
      var s := rest + post;
      assert s[|s| - 1] == post[|post| - 1];
      assert s[..|s| - 1] == rest + post[..|post| - 1];
      TrimRightPadded(rest, post[..|post| - 1]);
    }
  }

  /** Stripping removes exactly the whitespace padding around a trimmed core:
      this pins `Strip` down completely. */
  lemma {:induction false} StripPadded(pre: string, core: string, post: string)
    requires AllSpace(pre) && AllSpace(post) && Trimmed(core)
    ensures Strip(pre + core + post) == core
  {
    if core == [] {
      assert pre + core + post == (pre + post) + [];
      TrimLeftPadded(pre + post, []);
    } else {
      assert pre + core + post == pre + (core + post);
      TrimLeftPadded(pre, core + post);
      TrimRightPadded(core, post);
    }
  }

  /** `lstrip` keeps a suffix of its input and drops only whitespace. */
  lemma {:induction false} TrimLeftSuffix(s: string)
    ensures |TrimLeft(s)| <= |s|
    ensures s[|s| - |TrimLeft(s)|..] == TrimLeft(s)
    ensures AllSpace(s[..|s| - |TrimLeft(s)|])
  {
    if s != [] && IsSpace(s[0]) {
      TrimLeftSuffix(s[1..]);
      var n := |s| - |TrimLeft(s)|;
      assert s[1..][n - 1..] == s[n..];
      assert s[..n] == [s[0]] + s[1..][..n - 1];
    }
  }

  /** `rstrip` keeps a prefix of its input and drops only whitespace. */
  lemma {:induction false} TrimRightPrefix(s: string)
    ensures |TrimRight(s)| <= |s|
    ensures s[..|TrimRight(s)|] == TrimRight(s)
    ensures AllSpace(s[|TrimRight(s)|..])
  {
    if s != [] && IsSpace(s[|s| - 1]) {
      var init := s[..|s| - 1];
      TrimRightPrefix(init);
      var n := |TrimRight(s)|;
      assert init[..n] == s[..n];
      assert s[n..] == init[n..] + [s[|s| - 1]];
    }
  }

  /** Every string is whitespace, then its `strip()`, then whitespace; with
      `StripPadded` this determines `strip` completely. */
  lemma StripDecomposes(s: string)
    ensures exists pre, post :: AllSpace(pre) && AllSpace(post) && s == pre + Strip(s) + post
  {
    var left := TrimLeft(s);
    TrimLeftSuffix(s);
    TrimRightPrefix(left);
    var pre := s[..|s| - |left|];
    var post := left[|Strip(s)|..];
    assert left == Strip(s) + post;
    assert s == pre + left;
    assert s == pre + Strip(s) + post;
  }

  /** A blank string strips to nothing. */
  lemma StripBlank(s: string)
    ensures AllSpace(s) ==> Strip(s) == []
  {
    if AllSpace(s) {
      StripPadded(s, [], []);
      assert s + [] + [] == s;
    }
  }

  predicate IsDigit(c: char) {
    '0' <= c <= '9'
  }

  predicate AllDigits(s: string) {
    forall k :: 0 <= k < |s| ==> IsDigit(s[k])
  }

  /** The base-10 value of a string of ASCII digits. */
  function DigitsValue(s: string): (v: nat)
    requires AllDigits(s)
  {
    if s == [] then 0
    else DigitsValue(s[..|s| - 1]) * 10 + (s[|s| - 1] as int - '0' as int)
  }

  /** The decimal digits of `n`, most significant first, without leading zeros. */
  function Decimal(n: nat): (r: string)
    ensures r != [] && AllDigits(r)
    ensures DigitsValue(r) == n
    ensures r[0] != '0' || n == 0
  {
    var last := ('0' as int + n % 10) as char;
    if n < 10 then [last]
    else
      var front := Decimal(n / 10);
      assert (front + [last])[..|front|] == front;
      front + [last]
  }

  /** Python's `str(v)`: a string is itself, a bool is "True" or "False",
      and an integer is a minus sign when negative followed by the decimal
      digits of its magnitude. */
  function ToStr(v: PyValue): (r: string)
    ensures v.PyStr? ==> r == v.s
    ensures v.PyBool? ==> (r == "True" <==> v.b) && (r == "False" <==> !v.b)
    ensures v.PyInt? ==> r != [] && (r[0] == '-' <==> v.n < 0)
    ensures v.PyInt? && v.n >= 0 ==> AllDigits(r) && DigitsValue(r) == v.n
    ensures v.PyInt? && v.n < 0 ==> AllDigits(r[1..]) && DigitsValue(r[1..]) == -v.n
  {
    match v
    case PyStr(s) => s
    case PyInt(n) => if n < 0 then "-" + Decimal(-n) else Decimal(n)
    case PyBool(b) => if b then "True" else "False"
  }

  /** Python 2's `int(s)` for a string `s`: surrounding whitespace, an
      optional sign, whitespace again after a sign, then at least one decimal
      digit; anything else is a ValueError. */
  function ParseInt(s: string): (r: Outcome<int>)
    ensures r.Raised? ==> r.error == ValueError
  {
    ParseSigned(Strip(s))
  }

  /** `int()` of a string with no surrounding whitespace; whitespace between
      the sign and the digits is skipped. */
  function ParseSigned(t: string): (r: Outcome<int>)
    ensures r.Raised? ==> r.error == ValueError
  {
    if t != [] && (t[0] == '-' || t[0] == '+') then
      var digits := TrimLeft(t[1..]);
      if digits != [] && AllDigits(digits) then
        Ok(if t[0] == '-' then -(DigitsValue(digits) as int) else DigitsValue(digits))
      else Raised(ValueError)
    else if t != [] && AllDigits(t) then Ok(DigitsValue(t))
    else Raised(ValueError)
  }

  /** Whitespace between the sign and the digits is skipped: `int("- 5") == -5`. */
  lemma {:induction false} ParseSignedSpacedSign(sign: char, ws: string, digits: string)
    requires sign == '-' || sign == '+'
    requires AllSpace(ws) && digits != [] && AllDigits(digits)
    ensures ParseSigned([sign] + ws + digits) ==
      Ok(if sign == '-' then -(DigitsValue(digits) as int) else DigitsValue(digits))
  {
    var t := [sign] + ws + digits;
    assert t[1..] == ws + digits;
    TrimLeftPadded(ws, digits);
  }

  /** A rendered integer carries no surrounding whitespace. */
  lemma StripIntStr(n: int)
    ensures Strip(ToStr(PyInt(n))) == ToStr(PyInt(n))
  {
    var t := ToStr(PyInt(n));
    var d := Decimal(if n < 0 then -n else n);
    assert t[|t| - 1] == d[|d| - 1];
    assert Trimmed(t);
    StripPadded("", t, "");
    assert "" + t + "" == t;
  }

  /** `int(str(n)) == n`: rendering an integer and parsing it back is lossless. */
  lemma {:induction false} ParseIntToStr(n: int)
    ensures ParseInt(ToStr(PyInt(n))) == Ok(n)
  {
    var t := ToStr(PyInt(n));
    assert Strip(t) == t by { StripIntStr(n); }
    if n < 0 {
      assert t == "-" + Decimal(-n);
      assert t[1..] == Decimal(-n);
      assert TrimLeft(t[1..]) == t[1..];
    } else {
      assert IsDigit(t[0]);
    }
  }
}
