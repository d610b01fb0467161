/**
 * The error model of errs.go: a domain error carrying a numeric code and a
 * message, the checked downcast from Go's `error` interface, and the
 * accessors built on it.
 */
module Errs {

  /** Reserved codes. Their values are fixed process-wide but are not part of this model. */
  const ErrCodeOK: int
  const ErrCodeInvalidReq: int
  const ErrCodeUnknownException: int

  /** The `*Error` record. */
  datatype Error = Error(code: int, msg: string)

  /**
   * A non-nil value of Go's `error` interface: either an `*Error` of this
   * package or an error of any other kind, of which only its text is seen.
   */
  datatype ErrorValue = DomainErr(code: int, msg: string) | ForeignErr(text: string)

  // ---------------------------------------------------------------------------
  // Decimal rendering of integers, as Go's `%d` verb writes them.

  predicate IsDigit(ch: char) { '0' <= ch <= '9' }

  predicate AllDigits(s: string) { forall i :: 0 <= i < |s| ==> IsDigit(s[i]) }

  function DigitChar(d: nat): (ch: char)
    requires d < 10
    ensures IsDigit(ch) && ch as int - '0' as int == d
  {
    ('0' as int + d) as char
  }

  /** The decimal digits of `n`, most significant first, without leading zeros. */
  function NatDigits(n: nat): (s: string)
    ensures |s| > 0 && AllDigits(s)
    ensures |s| > 1 ==> s[0] != '0'
    decreases n
  {
    if n < 10 then [DigitChar(n)] else NatDigits(n / 10) + [DigitChar(n % 10)]
  }

  /** The value of a non-empty digit string. */
  function DigitsValue(s: string): nat
    requires |s| > 0 && AllDigits(s)
  {
    if |s| == 1 then s[0] as int - '0' as int
    else DigitsValue(s[..|s| - 1]) * 10 + (s[|s| - 1] as int - '0' as int)
  }

  /** `fmt.Sprintf("%d", n)`: a minus sign for negative numbers, then the digits of |n|. */
  function Decimal(n: int): (s: string)
  {
    if n < 0 then "-" + NatDigits(-n) else NatDigits(n)
  }

  /** Reads back what `Decimal` writes. */
  function ParseDecimal(s: string): int
    requires |s| > 0
    requires s[0] == '-' ==> |s| > 1 && AllDigits(s[1..])
    requires s[0] != '-' ==> AllDigits(s)
  {
    if s[0] == '-' then -(DigitsValue(s[1..]) as int) else DigitsValue(s)
  }

  lemma {:induction false} DigitsRoundTrip(n: nat)
    ensures DigitsValue(NatDigits(n)) == n
    decreases n
  {
    if n >= 10 {
      var s := NatDigits(n);
      assert s[..|s| - 1] == NatDigits(n / 10);
      DigitsRoundTrip(n / 10);
    }
  }

  /** Every decimal rendering reads back as the number it renders. */
  lemma DecimalRoundTrip(n: int)
    ensures |Decimal(n)| > 0
    ensures Decimal(n)[0] == '-' ==> |Decimal(n)| > 1 && AllDigits(Decimal(n)[1..])
    ensures Decimal(n)[0] != '-' ==> AllDigits(Decimal(n))
    ensures ParseDecimal(Decimal(n)) == n
  {
    var s := Decimal(n);
    if n < 0 {
      var d := NatDigits(-n);
      assert s == "-" + d;
      assert s[0] == '-' && s[1..] == d;
      DigitsRoundTrip(-n);
      assert ParseDecimal(s) == -(DigitsValue(d) as int);
    } else {
      var d := NatDigits(n);
      assert s == d;
      assert d[0] != '-';
      DigitsRoundTrip(n);
    }
  }

  /** No decimal rendering contains a comma. */
  lemma DecimalHasNoComma(n: int, i: int)
    requires 0 <= i < |Decimal(n)|
    ensures Decimal(n)[i] != ','
  {
  }

  // ---------------------------------------------------------------------------
  // errs.go

  /** `(*Error).Error()`: the text `code: <decimal code>, msg: <msg>`. */
  function ErrorString(e: Error): (s: string)
    ensures |s| >= 14 && s[..6] == "code: "
  {
    "code: " + Decimal(e.code) + ", msg: " + e.msg
  }

  /** Distinct errors render to distinct texts: the rendering loses neither code nor message. */
  lemma ErrorStringInjective(a: Error, b: Error)
    requires ErrorString(a) == ErrorString(b)
    ensures a == b
  {
    var s := ErrorString(a);
    var da, db := Decimal(a.code), Decimal(b.code);
    assert s == "code: " + da + ", msg: " + a.msg;
    assert s == "code: " + db + ", msg: " + b.msg;
    if |da| < |db| {
      assert s[6 + |da|] == ',';
      assert s[6 + |da|] == db[|da|];
      DecimalHasNoComma(b.code, |da|);
      assert false;
    }
    if |db| < |da| {
      assert s[6 + |db|] == ',';
      assert s[6 + |db|] == da[|db|];
      DecimalHasNoComma(a.code, |db|);
      assert false;
    }
    assert da == s[6..6 + |da|] == db;
    DecimalRoundTrip(a.code);
    DecimalRoundTrip(b.code);
    assert a.msg == s[6 + |da| + 7..] == b.msg;
  }

  /**
   * The text of any error, `err.Error()`. A domain error's text is `code: `,
   * its decimal code, `, msg: ` and its message, in that order; a foreign
   * error's text is whatever that error reports.
   */
  function ErrorText(err: ErrorValue): (s: string)
    ensures err.DomainErr? ==> (
      var d := Decimal(err.code);
      && |s| == 13 + |d| + |err.msg|
      && s[..6] == "code: "
      && s[6..6 + |d|] == d
      && s[6 + |d|..6 + |d| + 7] == ", msg: "
      && s[6 + |d| + 7..] == err.msg)
    ensures err.ForeignErr? ==> s == err.text
  {
    match err
    case DomainErr(code, msg) => ErrorString(Error(code, msg))
    case ForeignErr(text) => text
  }

  /** `New`: a domain error with exactly the given code and message; the code is not validated. */
  function New(code: int, msg: string): (err: ErrorValue)
    ensures err.DomainErr?
    ensures ToError(err) == Error(code, msg)
  {
    DomainErr(code, msg)
  }

  /** `NewUnknownException`: the unknown-exception code with the text of `err` as message. */
  function NewUnknownException(err: ErrorValue): (r: ErrorValue)
    ensures r.DomainErr? && Code(r) == ErrCodeUnknownException && Msg(r) == ErrorText(err)
  {
    New(ErrCodeUnknownException, ErrorText(err))
  }

  /** `ToError`: the checked downcast; any error that is not an `*Error` makes the source panic. */
  function ToError(err: ErrorValue): (e: Error)
    requires err.DomainErr?
    ensures e.code == err.code && e.msg == err.msg
  {
    Error(err.code, err.msg)
  }

  /** `Code`: the code of a domain error. */
  function Code(err: ErrorValue): (code: int)
    requires err.DomainErr?
    ensures code == err.code
  {
    ToError(err).code
  }

  /** `Msg`: the message of a domain error. */
  function Msg(err: ErrorValue): (msg: string)
    requires err.DomainErr?
    ensures msg == err.msg
  {
    ToError(err).msg
  }

  /** `Equal`: whether a domain error carries the given code. */
  function Equal(err: ErrorValue, code: int): (b: bool)
    requires err.DomainErr?
    ensures b <==> err.code == code
  {
    Code(err) == code
  }

  /** Accessors read back what `New` stored. */
  lemma NewRoundTrip(code: int, msg: string)
    ensures Code(New(code, msg)) == code && Msg(New(code, msg)) == msg
  {
  }

  /** `Equal(New(c, m), k)` holds exactly when `c == k`. */
  lemma EqualNew(c: int, m: string, k: int)
    ensures Equal(New(c, m), k) <==> c == k
  {
  }

  /** The text of a domain error determines it: no two domain errors print alike. */
  lemma ErrorTextInjective(a: ErrorValue, b: ErrorValue)
    requires a.DomainErr? && b.DomainErr?
    requires ErrorText(a) == ErrorText(b)
    ensures a == b
  {
    ErrorStringInjective(ToError(a), ToError(b));
  }

  /**
   * Wrapping a domain error as an unknown exception keeps all of its
   * information: two domain errors wrapped to the same message were equal.
   */
  lemma UnknownExceptionKeepsDomainError(a: ErrorValue, b: ErrorValue)
    requires a.DomainErr? && b.DomainErr?
    requires Msg(NewUnknownException(a)) == Msg(NewUnknownException(b))
    ensures a == b
  {
    ErrorTextInjective(a, b);
  }
}
