/**
 * Response formatting of rsp.go: every outcome becomes the envelope
 * `{code, msg, data?}` written with an HTTP status; failures also abort the
 * handler chain. The status of a failure is derived from its code alone.
 */
module Rsp {
  import opened Wrappers
  import opened Errs
  import opened Gin

  /** The `Rsp` envelope; `data` is absent (omitted from the JSON) on failure. */
  datatype Envelope<D> = Envelope(code: int, msg: string, data: Option<D>)

  /** What a response step leaves behind: the status, the envelope and whether it aborts. */
  datatype Reply<D> = Reply(status: int, env: Envelope<D>, aborts: bool)

  /** The message written for an error that is not an `*Error` (spelled as in the source). */
  const UnknownExceptionMsg := "unknwon exception"

  // ---------------------------------------------------------------------------
  // Go's integer division truncates toward zero.

  function Abs(x: int): nat { if x < 0 then -x else x }

  /** `a / b` on Go integers: the quotient of the magnitudes, negated when the signs differ. */
  function GoQuotient(a: int, b: int): int
    requires b != 0
  {
    if (a < 0) == (b < 0) then Abs(a) / Abs(b) else -(Abs(a) / Abs(b))
  }

  /**
   * Dividing by 10000 as Go does leaves a remainder smaller than 10000 in
   * magnitude that carries the sign of the dividend: the quotient is rounded
   * toward zero.
   */
  lemma GoQuotientRemainder(a: int)
    ensures var r := a - 10000 * GoQuotient(a, 10000); -10000 < r < 10000 && (r > 0 ==> a > 0) && (r < 0 ==> a < 0)
  {
    var m: int := Abs(a);
    var q: int := m / 10000;
    DivisionBounds(m);
    if a < 0 {
      assert GoQuotient(a, 10000) == -q;
      assert a - 10000 * GoQuotient(a, 10000) == -(m - 10000 * q);
    } else {
      assert GoQuotient(a, 10000) == q;
      assert a - 10000 * GoQuotient(a, 10000) == m - 10000 * q;
    }
  }

  lemma DivisionBounds(m: nat)
    ensures 10000 * (m / 10000) <= m < 10000 * (m / 10000) + 10000
  {
  }

  /** The code class test `code / 10000 == 4` selects exactly the codes 40000..49999. */
  lemma QuotientFourRange(code: int)
    ensures GoQuotient(code, 10000) == 4 <==> 40000 <= code <= 49999
  {
    if code < 0 {
      assert GoQuotient(code, 10000) <= 0;
    }
  }

  /** For this test, truncating and Euclidean division agree. */
  lemma QuotientFourEuclidean(code: int)
    ensures GoQuotient(code, 10000) == 4 <==> code / 10000 == 4
  {
    QuotientFourRange(code);
  }

  /** `getHttpStatusByCode`: 400 for codes 40000..49999, 500 for every other code; never 200. */
  function HttpStatusByCode(code: int): (status: int)
    ensures status == StatusBadRequest <==> 40000 <= code <= 49999
    ensures status == StatusBadRequest || status == StatusInternalServerError
  {
    QuotientFourRange(code);
    if GoQuotient(code, 10000) == 4 then StatusBadRequest else StatusInternalServerError
  }

  // ---------------------------------------------------------------------------
  // The replies each response function produces.

  function SuccessReply<D>(data: D): Reply<D>
  {
    Reply(StatusOK, Envelope(ErrCodeOK, "ok", Some(data)), false)
  }

  function FailureCodeMsgReply<D>(code: int, msg: string): Reply<D>
  {
    Reply(HttpStatusByCode(code), Envelope(code, msg, None), true)
  }

  /**
   * The reply for an error value, which may be nil: a domain error's code
   * and message, or the unknown-exception pair for nil or any other error;
   * no data; a status taken from the code; the chain is aborted.
   */
  function FailureReply<D>(err: Option<ErrorValue>): (r: Reply<D>)
    ensures r.aborts && r.env.data == None
    ensures r.status == HttpStatusByCode(r.env.code)
    ensures err.Some? && err.value.DomainErr? ==> r.env.code == err.value.code && r.env.msg == err.value.msg
    ensures err.None? || err.value.ForeignErr? ==> r.env.code == ErrCodeUnknownException && r.env.msg == UnknownExceptionMsg
  {
    match err
    case Some(DomainErr(code, msg)) => FailureCodeMsgReply(code, msg)
    case _ => FailureCodeMsgReply(ErrCodeUnknownException, UnknownExceptionMsg)
  }

  /**
   * The reply for a result pair: with no error, status 200, the OK envelope
   * carrying the payload, no abort; with an error, a 400 or 500 status, no
   * payload, and an abort.
   */
  function ProcessReply<D>(rsp: D, err: Option<ErrorValue>): (r: Reply<D>)
    ensures r.aborts <==> err.Some?
    ensures r.status == StatusOK <==> err.None?
    ensures err.None? ==> r.env == Envelope(ErrCodeOK, "ok", Some(rsp))
    ensures err.Some? ==> r.env.data == None
    ensures err.Some? ==> r.status == StatusBadRequest || r.status == StatusInternalServerError
  {
    match err
    case Some(_) => FailureReply(err)
    case None => SuccessReply(rsp)
  }

  /** `FailureCodeMsg(c, code, msg)` answers exactly as `Failure(c, New(code, msg))`. */
  lemma FailureCodeMsgIsFailureOfNew<D>(code: int, msg: string)
    ensures FailureCodeMsgReply<D>(code, msg) == FailureReply<D>(Some(New(code, msg)))
  {
  }

  /** A failure is a client error exactly when its envelope code is in 40000..49999. */
  lemma FailureStatusClass<D>(err: Option<ErrorValue>)
    ensures FailureReply<D>(err).status == StatusBadRequest
        <==> 40000 <= FailureReply<D>(err).env.code <= 49999
  {
  }

  // ---------------------------------------------------------------------------
  // rsp.go, writing to the request context.

  /** The context shows reply `r`, written over a context whose abort flag was `wasAborted`. */
  ghost predicate Shows<D>(c: Context<Envelope<D>>, r: Reply<D>, wasAborted: bool)
    reads c
  {
    c.status == r.status && c.body == Some(r.env) && c.aborted == (wasAborted || r.aborts)
  }

  /** `Success`: status 200 and `{ErrCodeOK, "ok", data}`; does not abort. */
  method Success<D>(c: Context<Envelope<D>>, data: D)
    modifies c
    ensures Shows(c, SuccessReply(data), old(c.aborted)) && c.keys == old(c.keys)
  {
    c.JSON(StatusOK, Envelope(ErrCodeOK, "ok", Some(data)));
  }

  /** `Failure`: the error's envelope with the status of its code, then abort; `err` may be nil. */
  method Failure<D>(c: Context<Envelope<D>>, err: Option<ErrorValue>)
    modifies c
    ensures Shows(c, FailureReply(err), old(c.aborted)) && c.keys == old(c.keys)
  {
    var code: int, msg: string;
    match err {
      case Some(DomainErr(errCode, errMsg)) =>
        code := errCode;
        msg := errMsg;
      case _ =>
        code := ErrCodeUnknownException;
        msg := UnknownExceptionMsg;
    }
    c.JSON(HttpStatusByCode(code), Envelope(code, msg, None));
    c.Abort();
  }

  /** `FailureCodeMsg`: the envelope `{code, msg}` with the status of `code`, then abort. */
  method FailureCodeMsg<D>(c: Context<Envelope<D>>, code: int, msg: string)
    modifies c
    ensures Shows(c, FailureReply(Some(New(code, msg))), old(c.aborted)) && c.keys == old(c.keys)
  {
    c.JSON(HttpStatusByCode(code), Envelope(code, msg, None));
    c.Abort();
  }

  /** `ProcessRsp`: `Failure(c, err)` when there is an error, `Success(c, rsp)` otherwise. */
  method ProcessRsp<D>(c: Context<Envelope<D>>, rsp: D, err: Option<ErrorValue>)
    modifies c
    ensures err.Some? ==> Shows(c, FailureReply(err), old(c.aborted))
    ensures err.None? ==> Shows(c, SuccessReply(rsp), old(c.aborted))
    ensures Shows(c, ProcessReply(rsp, err), old(c.aborted)) && c.keys == old(c.keys)
  {
    if err.Some? {
      Failure(c, err);
      return;
    }
    Success(c, rsp);
  }
}
