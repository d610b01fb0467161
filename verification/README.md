# ginrest, modelled in Dafny

ginrest is a thin layer over the gin web framework. It gives handlers a
uniform error type `(Code, Msg)`, turns a handler's `(response, error)` into
the JSON envelope `{code, msg, data?}` with an HTTP status, and wraps a typed
business function `(ctx, *Req) (*Rsp, error)` into a gin handler that binds
the request, runs an optional hook, calls the service and formats the result.
It also offers a typed per-request key/value store.

The model has one module per source file, plus the slice of gin it needs:

- `wrappers.dfy` (`Wrappers`): `Option`, standing for a nil-able pointer or interface.
- `errs.dfy` (`Errs`): the `Error` record and Go's `error` interface as
  `ErrorValue = DomainErr(code, msg) | ForeignErr(text)`. The panicking downcast
  `ToError` becomes a precondition on `ToError`, `Code`, `Msg` and `Equal`.
  `Error()` is rendered with a `%d` model (`Decimal`), and the rendering is
  proved to read back (`DecimalRoundTrip`) and to be injective.
- `gin.dfy` (`Gin`): the request context as a class. It has the fields
  `status`, `body`, `aborted` and `keys`. `JSON` writes the status and the body;
  `Abort` sets the flag. Stored values are a tagged datatype standing for Go's
  `any`, with a zero value for each type.
- `rsp.dfy` (`Rsp`): the envelope, Go's truncating division, and
  `getHttpStatusByCode`. The pure `*Reply` functions say what each response
  step leaves in the context. The methods `Success`, `Failure`,
  `FailureCodeMsg` and `ProcessRsp` write the context and are proved to
  leave exactly that reply.
- `req.dfy` (`Req`): `Respond` is the pipeline as a
  function of its inputs: the bind outcome, the hook, the two optional
  services and the options. `Handle` (the closure built by `do`), `Do`, `DoOpt`
  and `BindJSON` run it on a context, step by step. `GetKey` and `SetKey` form
  the key store.
- `user_example.dfy` (`UserExample`): the example server's `GetUserInfo` as a
  concrete service, with its two end-to-end answers.

Several pure functions carry no contract of their own; lemmas state their
properties. `Errs.Decimal` (the `%d` verb, errs.go:14) is covered by
`Errs.DecimalRoundTrip`. `Rsp.GoQuotient` (Go's `/`, rsp.go:64) is covered by
`Rsp.GoQuotientRemainder` and `Rsp.QuotientFourRange`. `Req.Prepared` (the
optional hook, req.go:38-40) is covered by `Req.HookRunsOnceBeforeService`.
`Req.Serve` (service selection, req.go:43-49) is covered by
`Req.ServiceTakesPrecedence` and `Req.OptionsPassedThrough`. `Req.Respond`
(the whole `do` pipeline, req.go:29-53) is covered by those lemmas, by
`Req.BindFailureAnswersInvalidParam` and `Req.ServiceResultDecides`, and by
the contract of `Req.Handle`.

The reserved codes `ErrCodeOK`, `ErrCodeInvalidReq` and
`ErrCodeUnknownException` are used by the library but defined outside the
modelled files. They are declared as constants without a value, so nothing
proved depends on their values. In particular, whether an invalid-param
answer carries status 400 depends on `ErrCodeInvalidReq` lying in
40000..49999. The model proves that its status is `HttpStatusByCode(ErrCodeInvalidReq)`.

The library spells one message two ways, and the model keeps each as written.
For an error that is not an `*Error`, `Failure` writes
`"unknwon exception"` (rsp.go:42). The recovery handler writes
`"unknown exception"` (recovery.go:13).
The Go `/` in `getHttpStatusByCode` truncates toward zero. The model writes it
out as `GoQuotient` and proves that, for the test `== 4`, it agrees with
Dafny's Euclidean division and selects exactly 40000..49999.

## Model

| member | source | states |
|---|---|---|
| `Errs.NatDigits` | errs.go:14 | the `%d` digits of a natural number are non-empty, all decimal digits, and have no leading zero |
| `Errs.DigitsRoundTrip` | errs.go:14 | reading the decimal digits of `n` back gives `n` |
| `Errs.DecimalRoundTrip` | errs.go:14 | the `%d` rendering of any integer, minus sign included, is well formed and reads back as that integer |
| `Errs.ErrorString` | errs.go:13-15 | `Error()` begins with `code: ` and is at least 14 characters long |
| `Errs.ErrorStringInjective` | errs.go:13-15 | two errors with the same `Error()` text have the same code and the same message |
| `Errs.ErrorText` | errs.go:13-15 | `err.Error()` of a domain error is `code: `, the decimal code, `, msg: ` and the message, in that order and nothing else; a foreign error's text is its own text |
| `Errs.ErrorTextInjective` | errs.go:13-15 | two domain errors whose `Error()` texts are equal are the same error |
| `Errs.New` | errs.go:18-23 | `New(c, m)` is a domain error whose record is exactly `(c, m)`; the code is not validated |
| `Errs.NewUnknownException` | errs.go:26-28 | the result is a domain error with code `ErrCodeUnknownException` and message `err.Error()` |
| `Errs.UnknownExceptionKeepsDomainError` | errs.go:26-28 | wrapping two domain errors as unknown exceptions with equal messages means they were equal |
| `Errs.ToError` | errs.go:31-37 | the downcast is defined only on domain errors (any other kind panics) and returns its code and message |
| `Errs.Code` | errs.go:40-42 | the result is the domain error's code field; only defined on domain errors |
| `Errs.Msg` | errs.go:45-47 | the result is the domain error's message field; only defined on domain errors |
| `Errs.Equal` | errs.go:50-52 | true exactly when the domain error's code equals the given code |
| `Errs.NewRoundTrip` | errs.go:18-47 | `Code(New(c, m)) == c` and `Msg(New(c, m)) == m` |
| `Errs.EqualNew` | errs.go:50-52 | `Equal(New(c, m), k)` holds exactly when `c == k` |
| `Gin.ZeroValue` | req.go:72 | the zero value of each type has that type |
| `Gin.Context.JSON` | rsp.go:58-60 | writing a response sets the status and the body and changes nothing else |
| `Gin.Context.Abort` | rsp.go:45 | aborting sets the abort flag and changes nothing else |
| `Rsp.GoQuotientRemainder` | rsp.go:64 | Go's `code / 10000` rounds toward zero: the remainder is smaller than 10000 in magnitude and has the sign of the dividend |
| `Rsp.QuotientFourRange` | rsp.go:64 | `code / 10000 == 4` under truncation holds exactly for 40000 <= code <= 49999 |
| `Rsp.QuotientFourEuclidean` | rsp.go:64 | for this test truncating division and Euclidean division agree |
| `Rsp.HttpStatusByCode` | rsp.go:63-68 | the status is 400 exactly for codes 40000..49999 and 500 otherwise; it is never 200 |
| `Rsp.FailureReply` | rsp.go:35-46 | a domain error's code and message, or `ErrCodeUnknownException` with `"unknwon exception"` for a nil or any other error; no data; status from the code; aborts |
| `Rsp.ProcessReply` | rsp.go:17-23 | with no error: status 200, `{ErrCodeOK, "ok", data}` and no abort; with an error: status 400 or 500, no data, abort |
| `Rsp.FailureCodeMsgIsFailureOfNew` | rsp.go:49-55 | `FailureCodeMsg(c, code, msg)` answers exactly as `Failure(c, New(code, msg))` |
| `Rsp.FailureStatusClass` | rsp.go:44 | a failure gets status 400 exactly when its envelope code is in 40000..49999 |
| `Rsp.Success` | rsp.go:26-32 | the context shows status 200 and `{ErrCodeOK, "ok", data}`; the abort flag and the key store are untouched |
| `Rsp.Failure` | rsp.go:35-46 | the context shows the failure reply of `err`, nil included, and is aborted; the key store is untouched |
| `Rsp.FailureCodeMsg` | rsp.go:49-55 | the context shows the failure reply of `New(code, msg)` and is aborted |
| `Rsp.ProcessRsp` | rsp.go:17-23 | the context shows `Failure(err)` when there is an error and `Success(rsp)` otherwise |
| `Req.BindJSON` | req.go:56-63 | a failed bind writes `{ErrCodeInvalidReq, "invalid param"}`, aborts and yields nil; a good bind writes nothing and yields the request |
| `Req.BindFailureAnswersInvalidParam` | req.go:33-36 | after a failed bind the answer is the invalid-param failure whatever hook and services are configured |
| `Req.HookRunsOnceBeforeService` | req.go:38-44 | running with a hook equals running on the hook's output without one: the hook runs once, before the service |
| `Req.ServiceTakesPrecedence` | req.go:43-44 | when the plain service is set, its result on the prepared request is formatted; the options form is ignored |
| `Req.OptionsPassedThrough` | req.go:45-46 | without a plain service, the options form is called with the prepared request and `opts` unchanged |
| `Req.ServiceResultDecides` | req.go:41-51 | after a good bind the service's `(rsp, err)` is formatted once: status 200 with `rsp` exactly when `err` is nil, else the failure of `err` |
| `Req.Handle` | req.go:29-53 | the context ends up showing `Respond` of the inputs; a bound request with neither service set is a precondition violation (the source panics) |
| `Req.Do` | req.go:24-26 | the plain form answers as the pipeline with that service and no options, with no precondition: it never reaches the panic |
| `Req.DoOpt` | req.go:19-21 | the options form answers as the pipeline with that service and `opts`, with no precondition |
| `Req.GetKey` | req.go:71-82 | an absent key gives the zero value of the type; a present key gives its value; a stored value of another type is a precondition violation (the source panics) |
| `Req.SetKey` | req.go:66-68 | the store maps `key` to `value`, reading it back under its type gives `value`; status, body and abort flag are unchanged |
| `Req.SetThenGet` | req.go:66-82 | after `SetKey(k, v)`, `GetKey` of `k` gives `v` and every other key reads as before |
| `UserExample.GetUserInfo` | examples/main.go:66-75 | the service succeeds exactly for user id 10 |
| `UserExample.KnownUserAnswersOk` | examples/main.go:66-75 | a request for user 10 answers 200 with `{ErrCodeOK, "ok", {10, "user_10", 10}}` |
| `UserExample.UnknownUserAnswersBadRequest` | examples/main.go:66-75 | a request for any other user answers 400 with `{40100, "user not exists"}` and aborts |

## Left out

- recovery.go: it relies on Go's panic and recover and on logging. Its only response is `FailureCodeMsg(c, ErrCodeUnknownException, "unknown exception")`, which `Rsp.FailureCodeMsg` covers.
- JSON binding (`ShouldBindJSON`) is an input: the bound request, or `None` when binding fails. JSON serialisation is the abstract write `Gin.Context.JSON`. In gin, a second write to the same context appends a second body and keeps the status written first. The model's `JSON` overwrites both. The modelled pipeline writes at most once per request, so this never arises in it.
- The handler chain: `Abort` only sets a flag. Which later handlers run is not modelled, and neither is `context.Context` cancellation.
- Service functions receive the request context in the source; in the model they see only the request and the options. A hook sees only the key store, so a hook or service that writes to the context, aborts it or panics is not modelled.
- Go's runtime type assertions are modelled with tagged values. The store holds ints, strings and booleans only; other Go types are not modelled.
- Rsp.Failure: a typed-nil `*Error` inside a non-nil `error` is not modelled; the source panics on it at rsp.go:38. A plain nil `err` is modelled and answers like a foreign error.
- Errs.NewUnknownException: a nil argument is not modelled, since `ErrorValue` is never nil; the source panics on `err.Error()` at errs.go:27.
- `Do` with a nil service function would reach the panic; in the model a service passed to `Do` or `DoOpt` is always a function, so that case does not arise.
- Go `int` is 64 bits; the model uses unbounded integers, and codes near the limits of `int64` are not modelled.
- The values of `ErrCodeOK`, `ErrCodeInvalidReq` and `ErrCodeUnknownException` are not part of this model.
- `Do` and `DoOpt` return a `gin.HandlerFunc` closure. The model gives the closure's effect on one request's context instead.
- `Errs.ErrorString`: its own contract states only the shape of the text; that the text carries the code and the message is stated by `Errs.ErrorStringInjective` and `Errs.DecimalRoundTrip`.
- The example server's routes, its authentication stub (`Verify`, `SetUID`, `GetUID`) and `UpdateUserInfo` are sample wiring and are not modelled. `ginrest.NewError`, which the example calls, is not part of this model; the model uses `New`.
