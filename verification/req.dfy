/**
 * The typed dispatch pipeline of req.go: bind the request, let an optional
 * hook adjust it, call exactly one service function, and hand its result to
 * the response formatter; plus the typed per-request key/value store.
 *
 * A service function gets the (possibly adjusted) request, and the options
 * for the options form, and returns a response pointer and an error, either
 * of which may be nil. A hook reads the request's key store and returns the
 * adjusted request.
 */
module Req {
  import opened Wrappers
  import opened Errs
  import opened Gin
  import opened Rsp

  /** The `(*Rsp, error)` pair a service function returns. */
  datatype ServiceReturn<R> = ServiceReturn(rsp: Option<R>, err: Option<ErrorValue>)

  type KeyStore = map<string, TaggedValue>

  /** The message written when binding fails. */
  const InvalidParamMsg := "invalid param"

  // ---------------------------------------------------------------------------
  // The pipeline as a function of its inputs.

  /** The request the service sees: the bound request after the hook, if there is one. */
  function Prepared<Q>(keys: KeyStore, req: Q, hook: Option<(KeyStore, Q) -> Q>): Q
  {
    match hook
    case Some(h) => h(keys, req)
    case None => req
  }

  /** Service selection: the plain service when it is set, else the options form with `opts`. */
  function Serve<Q, R, O>(req: Q, service: Option<Q -> ServiceReturn<R>>,
                          serviceOpt: Option<(Q, seq<O>) -> ServiceReturn<R>>, opts: seq<O>): ServiceReturn<R>
    requires service.Some? || serviceOpt.Some?
  {
    if service.Some? then service.value(req) else serviceOpt.value(req, opts)
  }

  /** The reply one request gets, given what binding produced (`None` when it failed). */
  function Respond<Q, R, O>(keys: KeyStore, bound: Option<Q>, hook: Option<(KeyStore, Q) -> Q>,
                            service: Option<Q -> ServiceReturn<R>>,
                            serviceOpt: Option<(Q, seq<O>) -> ServiceReturn<R>>, opts: seq<O>): Reply<Option<R>>
    requires bound.Some? ==> service.Some? || serviceOpt.Some?
  {
    match bound
    case None => FailureCodeMsgReply(ErrCodeInvalidReq, InvalidParamMsg)
    case Some(req) =>
      var ret := Serve(Prepared(keys, req, hook), service, serviceOpt, opts);
      ProcessReply(ret.rsp, ret.err)
  }

  /**
   * A failed bind answers `{ErrCodeInvalidReq, "invalid param"}` with the
   * status of that code and aborts, whatever the hook and services are:
   * none of them is consulted.
   */
  lemma BindFailureAnswersInvalidParam<Q, R, O>(keys: KeyStore, hook: Option<(KeyStore, Q) -> Q>,
                                                service: Option<Q -> ServiceReturn<R>>,
                                                serviceOpt: Option<(Q, seq<O>) -> ServiceReturn<R>>, opts: seq<O>)
    ensures Respond(keys, None, hook, service, serviceOpt, opts) == FailureReply(Some(New(ErrCodeInvalidReq, InvalidParamMsg)))
    ensures Respond(keys, None, hook, service, serviceOpt, opts) == Respond<Q, R, O>(keys, None, None, None, None, [])
  {
  }

  /**
   * The hook runs once, before the service: dispatching with a hook is
   * dispatching the hook's output without one.
   */
  lemma HookRunsOnceBeforeService<Q, R, O>(keys: KeyStore, req: Q, hook: (KeyStore, Q) -> Q,
                                           service: Option<Q -> ServiceReturn<R>>,
                                           serviceOpt: Option<(Q, seq<O>) -> ServiceReturn<R>>, opts: seq<O>)
    requires service.Some? || serviceOpt.Some?
    ensures Respond(keys, Some(req), Some(hook), service, serviceOpt, opts)
         == Respond(keys, Some(hook(keys, req)), None, service, serviceOpt, opts)
  {
  }

  /** With a plain service set, it alone answers; the options form is never consulted. */
  lemma ServiceTakesPrecedence<Q, R, O>(keys: KeyStore, req: Q, hook: Option<(KeyStore, Q) -> Q>,
                                        service: Q -> ServiceReturn<R>,
                                        serviceOpt: Option<(Q, seq<O>) -> ServiceReturn<R>>, opts: seq<O>)
    ensures var ret := service(Prepared(keys, req, hook));
      Respond(keys, Some(req), hook, Some(service), serviceOpt, opts) == ProcessReply(ret.rsp, ret.err)
  {
  }

  /** Without a plain service, the options form answers and gets `opts` unchanged. */
  lemma OptionsPassedThrough<Q, R, O>(keys: KeyStore, req: Q, hook: Option<(KeyStore, Q) -> Q>,
                                      serviceOpt: (Q, seq<O>) -> ServiceReturn<R>, opts: seq<O>)
    ensures var ret := serviceOpt(Prepared(keys, req, hook), opts);
      Respond(keys, Some(req), hook, None, Some(serviceOpt), opts) == ProcessReply(ret.rsp, ret.err)
  {
  }

  /**
   * After a successful bind the service's result decides the reply: status
   * 200 with its response exactly when it returns no error, otherwise its
   * error's failure reply.
   */
  lemma ServiceResultDecides<Q, R, O>(keys: KeyStore, req: Q, hook: Option<(KeyStore, Q) -> Q>,
                                      service: Option<Q -> ServiceReturn<R>>,
                                      serviceOpt: Option<(Q, seq<O>) -> ServiceReturn<R>>, opts: seq<O>)
    requires service.Some? || serviceOpt.Some?
    ensures var ret := Serve(Prepared(keys, req, hook), service, serviceOpt, opts);
      var r := Respond(keys, Some(req), hook, service, serviceOpt, opts);
      && (r.status == StatusOK <==> ret.err.None?)
      && (ret.err.None? ==> r == SuccessReply(ret.rsp))
      && (ret.err.Some? ==> r == FailureReply(ret.err))
  {
  }

  // ---------------------------------------------------------------------------
  // req.go, on the request context.

  /** `BindJSON`: on failure, answers invalid param and returns nil. */
  method BindJSON<Q, D>(c: Context<Envelope<D>>, bound: Option<Q>) returns (req: Option<Q>)
    modifies c
    ensures req == bound
    ensures bound.Some? ==> c.status == old(c.status) && c.body == old(c.body) && c.aborted == old(c.aborted)
    ensures bound.None? ==> Shows(c, FailureReply(Some(New(ErrCodeInvalidReq, InvalidParamMsg))), old(c.aborted))
    ensures c.keys == old(c.keys)
  {
    if bound.None? {
      FailureCodeMsg(c, ErrCodeInvalidReq, InvalidParamMsg);
      return None;
    }
    return bound;
  }

  /**
   * `do`: the handler body. Having neither service set makes the source
   * panic once binding succeeded; that is this method's precondition.
   */
  method Handle<Q, R, O>(c: Context<Envelope<Option<R>>>, bound: Option<Q>, hook: Option<(KeyStore, Q) -> Q>,
                         service: Option<Q -> ServiceReturn<R>>,
                         serviceOpt: Option<(Q, seq<O>) -> ServiceReturn<R>>, opts: seq<O>)
    requires bound.Some? ==> service.Some? || serviceOpt.Some?
    modifies c
    ensures Shows(c, Respond(old(c.keys), bound, hook, service, serviceOpt, opts), old(c.aborted))
    ensures c.keys == old(c.keys)
  {
    var bind := BindJSON(c, bound);
    if bind.None? {
      return;
    }
    var req := bind.value;
    if hook.Some? {
      req := hook.value(c.keys, req);
    }
    var ret: ServiceReturn<R>;
    if service.Some? {
      ret := service.value(req);
    } else {
      ret := serviceOpt.value(req, opts);
    }
    ProcessRsp(c, ret.rsp, ret.err);
  }

  /** `Do`: the plain form; it always supplies a service, so it never reaches the panic. */
  method Do<Q, R>(c: Context<Envelope<Option<R>>>, bound: Option<Q>, hook: Option<(KeyStore, Q) -> Q>,
                  service: Q -> ServiceReturn<R>)
    modifies c
    ensures Shows(c, Respond<Q, R, ()>(old(c.keys), bound, hook, Some(service), None, []), old(c.aborted))
    ensures c.keys == old(c.keys)
  {
    Handle<Q, R, ()>(c, bound, hook, Some(service), None, []);
  }

  /** `DoOpt`: the options form; it always supplies a service, so it never reaches the panic. */
  method DoOpt<Q, R, O>(c: Context<Envelope<Option<R>>>, bound: Option<Q>, hook: Option<(KeyStore, Q) -> Q>,
                        serviceOpt: (Q, seq<O>) -> ServiceReturn<R>, opts: seq<O>)
    modifies c
    ensures Shows(c, Respond(old(c.keys), bound, hook, None, Some(serviceOpt), opts), old(c.aborted))
    ensures c.keys == old(c.keys)
  {
    Handle(c, bound, hook, None, Some(serviceOpt), opts);
  }

  // ---------------------------------------------------------------------------
  // The typed key/value store.

  /**
   * `GetKey[T]`: the zero value of `T` for an absent key, the stored value
   * otherwise; a stored value of another type makes the source panic.
   */
  function GetKey(keys: KeyStore, key: string, t: ValueType): (v: TaggedValue)
    requires key in keys ==> TypeOf(keys[key]) == t
    ensures TypeOf(v) == t
    ensures key !in keys ==> v == ZeroValue(t)
    ensures key in keys ==> v == keys[key]
  {
    if key !in keys then ZeroValue(t) else keys[key]
  }

  /** `SetKey`: stores `value` under `key`; the rest of the context is unchanged. */
  method SetKey<B>(c: Context<B>, key: string, value: TaggedValue)
    modifies c
    ensures c.keys == old(c.keys)[key := value]
    ensures GetKey(c.keys, key, TypeOf(value)) == value
    ensures c.status == old(c.status) && c.body == old(c.body) && c.aborted == old(c.aborted)
  {
    c.keys := c.keys[key := value];
  }

  /** Reading back a key gives what was last stored under it; other keys read as before. */
  lemma SetThenGet(keys: KeyStore, key: string, value: TaggedValue, other: string, t: ValueType)
    requires other != key && (other in keys ==> TypeOf(keys[other]) == t)
    ensures GetKey(keys[key := value], key, TypeOf(value)) == value
    ensures GetKey(keys[key := value], other, t) == GetKey(keys, other, t)
  {
  }
}
