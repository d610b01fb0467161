/**
 * The user-information handler of the example server, used as a concrete
 * service: it knows only the user with id 10.
 */
module UserExample {
  import opened Wrappers
  import opened Errs
  import opened Gin
  import opened Rsp
  import opened Req

  const ErrCodeUserNotExists := 40100

  datatype GetUserInfoReq = GetUserInfoReq(uid: int)
  datatype GetUserInfoRsp = GetUserInfoRsp(uid: int, username: string, age: int)

  function GetUserInfo(req: GetUserInfoReq): (ret: ServiceReturn<GetUserInfoRsp>)
    ensures req.uid == 10 <==> ret.err.None?
  {
    if req.uid != 10 then ServiceReturn(None, Some(New(ErrCodeUserNotExists, "user not exists")))
    else ServiceReturn(Some(GetUserInfoRsp(req.uid, "user_10", 10)), None)
  }

  /** Asking for user 10 answers status 200 with that user's record. */
  lemma KnownUserAnswersOk(keys: KeyStore)
    ensures Respond<GetUserInfoReq, GetUserInfoRsp, ()>(keys, Some(GetUserInfoReq(10)), None, Some(GetUserInfo), None, [])
         == Reply(StatusOK, Envelope(ErrCodeOK, "ok", Some(Some(GetUserInfoRsp(10, "user_10", 10)))), false)
  {
  }

  /** Asking for any other user answers status 400 with `{40100, "user not exists"}` and aborts. */
  lemma UnknownUserAnswersBadRequest(keys: KeyStore, uid: int)
    requires uid != 10
    ensures Respond<GetUserInfoReq, GetUserInfoRsp, ()>(keys, Some(GetUserInfoReq(uid)), None, Some(GetUserInfo), None, [])
         == Reply(StatusBadRequest, Envelope(ErrCodeUserNotExists, "user not exists", None), true)
  {
  }
}
