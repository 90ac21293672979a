/** Normalising axios results (src/shared/api/api.handlers.ts): a response is
    accepted by status, and a caught error is turned into the record the
    pages display. Both "throw"; a thrown value is a `Failure` or a `Thrown`. */
module ApiHandlers {
  import opened Wrappers
  import opened Strings
  import opened Js
  import opened Api

  /** What a `catch` block receives: an axios error or anything else. */
  datatype Caught = FromAxios(e: AxiosError) | Other(value: JsValue)

  /** The record `handleApiError` throws for axios errors. */
  datatype ApiError = ApiError(message: JsValue, status: int, errorType: JsValue)

  /** What `handleApiError` throws: the record, a TypeError (reading a field of
      a missing response body), or the original non-axios error. */
  datatype Thrown = ThrownApiError(apiError: ApiError) | TypeError | Rethrown(value: JsValue)

  const UnknownErrorMessage := "Неизвестная ошибка"

  /** `handleApiResponse`: the body for a 2xx status, otherwise an error
      naming the status. */
  function HandleApiResponse(status: int, data: JsValue): (r: Result<JsValue, string>)
    ensures r.Success? <==> 200 <= status < 300
    ensures r.Success? ==> r.value == data
    ensures r.Failure? ==> r.error == "Unexpected response status: " + IntToString(status)
  {
    if 200 <= status < 300 then Success(data)
    else Failure("Unexpected response status: " + IntToString(status))
  }

  /** Every response axios resolves with passes `handleApiResponse`
      unchanged. */
  lemma ResolvedResponsesPass(url: string, t: Transport)
    requires Classify(url, t).Success?
    ensures var resp := Classify(url, t).value;
      HandleApiResponse(resp.status, resp.data) == Success(resp.data)
  {
  }

  /** `handleApiError`. It never returns: the result is what it throws. For
      an axios error the message is `detail`, else `message`, else a fixed
      fallback; the status is the response status, or 500 when it is missing
      or zero. Without a response the whole chain reads `undefined`; with a
      response whose body is `null`/`undefined` the field read throws a
      TypeError. Other errors are rethrown as they are. */
  function HandleApiError(c: Caught): (t: Thrown)
    ensures c.Other? ==> t == Rethrown(c.value)
    ensures c.FromAxios? && c.e.response.None? ==>
      t == ThrownApiError(ApiError(Str(UnknownErrorMessage), 500, Undefined))
    ensures c.FromAxios? && c.e.response.Some? && Nullish(c.e.response.value.data) ==> t == TypeError
    ensures c.FromAxios? && c.e.response.Some? && !Nullish(c.e.response.value.data) ==>
      var resp := c.e.response.value;
      t == ThrownApiError(ApiError(
        Or(Or(Field(resp.data, "detail"), Field(resp.data, "message")), Str(UnknownErrorMessage)),
        if resp.status != 0 then resp.status else 500,
        Field(resp.data, "error_type")))
  {
    match c
    case Other(v) => Rethrown(v)
    case FromAxios(e) =>
      match e.response
      case None => ThrownApiError(ApiError(Str(UnknownErrorMessage), 500, Undefined))
      case Some(resp) =>
        if Nullish(resp.data) then TypeError
        else
          var message := Or(Or(Field(resp.data, "detail"), Field(resp.data, "message")), Str(UnknownErrorMessage));
          ThrownApiError(ApiError(message, if resp.status != 0 then resp.status else 500, Field(resp.data, "error_type")))
  }

  /** The record always carries a truthy message and a nonzero status. */
  lemma ApiErrorIsInformative(c: Caught)
    requires HandleApiError(c).ThrownApiError?
    ensures Truthy(HandleApiError(c).apiError.message)
    ensures HandleApiError(c).apiError.status != 0
  {
  }

  /** A truthy `detail` always wins over `message`. */
  lemma DetailFirst(resp: HttpResponse)
    requires resp.data.Obj? && "detail" in resp.data.fields && Truthy(resp.data.fields["detail"])
    ensures HandleApiError(FromAxios(AxiosError(Some(resp)))).apiError.message == resp.data.fields["detail"]
  {
  }

  /** The pass-through wrappers of the chat API (`getUserChats` and the rest):
      the response body when axios resolves, otherwise what `handleApiError`
      throws. */
  function ApiCall(out: Result<HttpResponse, AxiosError>): (r: Result<JsValue, Thrown>)
    ensures out.Success? && 200 <= out.value.status < 300 ==> r == Success(out.value.data)
    ensures out.Success? && !(200 <= out.value.status < 300) ==>
      r == Failure(Rethrown(Str("Unexpected response status: " + IntToString(out.value.status))))
    ensures out.Failure? ==> r == Failure(HandleApiError(FromAxios(out.error)))
  {
    match out
    case Success(resp) =>
      var handled := HandleApiResponse(resp.status, resp.data);
      if handled.Success? then Success(handled.value)
      else Failure(Rethrown(Str(handled.error)))
    case Failure(e) => Failure(HandleApiError(FromAxios(e)))
  }

  /** Through the transport, a wrapper returns the body exactly for a 2xx reply. */
  lemma ApiCallReturnsIff2xx(url: string, t: Transport)
    ensures ApiCall(Classify(url, t)).Success? <==> t.Reply? && 200 <= t.status < 300
    ensures ApiCall(Classify(url, t)).Success? ==> ApiCall(Classify(url, t)).value == t.data
  {
  }
}
