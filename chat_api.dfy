/** The chat endpoints (src/pages/Chat/Chat.api.ts). Every wrapper but
    `deleteChat` is the pass-through `ApiCall`; `deleteChat` first normalises
    the shapes of body the back end is known to send. */
module ChatApi {
  import opened Wrappers
  import opened Js
  import opened Api
  import opened ApiHandlers

  const DeletedMessage := "Чат успешно удален"
  const DeleteFailedMessage := "Ошибка удаления чата"
  const DeletedUnknownMessage := "Чат удален"

  /** The `{success, message}` record `deleteChat` builds itself. */
  function DeleteRecord(success: bool, message: string): (v: JsValue)
    ensures v.Obj? && v.fields.Keys == {"success", "message"}
    ensures v.fields["success"] == Bool(success) && v.fields["message"] == Str(message)
  {
    Obj(map["success" := Bool(success), "message" := Str(message)])
  }

  /** `deleteChat` on the settled `api.delete`: a boolean body becomes a
      record saying so; a truthy object or array goes through
      `handleApiResponse`; any other body counts as deleted. A rejection is
      what `handleApiError` throws. */
  function DeleteChat(out: Result<HttpResponse, AxiosError>): (r: Result<JsValue, Thrown>)
    ensures out.Failure? ==> r == Failure(HandleApiError(FromAxios(out.error)))
    ensures out.Success? && out.value.data == Bool(true) ==> r == Success(DeleteRecord(true, DeletedMessage))
    ensures out.Success? && out.value.data == Bool(false) ==> r == Success(DeleteRecord(false, DeleteFailedMessage))
    ensures out.Success? && !out.value.data.Bool? && Truthy(out.value.data) && IsObjectType(out.value.data) ==>
      r == ApiCall(out)
    ensures out.Success? && !out.value.data.Bool? && !(Truthy(out.value.data) && IsObjectType(out.value.data)) ==>
      r == Success(DeleteRecord(true, DeletedUnknownMessage))
  {
    match out
    case Failure(e) => Failure(HandleApiError(FromAxios(e)))
    case Success(resp) =>
      if resp.data.Bool? then
        Success(DeleteRecord(resp.data.b, if resp.data.b then DeletedMessage else DeleteFailedMessage))
      else if Truthy(resp.data) && IsObjectType(resp.data) then
        ApiCall(out)
      else
        Success(DeleteRecord(true, DeletedUnknownMessage))
  }

  /** A truthy object body comes back unchanged exactly for a 2xx status;
      any other status makes `handleApiResponse` throw. */
  lemma ObjectBodyNeeds2xx(resp: HttpResponse)
    requires Truthy(resp.data) && IsObjectType(resp.data)
    ensures DeleteChat(Success(resp)).Success? <==> 200 <= resp.status < 300
    ensures DeleteChat(Success(resp)).Success? ==> DeleteChat(Success(resp)).value == resp.data
  {
  }

  /** Through the transport, `deleteChat` resolves exactly for a 2xx reply,
      and then with an object: the body's own, or a record with a boolean
      `success`. */
  lemma DeleteResolvesIff2xx(url: string, t: Transport)
    ensures DeleteChat(Classify(url, t)).Success? <==> t.Reply? && 200 <= t.status < 300
    ensures DeleteChat(Classify(url, t)).Success? && !(Truthy(t.data) && IsObjectType(t.data)) ==>
      var v := DeleteChat(Classify(url, t)).value;
      v.Obj? && "success" in v.fields && v.fields["success"].Bool?
  {
  }

  /** Only a literal `false` body reports a failed deletion; a 2xx reply with
      no usable body counts as deleted. */
  lemma OnlyFalseReportsFailure(url: string, t: Transport)
    requires t.Reply? && 200 <= t.status < 300 && !(t.data.Obj? || t.data.Arr?)
    ensures DeleteChat(Classify(url, t)).Success?
    ensures Truthy(DeleteChat(Classify(url, t)).value.fields["success"]) <==> t.data != Bool(false)
  {
  }
}
