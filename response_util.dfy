/** `ResponseUtil`: the `{code, msg, data}` envelope every controller answer uses. */
module ResponseUtil {
  import opened Base
  import opened Json
  import opened Errors

  datatype BaseResponse = BaseResponse(code: string, msg: string, data: Json)

  /** The code that marks success. */
  const SUCCESS_CODE := "0"

  /** `ResponseUtil.success(data?, message = 'Success')`. */
  function Success(data: Json, message: Option<string>): (r: BaseResponse)
    ensures r.code == SUCCESS_CODE
    ensures message.None? ==> r.msg == "Success"
    ensures message.Some? ==> r.msg == message.value
    ensures Falsy(data) ==> r.data == JObj(map[])
    ensures !Falsy(data) ==> r.data == data
  {
    BaseResponse(SUCCESS_CODE, message.GetOr("Success"), OrEmptyObject(data))
  }

  /** `ResponseUtil.commonError(code, message, data?)`. */
  function CommonErrorResponse(code: string, message: string, data: Json): (r: BaseResponse)
    ensures r.code == code && r.msg == message
    ensures r.data == OrEmptyObject(data)
  {
    BaseResponse(code, message, OrEmptyObject(data))
  }

  /** `ResponseUtil.error(item, data?)`: `commonError(item.code, item.msg || "", data || {})`. */
  function ErrorResponse(item: ErrorItem, data: Json): (r: BaseResponse)
    ensures r == CommonErrorResponse(item.code, item.msg, data)
  {
    CommonErrorResponse(item.code, if item.msg != "" then item.msg else "", OrEmptyObject(data))
  }

  /** A success envelope never carries `{}`'s falsy cousins: `success(false)`,
      `success(0)` and `success()` all answer with `{}` as data. */
  lemma SuccessFalsyData(message: Option<string>)
    ensures Success(JBool(false), message).data == JObj(map[])
    ensures Success(JNum(0), message).data == JObj(map[])
    ensures Success(JUndefined, message).data == JObj(map[])
  {
  }

  /** No item of `CommonErrorEnum` renders with the success code. */
  lemma ErrorNeverSuccess(data: Json)
    ensures forall item :: item in COMMON_ERRORS ==> ErrorResponse(item, data).code != SUCCESS_CODE
  {
  }
}
