/** The shared error vocabulary: the fixed error items of `CommonErrorEnum` and
    the `CommonError` exception, whose code is either a bare string or an item. */
module Errors {
  import opened Base

  datatype ErrorItem = ErrorItem(code: string, msg: string)

  const SYSTEM_EXCEPTION := ErrorItem("1000", "system exception")
  const MISSING_AUTHORIZATION_HEADER := ErrorItem("1001", "Authorization header is required")
  const MISSING_TOKEN := ErrorItem("1002", "Token is required")
  const INVALID_TOKEN := ErrorItem("1003", "Invalid token")
  const PARAMETER_ERROR := ErrorItem("1004", "Parameter check failed")
  const DATA_NOT_FOUND := ErrorItem("1005", "Data does not exist")
  const PERMISSION_DENIED := ErrorItem("1006", "Permission denied")
  const UPLOAD_FAILED := ErrorItem("1007", "upload failed")
  const BIZ_ERROR := ErrorItem("1008", "biz failed")
  const VERIFY_CODE_ERROR := ErrorItem("1009", "Verification code error")

  /** Every item of `CommonErrorEnum`, in declaration order. */
  const COMMON_ERRORS: seq<ErrorItem> := [
    SYSTEM_EXCEPTION, MISSING_AUTHORIZATION_HEADER, MISSING_TOKEN, INVALID_TOKEN,
    PARAMETER_ERROR, DATA_NOT_FOUND, PERMISSION_DENIED, UPLOAD_FAILED, BIZ_ERROR,
    VERIFY_CODE_ERROR
  ]

  /** The codes run '1000' to '1009' in order and are pairwise distinct. */
  lemma CommonErrorCodes()
    ensures |COMMON_ERRORS| == 10
    ensures forall i :: 0 <= i < 10 ==> COMMON_ERRORS[i].code == "100" + [DigitChar(i)]
    ensures forall i, j :: 0 <= i < j < 10 ==> COMMON_ERRORS[i].code != COMMON_ERRORS[j].code
  {
    forall i | 0 <= i < 10 ensures COMMON_ERRORS[i].code == "100" + [DigitChar(i)] {
      assert "0123456789"[i] == DigitChar(i);
    }
  }

  /** The `code` of a `CommonError`: `string | IErrorItem`. */
  datatype ErrorCode = CodeString(code: string) | CodeItem(item: ErrorItem)

  /** `new CommonError(code, msg?)`; `super(msg)` makes `message` "" when `msg` is absent. */
  datatype CommonError = CommonError(code: ErrorCode, msg: Option<string>) {
    function Message(): string {
      msg.GetOr("")
    }
  }

  /** What a handler can throw: a `CommonError`, or any other `Error` with its message. */
  datatype Thrown = Common(err: CommonError) | Plain(message: string)
}
