/** The error catalogue and the response builders of the wearable bridge
    (`WearableErrorManager`): a fixed table from error codes to a default
    message, an ordered list of hints and a retryable flag, and the functions
    that turn an outcome into the uniform response map sent to the UI. */
module WearableErrorManager {
  import opened Values

  // Error codes
  const CODE_OK: string := "OK"
  const CODE_SDK_ERROR: string := "SDK_ERROR"
  const CODE_NO_DEVICE: string := "NO_DEVICE"
  const CODE_CONNECTION_ERROR: string := "CONNECTION_ERROR"
  const CODE_PERMISSION_ERROR: string := "PERMISSION_ERROR"
  const CODE_PERMISSION_REQUIRED: string := "PERMISSION_REQUIRED"
  const CODE_PERMISSION_CHECK_FAILED: string := "PERMISSION_CHECK_FAILED"
  const CODE_MESSAGE_ERROR: string := "MESSAGE_ERROR"
  const CODE_NOTIFY_ERROR: string := "NOTIFY_ERROR"
  const CODE_LISTEN_ERROR: string := "LISTEN_ERROR"
  const CODE_STOP_LISTEN_ERROR: string := "STOP_LISTEN_ERROR"
  const CODE_APP_NOT_INSTALLED: string := "APP_NOT_INSTALLED"
  const CODE_WEAR_APP_NOT_INSTALLED: string := "WEAR_APP_NOT_INSTALLED"
  const CODE_CHECK_FAILED: string := "CHECK_FAILED"
  const CODE_LAUNCH_FAILED: string := "LAUNCH_FAILED"
  const CODE_INVALID_PARAMS: string := "INVALID_PARAMS"

  /** The message and hint of the entry synthesised for an unknown code. */
  const UNKNOWN_MESSAGE: string := "未知错误"
  const UNKNOWN_HINT: string := "请稍后重试"

  /** One catalogue entry. */
  datatype ErrorInfo = ErrorInfo(code: string, message: string, hints: seq<string>, retryable: bool)

  /** The four-argument constructor: a null hint list is stored as the empty list. */
  function NewErrorInfo(code: string, message: string, hints: Option<seq<string>>, retryable: bool): (e: ErrorInfo)
    ensures e.code == code && e.message == message && e.retryable == retryable
    ensures hints.None? ==> e.hints == []
    ensures hints.Some? ==> e.hints == hints.value
  {
    ErrorInfo(code, message, if hints.Some? then hints.value else [], retryable)
  }

  /** The varargs constructor without a flag: the entry is retryable. */
  function HintedInfo(code: string, message: string, hints: seq<string>): (e: ErrorInfo)
    ensures e.retryable
    ensures e.code == code && e.message == message && e.hints == hints
  {
    NewErrorInfo(code, message, Some(hints), true)
  }

  /** The varargs constructor with an explicit flag. */
  function FlaggedInfo(code: string, message: string, retryable: bool, hints: seq<string>): (e: ErrorInfo)
    ensures e.retryable == retryable
    ensures e.code == code && e.message == message && e.hints == hints
  {
    NewErrorInfo(code, message, Some(hints), retryable)
  }

  /** `ERROR_MAP`, filled once by the static initializer and only read afterwards. */
  const ErrorMap: map<string, ErrorInfo> := map[
    CODE_SDK_ERROR := HintedInfo(CODE_SDK_ERROR, "SDK 未初始化",
      ["请检查小米穿戴 SDK 初始化状态"]),
    CODE_NO_DEVICE := FlaggedInfo(CODE_NO_DEVICE, "未检测到穿戴设备", true,
      ["确认穿戴设备已与手机配对", "确认穿戴设备与手机保持连接", "确认已安装小米运动健康"]),
    CODE_CONNECTION_ERROR := FlaggedInfo(CODE_CONNECTION_ERROR, "获取连接设备失败", true,
      ["确认小米运动健康保持运行", "确认设备已配对并在线"]),
    CODE_PERMISSION_ERROR := FlaggedInfo(CODE_PERMISSION_ERROR, "权限申请失败", true,
      ["确认小米运动健康保持运行", "确认设备已配对并在线", "确认简明天气快应用已安装"]),
    CODE_PERMISSION_REQUIRED := FlaggedInfo(CODE_PERMISSION_REQUIRED, "需要先申请设备管理权限", false,
      ["请先调用权限申请接口", "在穿戴设备上确认授权提示"]),
    CODE_PERMISSION_CHECK_FAILED := FlaggedInfo(CODE_PERMISSION_CHECK_FAILED, "检查权限失败", true,
      ["稍后重试，必要时重新连接设备"]),
    CODE_MESSAGE_ERROR := FlaggedInfo(CODE_MESSAGE_ERROR, "消息发送失败", true,
      ["确认设备已连接并在线", "确认已授权消息发送权限"]),
    CODE_NOTIFY_ERROR := FlaggedInfo(CODE_NOTIFY_ERROR, "通知发送失败", true,
      ["确认设备已连接并在线", "确认已授权通知发送"]),
    CODE_LISTEN_ERROR := FlaggedInfo(CODE_LISTEN_ERROR, "开始监听失败", true,
      ["确认设备保持连接", "稍后重新尝试开始监听"]),
    CODE_STOP_LISTEN_ERROR := FlaggedInfo(CODE_STOP_LISTEN_ERROR, "停止监听失败", true,
      ["确认设备保持连接", "稍后重新尝试停止监听"]),
    CODE_APP_NOT_INSTALLED := FlaggedInfo(CODE_APP_NOT_INSTALLED, "未检测到小米运动健康", false,
      ["从应用商店安装小米运动健康"]),
    CODE_WEAR_APP_NOT_INSTALLED := FlaggedInfo(CODE_WEAR_APP_NOT_INSTALLED, "未检测到快应用", false,
      ["在穿戴端安装简明天气快应用"]),
    CODE_CHECK_FAILED := FlaggedInfo(CODE_CHECK_FAILED, "检查失败", true,
      ["稍后重试，必要时重新连接设备"]),
    CODE_LAUNCH_FAILED := FlaggedInfo(CODE_LAUNCH_FAILED, "启动快应用失败", true,
      ["确认穿戴端已安装简明天气快应用", "确认穿戴端简明天气快应用为最新版本"]),
    CODE_INVALID_PARAMS := FlaggedInfo(CODE_INVALID_PARAMS, "参数无效", false, [])
  ]

  /** The codes the catalogue registers (every code constant except `OK`). */
  const CatalogueCodes: set<string> := {
    CODE_SDK_ERROR, CODE_NO_DEVICE, CODE_CONNECTION_ERROR, CODE_PERMISSION_ERROR,
    CODE_PERMISSION_REQUIRED, CODE_PERMISSION_CHECK_FAILED, CODE_MESSAGE_ERROR,
    CODE_NOTIFY_ERROR, CODE_LISTEN_ERROR, CODE_STOP_LISTEN_ERROR, CODE_APP_NOT_INSTALLED,
    CODE_WEAR_APP_NOT_INSTALLED, CODE_CHECK_FAILED, CODE_LAUNCH_FAILED, CODE_INVALID_PARAMS
  }

  /** The codes whose entries are registered as not retryable. */
  const NotRetryableCodes: set<string> := {
    CODE_PERMISSION_REQUIRED, CODE_APP_NOT_INSTALLED, CODE_WEAR_APP_NOT_INSTALLED, CODE_INVALID_PARAMS
  }

  /** `getErrorInfo`: the registered entry, or a synthesised retryable
      "unknown error" entry carrying the code asked for. Never fails. */
  function GetErrorInfo(code: string): (e: ErrorInfo)
    ensures e.code == code
    ensures e.message != ""
    ensures code in ErrorMap ==> e == ErrorMap[code]
    ensures code !in ErrorMap ==>
      e.message == UNKNOWN_MESSAGE && e.hints == [UNKNOWN_HINT] && e.retryable
  {
    if code in ErrorMap then ErrorMap[code]
    else NewErrorInfo(code, UNKNOWN_MESSAGE, Some([UNKNOWN_HINT]), true)
  }

  /** The catalogue registers exactly the fifteen error codes; `OK` is not one of them. */
  lemma CatalogueCoversErrorCodes()
    ensures ErrorMap.Keys == CatalogueCodes
    ensures CODE_OK !in ErrorMap
  {
  }

  /** A lookup is retryable exactly when the code is not one of the four
      registered as not retryable: unknown codes and entries built without a
      flag (`SDK_ERROR`) are retryable. */
  lemma RetryableUnlessRegisteredOtherwise(code: string)
    ensures GetErrorInfo(code).retryable <==> code !in NotRetryableCodes
  {
  }

  /** Only `INVALID_PARAMS` is registered without hints; every other lookup,
      unknown codes included, yields at least one hint. */
  lemma HintsMissingOnlyForInvalidParams(code: string)
    ensures GetErrorInfo(code).hints == [] <==> code == CODE_INVALID_PARAMS
  {
  }

  // ---------------------------------------------------------------------
  // Response maps

  /** The `Map<String, Object>` returned to the UI. */
  type Response = map<string, Value>

  /** The keys a response may hold. */
  const ResponseKeys: set<string> := {"success", "code", "message", "data", "hints", "details", "retryable"}

  /** The shape every response has: the four fixed keys with their types,
      and each optional key present only with a non-empty or true value. */
  ghost predicate WellFormed(r: Response)
  {
    && r.Keys <= ResponseKeys
    && "success" in r && r["success"].Bool?
    && "code" in r && r["code"].Str?
    && "message" in r && r["message"].Str?
    && "data" in r
    && ("hints" in r ==> r["hints"].StrList? && r["hints"].items != [])
    && ("details" in r ==> r["details"].Str? && r["details"].s != "")
    && ("retryable" in r ==> r["retryable"] == Bool(true))
  }

  // Reading the fields of a well-formed response; an absent optional key
  // reads as no hints, no details, not retryable.
  ghost function SuccessOf(r: Response): bool requires WellFormed(r) { r["success"].b }
  ghost function CodeOf(r: Response): string requires WellFormed(r) { r["code"].s }
  ghost function MessageOf(r: Response): string requires WellFormed(r) { r["message"].s }
  ghost function DataOf(r: Response): Value requires WellFormed(r) { r["data"] }
  ghost function HintsOf(r: Response): seq<string> requires WellFormed(r)
  {
    if "hints" in r then r["hints"].items else []
  }
  ghost function DetailsOf(r: Response): Option<string> requires WellFormed(r)
  {
    if "details" in r then Some(r["details"].s) else None
  }
  ghost function RetryableOf(r: Response): bool requires WellFormed(r) { "retryable" in r }

  /** A response reports success exactly when its code is `OK`. */
  ghost predicate SuccessIffOk(r: Response)
  {
    WellFormed(r) && (SuccessOf(r) <==> CodeOf(r) == CODE_OK)
  }

  /** A well-formed response is determined by the fields read from it: the
      map holds nothing beyond them. */
  lemma ResponseDeterminedByFields(r1: Response, r2: Response)
    requires WellFormed(r1) && WellFormed(r2)
    requires SuccessOf(r1) == SuccessOf(r2) && CodeOf(r1) == CodeOf(r2)
    requires MessageOf(r1) == MessageOf(r2) && DataOf(r1) == DataOf(r2)
    requires HintsOf(r1) == HintsOf(r2) && DetailsOf(r1) == DetailsOf(r2)
    requires RetryableOf(r1) == RetryableOf(r2)
    ensures r1 == r2
  {
  }

  /** `extractExceptionDetails`: the exception's message when there is an
      exception whose message is non-empty, and null otherwise. */
  function ExtractExceptionDetails(exception: Option<Failure>): (d: Option<string>)
    ensures d.Some? <==> exception.Some? && !IsEmpty(exception.value.message)
    ensures d.Some? ==> d.value == exception.value.message.value && d.value != ""
  {
    if exception.None? || IsEmpty(exception.value.message) then None
    else exception.value.message
  }

  /** `createResponse`: the four fixed keys always, `hints` only when the list
      is non-empty, `details` only when non-empty, `retryable` only when true. */
  function CreateResponse(success: bool, code: string, message: string, data: Value,
                          hints: seq<string>, details: Option<string>, retryable: bool): (r: Response)
    ensures WellFormed(r)
    ensures SuccessOf(r) == success && CodeOf(r) == code
    ensures MessageOf(r) == message && DataOf(r) == data
    ensures ("hints" in r <==> hints != []) && HintsOf(r) == hints
    ensures ("details" in r <==> !IsEmpty(details))
    ensures DetailsOf(r) == if IsEmpty(details) then None else details
    ensures ("retryable" in r <==> retryable) && RetryableOf(r) == retryable
  {
    var base := map["success" := Bool(success), "code" := Str(code), "message" := Str(message), "data" := data];
    var withHints := if hints != [] then base["hints" := StrList(hints)] else base;
    var withDetails := if !IsEmpty(details) then withHints["details" := Str(details.value)] else withHints;
    if retryable then withDetails["retryable" := Bool(true)] else withDetails
  }

  /** `createSuccess`: success with code `OK` and none of the optional keys. */
  function CreateSuccess(message: string, data: Value): (r: Response)
    ensures WellFormed(r)
    ensures SuccessOf(r) && CodeOf(r) == CODE_OK
    ensures MessageOf(r) == message && DataOf(r) == data
    ensures "hints" !in r && "details" !in r && "retryable" !in r
  {
    CreateResponse(true, CODE_OK, message, data, [], None, false)
  }

  /** `createError` with every override: a failure carrying `code`, whose
      message, hints and flag come from the overrides when those are given
      (the message and the hints only when non-empty) and from the catalogue
      otherwise, and whose details come from the exception. */
  function CreateError(code: string, exception: Option<Failure>, data: Value,
                       customMessage: Option<string>, customHints: Option<seq<string>>,
                       customRetryable: Option<bool>): (r: Response)
    ensures WellFormed(r)
    ensures !SuccessOf(r) && CodeOf(r) == code && DataOf(r) == data
    ensures MessageOf(r) != ""
    ensures MessageOf(r) ==
      if !IsEmpty(customMessage) then customMessage.value else GetErrorInfo(code).message
    ensures HintsOf(r) ==
      if customHints.Some? && customHints.value != [] then customHints.value else GetErrorInfo(code).hints
    ensures RetryableOf(r) ==
      if customRetryable.Some? then customRetryable.value else GetErrorInfo(code).retryable
    ensures DetailsOf(r) == ExtractExceptionDetails(exception)
  {
    var info := GetErrorInfo(code);
    var message := if !IsEmpty(customMessage) then customMessage.value else info.message;
    var hints := if customHints.Some? && customHints.value != [] then customHints.value else info.hints;
    var retryable := if customRetryable.Some? then customRetryable.value else info.retryable;
    CreateResponse(false, code, message, data, hints, ExtractExceptionDetails(exception), retryable)
  }

  /** `createError(code, exception, data)`: every field but the details
      comes from the catalogue entry of `code`. */
  function CreateCauseError(code: string, exception: Option<Failure>, data: Value): (r: Response)
    ensures WellFormed(r)
    ensures !SuccessOf(r) && CodeOf(r) == code && DataOf(r) == data
    ensures MessageOf(r) == GetErrorInfo(code).message
    ensures HintsOf(r) == GetErrorInfo(code).hints
    ensures RetryableOf(r) == GetErrorInfo(code).retryable
    ensures DetailsOf(r) == ExtractExceptionDetails(exception)
  {
    CreateError(code, exception, data, None, None, None)
  }

  /** `createError(code, data)`: the catalogue entry of `code`, without details. */
  function CreateCodeError(code: string, data: Value): (r: Response)
    ensures WellFormed(r)
    ensures !SuccessOf(r) && CodeOf(r) == code && DataOf(r) == data
    ensures MessageOf(r) == GetErrorInfo(code).message
    ensures HintsOf(r) == GetErrorInfo(code).hints
    ensures RetryableOf(r) == GetErrorInfo(code).retryable
    ensures "details" !in r
  {
    CreateCauseError(code, None, data)
  }

  /** `createParamError`: `INVALID_PARAMS` naming the missing parameter in
      its message and its single hint, not retryable, no data, no details. */
  function CreateParamError(paramName: string): (r: Response)
    ensures WellFormed(r)
    ensures !SuccessOf(r) && CodeOf(r) == CODE_INVALID_PARAMS && DataOf(r) == Null
    ensures MessageOf(r) == paramName + "不能为空"
    ensures HintsOf(r) == ["请输入" + paramName]
    ensures "retryable" !in r && "details" !in r
  {
    CreateError(CODE_INVALID_PARAMS, None, Null, Some(paramName + "不能为空"),
                Some(["请输入" + paramName]), Some(false))
  }

  /** A response built by the error builders for any code other than `OK`,
      and one built by `createSuccess`, report success exactly when their code
      is `OK`. */
  lemma SuccessExactlyWhenOk(code: string, exception: Option<Failure>, data: Value,
                             customMessage: Option<string>, customHints: Option<seq<string>>,
                             customRetryable: Option<bool>, message: string)
    requires code != CODE_OK
    ensures SuccessIffOk(CreateError(code, exception, data, customMessage, customHints, customRetryable))
    ensures SuccessIffOk(CreateSuccess(message, data))
  {
  }
}
