/** The session coordinator of the wearable bridge: the private class
    `WearableSdkManager` inside `WearableMessageHandler`. It keeps the bound
    node and the listening flag, checks each operation's preconditions in a
    fixed order, makes at most two calls into the wearable SDK and turns every
    outcome into one response map.

    The SDK is not part of this model. Each API handle is a flag saying whether
    it was obtained; each asynchronous SDK task is an `Outcome` passed in by the
    caller, consumed only when the call is actually made; and the ghost field
    `sdkLog` records every call made, so that "no SDK call was made" can be
    stated. */
module WearableMessageHandler {
  import opened Values
  import opened WearableErrorManager

  /** A wearable node as the SDK reports it. */
  datatype Node = Node(id: string, name: string)

  /** The permissions the coordinator asks for. */
  datatype Permission = DeviceManager | Notify

  /** The name a granted permission is reported under. */
  function PermissionName(p: Permission): string
  {
    match p
    case DeviceManager => "DEVICE_MANAGER"
    case Notify => "NOTIFY"
  }

  /** One call into the wearable SDK. */
  datatype SdkCall =
    | ServiceRegisterListener
    | ServiceUnregisterListener
    | NodeGetConnectedNodes
    | AuthRequestPermission(nodeId: string, permissions: seq<Permission>)
    | MessageSend(nodeId: string, text: string)
    | NotifySend(nodeId: string, title: string, body: string)
    | MessageAddListener(nodeId: string)
    | MessageRemoveListener(nodeId: string)
    | AuthCheckPermissions(nodeId: string, permissions: seq<Permission>)
    | NodeIsWearAppInstalled(nodeId: string)
    | NodeLaunchWearApp(nodeId: string, path: string)

  /** How the operating system's package lookup for the health companion app ends. */
  datatype PackageLookup = PackageFound | NameNotFound | LookupFailed(cause: Failure)

  // ---------------------------------------------------------------------
  // Pure helpers

  /** Discovery keeps the first node of the list; a null or empty list yields none. */
  function FirstNode(nodes: Option<seq<Node>>): (n: Option<Node>)
    ensures n.Some? <==> nodes.Some? && nodes.value != []
    ensures n.Some? ==> n.value == nodes.value[0]
  {
    if nodes.None? || nodes.value == [] then None else Some(nodes.value[0])
  }

  /** `buildNodeMap`: the node's id and name and an empty attribute map. */
  function BuildNodeMap(node: Node): (v: Value)
    ensures v.Obj? && v.fields.Keys == {"id", "name", "attributes"}
    ensures v.fields["id"] == Str(node.id) && v.fields["name"] == Str(node.name)
    ensures v.fields["attributes"] == Obj(map[])
  {
    Obj(map["id" := Str(node.id), "name" := Str(node.name), "attributes" := Obj(map[])])
  }

  /** The path `launchWearApp` launches: the given one, or "/" when it is null or empty. */
  function LaunchPath(path: Option<string>): (p: string)
    ensures p != ""
    ensures IsEmpty(path) ==> p == "/"
    ensures !IsEmpty(path) ==> p == path.value
  {
    if IsEmpty(path) then "/" else path.value
  }

  /** The names of the granted permissions, in the order they were granted. */
  function PermissionNames(granted: seq<Permission>): seq<string>
  {
    if granted == [] then []
    else PermissionNames(granted[..|granted| - 1]) + [PermissionName(granted[|granted| - 1])]
  }

  /** The name list has one entry per granted permission, each its name. */
  lemma {:induction false} PermissionNamesAt(granted: seq<Permission>, k: nat)
    requires k < |granted|
    ensures |PermissionNames(granted)| == |granted|
    ensures PermissionNames(granted)[k] == PermissionName(granted[k])
  {
    var n := |granted| - 1;
    if k < n {
      PermissionNamesAt(granted[..n], k);
    } else if n > 0 {
      PermissionNamesAt(granted[..n], 0);
    }
  }

  /** The loop of `requestPermissions`' success callback: a null grant
      yields the empty list, otherwise each granted permission's name in turn. */
  method GrantedNames(granted: Option<seq<Permission>>) returns (names: seq<string>)
    ensures granted.None? ==> names == []
    ensures granted.Some? ==> names == PermissionNames(granted.value)
  {
    names := [];
    if granted.Some? {
      var ps := granted.value;
      var i := 0;
      while i < |ps|
        invariant 0 <= i <= |ps|
        invariant names == PermissionNames(ps[..i])
      {
        assert ps[..i + 1][..i] == ps[..i];
        names := names + [PermissionName(ps[i])];
        i := i + 1;
      }
      assert ps[..|ps|] == ps;
    }
  }

  /** Whether `checkPermissions` reported the device-manager permission as
      granted: the result is non-null, non-empty and its first entry is true. */
  predicate PermissionGranted(results: Option<seq<bool>>)
  {
    results.Some? && |results.value| > 0 && results.value[0]
  }

  /** The reply to `isWearAppInstalled`: installed, not installed, or the query failed. */
  function WearAppInstalledReply(installed: Outcome<bool>): (r: Response)
    ensures WellFormed(r)
    ensures SuccessIffOk(r)
    ensures SuccessOf(r) <==> installed == Ok(true)
    ensures installed == Ok(true) ==>
      CodeOf(r) == CODE_OK && DataOf(r) == Obj(map["installed" := Bool(true)])
    ensures installed == Ok(false) ==>
      CodeOf(r) == CODE_WEAR_APP_NOT_INSTALLED && DataOf(r) == Obj(map["installed" := Bool(false)])
        && !RetryableOf(r)
    ensures installed.Fail? ==>
      CodeOf(r) == CODE_CHECK_FAILED && DataOf(r) == Null && RetryableOf(r)
        && DetailsOf(r) == ExtractExceptionDetails(Some(installed.cause))
  {
    match installed
    case Ok(true) => CreateSuccess("快应用已安装", Obj(map["installed" := Bool(true)]))
    case Ok(false) => CreateCodeError(CODE_WEAR_APP_NOT_INSTALLED, Obj(map["installed" := Bool(false)]))
    case Fail(e) => CreateCauseError(CODE_CHECK_FAILED, Some(e), Null)
  }

  /** The reply of `checkWearApp` once both handles are there: a failed
      permission check, a permission not granted (the install query is not
      consulted), or the reply to the install query. */
  function CheckWearAppReply(check: Outcome<Option<seq<bool>>>, installed: Outcome<bool>): (r: Response)
    ensures WellFormed(r)
    ensures check.Fail? ==>
      CodeOf(r) == CODE_PERMISSION_CHECK_FAILED && !SuccessOf(r)
        && DetailsOf(r) == ExtractExceptionDetails(Some(check.cause))
    ensures check.Ok? && !PermissionGranted(check.value) ==>
      CodeOf(r) == CODE_PERMISSION_REQUIRED && !SuccessOf(r) && !RetryableOf(r)
    ensures check.Ok? && PermissionGranted(check.value) ==> r == WearAppInstalledReply(installed)
    ensures SuccessOf(r) <==> check.Ok? && PermissionGranted(check.value) && installed == Ok(true)
    ensures SuccessIffOk(r)
  {
    match check
    case Fail(e) => CreateCauseError(CODE_PERMISSION_CHECK_FAILED, Some(e), Null)
    case Ok(results) =>
      if !PermissionGranted(results) then CreateCauseError(CODE_PERMISSION_REQUIRED, None, Null)
      else WearAppInstalledReply(installed)
  }

  /** The reply to `launchWearApp`'s SDK call: success carries the launched path. */
  function LaunchReply(launchPath: string, launch: Outcome<()>): (r: Response)
    ensures WellFormed(r)
    ensures SuccessIffOk(r)
    ensures SuccessOf(r) <==> launch.Ok?
    ensures launch.Ok? ==> CodeOf(r) == CODE_OK && DataOf(r) == Obj(map["path" := Str(launchPath)])
    ensures launch.Fail? ==>
      CodeOf(r) == CODE_LAUNCH_FAILED && RetryableOf(r)
        && DetailsOf(r) == ExtractExceptionDetails(Some(launch.cause))
  {
    match launch
    case Ok(_) => CreateSuccess("快应用启动成功", Obj(map["path" := Str(launchPath)]))
    case Fail(e) => CreateCauseError(CODE_LAUNCH_FAILED, Some(e), Null)
  }

  /** `checkWearableApp`: whether the health companion app is installed on
      the phone. It needs no node and makes no wearable SDK call. */
  function CheckWearableApp(lookup: PackageLookup): (r: Response)
    ensures WellFormed(r)
    ensures SuccessIffOk(r)
    ensures SuccessOf(r) <==> lookup.PackageFound?
    ensures lookup.PackageFound? ==>
      CodeOf(r) == CODE_OK && DataOf(r) == Obj(map["installed" := Bool(true)])
    ensures lookup.NameNotFound? ==>
      CodeOf(r) == CODE_APP_NOT_INSTALLED && DataOf(r) == Obj(map["installed" := Bool(false)])
        && !RetryableOf(r)
    ensures lookup.LookupFailed? ==>
      CodeOf(r) == CODE_CHECK_FAILED && DataOf(r) == Null
        && DetailsOf(r) == ExtractExceptionDetails(Some(lookup.cause))
  {
    match lookup
    case PackageFound => CreateSuccess("小米运动健康已安装", Obj(map["installed" := Bool(true)]))
    case NameNotFound => CreateCodeError(CODE_APP_NOT_INSTALLED, Obj(map["installed" := Bool(false)]))
    case LookupFailed(e) => CreateCauseError(CODE_CHECK_FAILED, Some(e), Null)
  }

  // ---------------------------------------------------------------------
  // The two operations as the source writes them. `None` means that no
  // response map reaches the caller: a null `nodeApi` is dereferenced.

  /** `launchWearApp` as written: it never checks `nodeApi` before calling it. */
  function LaunchWearAppAsWritten(node: Option<Node>, hasNodeApi: bool, path: Option<string>,
                                  launch: Outcome<()>): (r: Option<Response>)
    ensures node.None? ==> r == Some(CreateCauseError(CODE_NO_DEVICE, None, Null))
    ensures node.Some? && hasNodeApi ==> r == Some(LaunchReply(LaunchPath(path), launch))
  {
    if node.None? then Some(CreateCauseError(CODE_NO_DEVICE, None, Null))
    else if !hasNodeApi then None
    else Some(LaunchReply(LaunchPath(path), launch))
  }

  /** With a node bound and no `nodeApi`, `launchWearApp` as written delivers no response map. */
  lemma LaunchWearAppAsWrittenLosesReply(node: Node, path: Option<string>, launch: Outcome<()>)
    ensures LaunchWearAppAsWritten(Some(node), false, path, launch) == None
  {
  }

  /** `checkWearApp` as written: it checks `authApi` but not `nodeApi`,
      which the permission callback calls once the permission is granted. */
  function CheckWearAppAsWritten(node: Option<Node>, hasAuthApi: bool, hasNodeApi: bool,
                                 check: Outcome<Option<seq<bool>>>, installed: Outcome<bool>): (r: Option<Response>)
    ensures node.None? ==> r == Some(CreateCauseError(CODE_NO_DEVICE, None, Null))
    ensures node.Some? && !hasAuthApi ==> r == Some(CreateCauseError(CODE_SDK_ERROR, None, Null))
    ensures node.Some? && hasAuthApi && hasNodeApi ==> r == Some(CheckWearAppReply(check, installed))
    ensures node.Some? && hasAuthApi && !hasNodeApi ==>
      r == if check.Ok? && PermissionGranted(check.value) then None
           else Some(CheckWearAppReply(check, installed))
  {
    if node.None? then Some(CreateCauseError(CODE_NO_DEVICE, None, Null))
    else if !hasAuthApi then Some(CreateCauseError(CODE_SDK_ERROR, None, Null))
    else if check.Ok? && PermissionGranted(check.value) && !hasNodeApi then None
    else Some(CheckWearAppReply(check, installed))
  }

  /** With a node bound, `authApi` present, `nodeApi` absent and the permission
      granted, `checkWearApp` as written delivers no response map. */
  lemma CheckWearAppAsWrittenLosesReply(node: Node, check: Outcome<Option<seq<bool>>>,
                                        installed: Outcome<bool>)
    requires check.Ok? && PermissionGranted(check.value)
    ensures CheckWearAppAsWritten(Some(node), true, false, check, installed) == None
  {
  }

  // ---------------------------------------------------------------------
  // The coordinator

  class WearableSdkManager {
    /** Whether each SDK handle was obtained when the coordinator was built. */
    const hasNodeApi: bool
    const hasMessageApi: bool
    const hasAuthApi: bool
    const hasNotifyApi: bool
    const hasServiceApi: bool

    /** The bound node (the first one discovered) and whether a message listener is registered. */
    var currentNode: Option<Node>
    var listening: bool

    /** Every call made into the SDK, oldest first. */
    ghost var sdkLog: seq<SdkCall>

    /** A listener is only ever registered for a bound node. */
    ghost predicate Valid()
      reads this
    {
      listening ==> currentNode.Some?
    }

    /** Binds no node, does not listen, and registers the service-connection
        listener when the service API is there. */
    constructor(hasNodeApi: bool, hasMessageApi: bool, hasAuthApi: bool,
                hasNotifyApi: bool, hasServiceApi: bool)
      ensures Valid() && currentNode.None? && !listening
      ensures this.hasNodeApi == hasNodeApi && this.hasMessageApi == hasMessageApi
      ensures this.hasAuthApi == hasAuthApi && this.hasNotifyApi == hasNotifyApi
      ensures this.hasServiceApi == hasServiceApi
      ensures sdkLog == if hasServiceApi then [ServiceRegisterListener] else []
    {
      this.hasNodeApi := hasNodeApi;
      this.hasMessageApi := hasMessageApi;
      this.hasAuthApi := hasAuthApi;
      this.hasNotifyApi := hasNotifyApi;
      this.hasServiceApi := hasServiceApi;
      currentNode := None;
      listening := false;
      sdkLog := if hasServiceApi then [ServiceRegisterListener] else [];
    }

    /** `buildListeningData`: the flag, and the bound node's id and name when there is one. */
    function BuildListeningData(flag: bool): (v: Value)
      reads this
      ensures v.Obj? && "listening" in v.fields && v.fields["listening"] == Bool(flag)
      ensures ("nodeId" in v.fields <==> currentNode.Some?) && ("nodeName" in v.fields <==> currentNode.Some?)
      ensures currentNode.Some? ==>
        v.fields["nodeId"] == Str(currentNode.value.id) && v.fields["nodeName"] == Str(currentNode.value.name)
      ensures v.fields.Keys <= {"listening", "nodeId", "nodeName"}
    {
      var base := map["listening" := Bool(flag)];
      if currentNode.Some? then
        Obj(base["nodeId" := Str(currentNode.value.id)]["nodeName" := Str(currentNode.value.name)])
      else Obj(base)
    }

    /** `ensureNode`: no failure when a node is bound, `NO_DEVICE` otherwise. */
    method EnsureNode() returns (failure: Option<Response>)
      ensures failure.None? <==> currentNode.Some?
      ensures failure.Some? ==>
        failure.value == CreateCauseError(CODE_NO_DEVICE, None, Null) && RetryableOf(failure.value)
        && SuccessIffOk(failure.value)
    {
      if currentNode.Some? {
        return None;
      }
      return Some(CreateCauseError(CODE_NO_DEVICE, None, Null));
    }

    /** `getConnectedNode`: bind the first connected node. The node stays as
        it was unless the query succeeds with a non-empty list. */
    method GetConnectedNode(nodes: Outcome<Option<seq<Node>>>) returns (r: Response)
      requires Valid()
      ensures SuccessIffOk(r)
      modifies this`currentNode, this`sdkLog
      ensures Valid()
      ensures !hasNodeApi ==>
        r == CreateCauseError(CODE_SDK_ERROR, None, Null)
          && currentNode == old(currentNode) && sdkLog == old(sdkLog)
      ensures hasNodeApi ==> sdkLog == old(sdkLog) + [NodeGetConnectedNodes]
      ensures hasNodeApi && nodes.Fail? ==>
        r == CreateCauseError(CODE_CONNECTION_ERROR, Some(nodes.cause), Null)
          && currentNode == old(currentNode)
      ensures hasNodeApi && nodes.Ok? && FirstNode(nodes.value).None? ==>
        r == CreateCauseError(CODE_NO_DEVICE, None, Null) && currentNode == old(currentNode)
      ensures hasNodeApi && nodes.Ok? && FirstNode(nodes.value).Some? ==>
        currentNode == FirstNode(nodes.value)
          && r == CreateSuccess("设备连接成功", BuildNodeMap(currentNode.value))
    {
      if !hasNodeApi {
        return CreateCauseError(CODE_SDK_ERROR, None, Null);
      }
      sdkLog := sdkLog + [NodeGetConnectedNodes];
      match nodes
      case Fail(e) =>
        r := CreateCauseError(CODE_CONNECTION_ERROR, Some(e), Null);
      case Ok(list) =>
        if list.None? || list.value == [] {
          r := CreateCauseError(CODE_NO_DEVICE, None, Null);
        } else {
          currentNode := Some(list.value[0]);
          r := CreateSuccess("设备连接成功", BuildNodeMap(currentNode.value));
        }
    }

    /** `requestPermissions`: ask the bound node for the device-manager and
        notification permissions; success carries the granted names. */
    method RequestPermissions(granted: Outcome<Option<seq<Permission>>>) returns (r: Response)
      requires Valid()
      ensures SuccessIffOk(r)
      modifies this`sdkLog
      ensures Valid()
      ensures currentNode.None? ==>
        r == CreateCauseError(CODE_NO_DEVICE, None, Null) && sdkLog == old(sdkLog)
      ensures currentNode.Some? && !hasAuthApi ==>
        r == CreateCauseError(CODE_SDK_ERROR, None, Null) && sdkLog == old(sdkLog)
      ensures currentNode.Some? && hasAuthApi ==>
        sdkLog == old(sdkLog) + [AuthRequestPermission(currentNode.value.id, [DeviceManager, Notify])]
      ensures currentNode.Some? && hasAuthApi && granted.Ok? ==>
        r == CreateSuccess("权限申请成功",
               StrList(if granted.value.None? then [] else PermissionNames(granted.value.value)))
      ensures currentNode.Some? && hasAuthApi && granted.Fail? ==>
        r == CreateCauseError(CODE_PERMISSION_ERROR, Some(granted.cause), Null)
    {
      var missing := EnsureNode();
      if missing.Some? {
        return missing.value;
      }
      if !hasAuthApi {
        return CreateCauseError(CODE_SDK_ERROR, None, Null);
      }
      sdkLog := sdkLog + [AuthRequestPermission(currentNode.value.id, [DeviceManager, Notify])];
      match granted
      case Ok(list) =>
        var names := GrantedNames(list);
        r := CreateSuccess("权限申请成功", StrList(names));
      case Fail(e) =>
        r := CreateCauseError(CODE_PERMISSION_ERROR, Some(e), Null);
    }

    /** `sendMessage`: node, then message API, then a non-empty message;
        the SDK is called only when all three hold. */
    method SendMessage(message: Option<string>, send: Outcome<()>) returns (r: Response)
      requires Valid()
      ensures SuccessIffOk(r)
      modifies this`sdkLog
      ensures Valid()
      ensures currentNode.None? ==>
        r == CreateCauseError(CODE_NO_DEVICE, None, Null) && sdkLog == old(sdkLog)
      ensures currentNode.Some? && !hasMessageApi ==>
        r == CreateCauseError(CODE_SDK_ERROR, None, Null) && sdkLog == old(sdkLog)
      ensures currentNode.Some? && hasMessageApi && IsEmpty(message) ==>
        r == CreateParamError("消息内容") && sdkLog == old(sdkLog)
      ensures currentNode.Some? && hasMessageApi && !IsEmpty(message) ==>
        sdkLog == old(sdkLog) + [MessageSend(currentNode.value.id, message.value)]
          && r == if send.Ok? then CreateSuccess("消息发送成功", Null)
                  else CreateCauseError(CODE_MESSAGE_ERROR, Some(send.cause), Null)
    {
      var missing := EnsureNode();
      if missing.Some? {
        return missing.value;
      }
      if !hasMessageApi {
        return CreateCauseError(CODE_SDK_ERROR, None, Null);
      }
      if IsEmpty(message) {
        return CreateParamError("消息内容");
      }
      sdkLog := sdkLog + [MessageSend(currentNode.value.id, message.value)];
      match send
      case Ok(_) =>
        r := CreateSuccess("消息发送成功", Null);
      case Fail(e) =>
        r := CreateCauseError(CODE_MESSAGE_ERROR, Some(e), Null);
    }

    /** `sendNotification`: node, notify API, then the title before the body;
        the first empty field is reported and no notification is sent. */
    method SendNotification(title: Option<string>, message: Option<string>, notify: Outcome<string>)
      returns (r: Response)
      requires Valid()
      ensures SuccessIffOk(r)
      modifies this`sdkLog
      ensures Valid()
      ensures currentNode.None? ==>
        r == CreateCauseError(CODE_NO_DEVICE, None, Null) && sdkLog == old(sdkLog)
      ensures currentNode.Some? && !hasNotifyApi ==>
        r == CreateCauseError(CODE_SDK_ERROR, None, Null) && sdkLog == old(sdkLog)
      ensures currentNode.Some? && hasNotifyApi && IsEmpty(title) ==>
        r == CreateParamError("通知标题") && sdkLog == old(sdkLog)
      ensures currentNode.Some? && hasNotifyApi && !IsEmpty(title) && IsEmpty(message) ==>
        r == CreateParamError("通知内容") && sdkLog == old(sdkLog)
      ensures currentNode.Some? && hasNotifyApi && !IsEmpty(title) && !IsEmpty(message) ==>
        sdkLog == old(sdkLog) + [NotifySend(currentNode.value.id, title.value, message.value)]
          && r == if notify.Ok? then CreateSuccess("通知发送成功", Obj(map["status" := Str(notify.value)]))
                  else CreateCauseError(CODE_NOTIFY_ERROR, Some(notify.cause), Null)
    {
      var missing := EnsureNode();
      if missing.Some? {
        return missing.value;
      }
      if !hasNotifyApi {
        return CreateCauseError(CODE_SDK_ERROR, None, Null);
      }
      if IsEmpty(title) {
        return CreateParamError("通知标题");
      }
      if IsEmpty(message) {
        return CreateParamError("通知内容");
      }
      sdkLog := sdkLog + [NotifySend(currentNode.value.id, title.value, message.value)];
      match notify
      case Ok(status) =>
        r := CreateSuccess("通知发送成功", Obj(map["status" := Str(status)]));
      case Fail(e) =>
        r := CreateCauseError(CODE_NOTIFY_ERROR, Some(e), Null);
    }

    /** `startListening`: idempotent; the flag is set only when the SDK
        accepts the listener. */
    method StartListening(add: Outcome<()>) returns (r: Response)
      requires Valid()
      ensures SuccessIffOk(r)
      modifies this`listening, this`sdkLog
      ensures Valid()
      ensures currentNode.None? ==>
        r == CreateCauseError(CODE_NO_DEVICE, None, Null) && listening == old(listening) && sdkLog == old(sdkLog)
      ensures currentNode.Some? && !hasMessageApi ==>
        r == CreateCauseError(CODE_SDK_ERROR, None, Null) && listening == old(listening) && sdkLog == old(sdkLog)
      ensures currentNode.Some? && hasMessageApi && old(listening) ==>
        r == CreateSuccess("已在监听消息", BuildListeningData(true)) && listening && sdkLog == old(sdkLog)
      ensures currentNode.Some? && hasMessageApi && !old(listening) ==>
        sdkLog == old(sdkLog) + [MessageAddListener(currentNode.value.id)]
          && listening == add.Ok?
          && r == if add.Ok? then CreateSuccess("开始监听消息", BuildListeningData(true))
                  else CreateCauseError(CODE_LISTEN_ERROR, Some(add.cause), Null)
    {
      var missing := EnsureNode();
      if missing.Some? {
        return missing.value;
      }
      if !hasMessageApi {
        return CreateCauseError(CODE_SDK_ERROR, None, Null);
      }
      if listening {
        return CreateSuccess("已在监听消息", BuildListeningData(true));
      }
      sdkLog := sdkLog + [MessageAddListener(currentNode.value.id)];
      match add
      case Ok(_) =>
        listening := true;
        r := CreateSuccess("开始监听消息", BuildListeningData(true));
      case Fail(e) =>
        r := CreateCauseError(CODE_LISTEN_ERROR, Some(e), Null);
    }

    /** `stopListening`: idempotent; the flag is cleared only when the SDK
        removes the listener. */
    method StopListening(remove: Outcome<()>) returns (r: Response)
      requires Valid()
      ensures SuccessIffOk(r)
      modifies this`listening, this`sdkLog
      ensures Valid()
      ensures currentNode.None? ==>
        r == CreateCauseError(CODE_NO_DEVICE, None, Null) && listening == old(listening) && sdkLog == old(sdkLog)
      ensures currentNode.Some? && !hasMessageApi ==>
        r == CreateCauseError(CODE_SDK_ERROR, None, Null) && listening == old(listening) && sdkLog == old(sdkLog)
      ensures currentNode.Some? && hasMessageApi && !old(listening) ==>
        r == CreateSuccess("监听已停止", BuildListeningData(false)) && !listening && sdkLog == old(sdkLog)
      ensures currentNode.Some? && hasMessageApi && old(listening) ==>
        sdkLog == old(sdkLog) + [MessageRemoveListener(currentNode.value.id)]
          && listening == remove.Fail?
          && r == if remove.Ok? then CreateSuccess("停止监听消息", BuildListeningData(false))
                  else CreateCauseError(CODE_STOP_LISTEN_ERROR, Some(remove.cause), Null)
    {
      var missing := EnsureNode();
      if missing.Some? {
        return missing.value;
      }
      if !hasMessageApi {
        return CreateCauseError(CODE_SDK_ERROR, None, Null);
      }
      if !listening {
        return CreateSuccess("监听已停止", BuildListeningData(false));
      }
      sdkLog := sdkLog + [MessageRemoveListener(currentNode.value.id)];
      match remove
      case Ok(_) =>
        listening := false;
        r := CreateSuccess("停止监听消息", BuildListeningData(false));
      case Fail(e) =>
        r := CreateCauseError(CODE_STOP_LISTEN_ERROR, Some(e), Null);
    }

    /** `checkWearApp`: check the device-manager permission, and only when it
        is granted ask whether the app is installed on the wearable. Unlike
        the source, a missing `nodeApi` is reported as `SDK_ERROR` up front. */
    method CheckWearApp(check: Outcome<Option<seq<bool>>>, installed: Outcome<bool>) returns (r: Response)
      requires Valid()
      ensures SuccessIffOk(r)
      modifies this`sdkLog
      ensures Valid()
      ensures currentNode.None? ==>
        r == CreateCauseError(CODE_NO_DEVICE, None, Null) && sdkLog == old(sdkLog)
      ensures currentNode.Some? && !(hasAuthApi && hasNodeApi) ==>
        r == CreateCauseError(CODE_SDK_ERROR, None, Null) && sdkLog == old(sdkLog)
      ensures currentNode.Some? && hasAuthApi && hasNodeApi ==>
        r == CheckWearAppReply(check, installed)
          && sdkLog == old(sdkLog) + [AuthCheckPermissions(currentNode.value.id, [DeviceManager])]
               + (if check.Ok? && PermissionGranted(check.value)
                  then [NodeIsWearAppInstalled(currentNode.value.id)] else [])
    {
      var missing := EnsureNode();
      if missing.Some? {
        return missing.value;
      }
      if !hasAuthApi || !hasNodeApi {
        return CreateCauseError(CODE_SDK_ERROR, None, Null);
      }
      sdkLog := sdkLog + [AuthCheckPermissions(currentNode.value.id, [DeviceManager])];
      match check
      case Fail(e) =>
        r := CreateCauseError(CODE_PERMISSION_CHECK_FAILED, Some(e), Null);
      case Ok(results) =>
        if !PermissionGranted(results) {
          r := CreateCauseError(CODE_PERMISSION_REQUIRED, None, Null);
        } else {
          sdkLog := sdkLog + [NodeIsWearAppInstalled(currentNode.value.id)];
          r := WearAppInstalledReply(installed);
        }
    }

    /** `launchWearApp`: launch the wearable app at the given path, "/" when
        it is null or empty. Unlike the source, a missing `nodeApi` is
        reported as `SDK_ERROR`. */
    method LaunchWearApp(path: Option<string>, launch: Outcome<()>) returns (r: Response)
      requires Valid()
      ensures SuccessIffOk(r)
      modifies this`sdkLog
      ensures Valid()
      ensures currentNode.None? ==>
        r == CreateCauseError(CODE_NO_DEVICE, None, Null) && sdkLog == old(sdkLog)
      ensures currentNode.Some? && !hasNodeApi ==>
        r == CreateCauseError(CODE_SDK_ERROR, None, Null) && sdkLog == old(sdkLog)
      ensures currentNode.Some? && hasNodeApi ==>
        r == LaunchReply(LaunchPath(path), launch)
          && sdkLog == old(sdkLog) + [NodeLaunchWearApp(currentNode.value.id, LaunchPath(path))]
    {
      var missing := EnsureNode();
      if missing.Some? {
        return missing.value;
      }
      if !hasNodeApi {
        return CreateCauseError(CODE_SDK_ERROR, None, Null);
      }
      var launchPath := LaunchPath(path);
      sdkLog := sdkLog + [NodeLaunchWearApp(currentNode.value.id, launchPath)];
      r := LaunchReply(launchPath, launch);
    }

    /** `dispose`: unregister the service-connection listener, and remove the
        message listener only when one is registered for a bound node. The
        removal is not awaited, so the flag is left as it is. */
    method Dispose()
      requires Valid()
      modifies this`sdkLog
      ensures Valid()
      ensures sdkLog == old(sdkLog)
        + (if hasServiceApi then [ServiceUnregisterListener] else [])
        + (if hasMessageApi && currentNode.Some? && listening
           then [MessageRemoveListener(currentNode.value.id)] else [])
    {
      if hasServiceApi {
        sdkLog := sdkLog + [ServiceUnregisterListener];
      }
      if hasMessageApi && currentNode.Some? && listening {
        sdkLog := sdkLog + [MessageRemoveListener(currentNode.value.id)];
      }
    }
  }
}
