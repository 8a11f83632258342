/** Short sessions against the coordinator, each a sequence of operations
    with given SDK outcomes, and what the caller receives. */
module Scenarios {
  import opened Values
  import opened WearableErrorManager
  import opened WearableMessageHandler

  /** A coordinator with every SDK handle present that has bound the band
      "A1" and started listening to it. */
  method ListeningOnBand() returns (m: WearableSdkManager)
    ensures fresh(m) && m.Valid()
    ensures m.hasNodeApi && m.hasMessageApi && m.hasAuthApi && m.hasNotifyApi && m.hasServiceApi
    ensures m.currentNode == Some(Node("A1", "Band")) && m.listening
    ensures m.sdkLog == [ServiceRegisterListener, NodeGetConnectedNodes, MessageAddListener("A1")]
  {
    m := new WearableSdkManager(true, true, true, true, true);
    var _ := m.GetConnectedNode(Ok(Some([Node("A1", "Band")])));
    assert m.currentNode == Some(Node("A1", "Band")) && !m.listening;
    var _ := m.StartListening(Ok(()));
  }

  /** Discovery finds no node: `NO_DEVICE`, retryable, and the node stays
      unbound, so a following send is refused with `NO_DEVICE` as well and
      never reaches the SDK. */
  method EmptyDiscoveryThenSend() returns (discovered: Response, sent: Response, ghost log: seq<SdkCall>)
    ensures log == [ServiceRegisterListener, NodeGetConnectedNodes]
    ensures WellFormed(discovered) && !SuccessOf(discovered)
    ensures CodeOf(discovered) == CODE_NO_DEVICE && RetryableOf(discovered)
    ensures WellFormed(sent) && !SuccessOf(sent) && CodeOf(sent) == CODE_NO_DEVICE
  {
    var m := new WearableSdkManager(true, true, true, true, true);
    discovered := m.GetConnectedNode(Ok(Some([])));
    sent := m.SendMessage(Some("hi"), Ok(()));
    log := m.sdkLog;
  }

  /** Discovery binds the first node; listening then reports that node. */
  method DiscoverThenListen() returns (discovered: Response, listened: Response)
    ensures WellFormed(discovered) && SuccessOf(discovered)
    ensures DataOf(discovered) ==
      Obj(map["id" := Str("A1"), "name" := Str("Band"), "attributes" := Obj(map[])])
    ensures WellFormed(listened) && SuccessOf(listened)
    ensures DataOf(listened) ==
      Obj(map["listening" := Bool(true), "nodeId" := Str("A1"), "nodeName" := Str("Band")])
  {
    var m := new WearableSdkManager(true, true, true, true, true);
    discovered := m.GetConnectedNode(Ok(Some([Node("A1", "Band"), Node("B2", "Watch")])));
    listened := m.StartListening(Ok(()));
  }

  /** Starting to listen twice registers one listener: the second call
      succeeds without reaching the SDK, even if that call would fail. */
  method ListenTwice() returns (first: Response, second: Response, ghost log: seq<SdkCall>)
    ensures log == [ServiceRegisterListener, NodeGetConnectedNodes, MessageAddListener("A1")]
    ensures WellFormed(first) && SuccessOf(first) && MessageOf(first) == "开始监听消息"
    ensures WellFormed(second) && SuccessOf(second) && MessageOf(second) == "已在监听消息"
    ensures DataOf(first) == DataOf(second)
  {
    var m := new WearableSdkManager(true, true, true, true, true);
    var _ := m.GetConnectedNode(Ok(Some([Node("A1", "Band")])));
    assert m.currentNode == Some(Node("A1", "Band")) && !m.listening;
    first := m.StartListening(Ok(()));
    assert first == CreateSuccess("开始监听消息", m.BuildListeningData(true)) && m.listening;
    second := m.StartListening(Fail(Failure(Some("busy"))));
    assert second == CreateSuccess("已在监听消息", m.BuildListeningData(true));
    log := m.sdkLog;
  }

  /** A failed stop reports `STOP_LISTEN_ERROR` with the exception's message
      and leaves the listener registered. */
  method FailedStop() returns (stopped: Response, stillListening: bool, ghost log: seq<SdkCall>)
    ensures WellFormed(stopped) && !SuccessOf(stopped)
    ensures CodeOf(stopped) == CODE_STOP_LISTEN_ERROR && DetailsOf(stopped) == Some("gone")
    ensures stillListening
    ensures log == [ServiceRegisterListener, NodeGetConnectedNodes, MessageAddListener("A1"),
                    MessageRemoveListener("A1")]
  {
    var m := ListeningOnBand();
    stopped := m.StopListening(Fail(Failure(Some("gone"))));
    stillListening := m.listening;
    log := m.sdkLog;
  }

  /** Disposing while listening unregisters the service listener and removes
      the message listener of the bound node; the flag is left as it was. */
  method DisposeWhileListening() returns (stillListening: bool, ghost log: seq<SdkCall>)
    ensures stillListening
    ensures log == [ServiceRegisterListener, NodeGetConnectedNodes, MessageAddListener("A1"),
                    ServiceUnregisterListener, MessageRemoveListener("A1")]
  {
    var m := ListeningOnBand();
    m.Dispose();
    stillListening := m.listening;
    log := m.sdkLog;
  }

  /** An empty message is a parameter error that is not retryable and makes no SDK call. */
  method SendEmptyMessage() returns (sent: Response, ghost log: seq<SdkCall>)
    ensures log == [ServiceRegisterListener, NodeGetConnectedNodes]
    ensures WellFormed(sent) && !SuccessOf(sent)
    ensures CodeOf(sent) == CODE_INVALID_PARAMS && !RetryableOf(sent)
    ensures HintsOf(sent) == ["请输入消息内容"]
  {
    var m := new WearableSdkManager(true, true, true, true, true);
    var _ := m.GetConnectedNode(Ok(Some([Node("A1", "Band")])));
    sent := m.SendMessage(Some(""), Ok(()));
    assert "请输入" + "消息内容" == "请输入消息内容";
    log := m.sdkLog;
  }

  /** The permission check succeeds but reports "not granted": the result is
      `PERMISSION_REQUIRED` and the install query is never made. */
  method CheckWearAppWithoutPermission() returns (checked: Response, ghost log: seq<SdkCall>)
    ensures log == [ServiceRegisterListener, NodeGetConnectedNodes,
                    AuthCheckPermissions("A1", [DeviceManager])]
    ensures WellFormed(checked) && !SuccessOf(checked)
    ensures CodeOf(checked) == CODE_PERMISSION_REQUIRED && !RetryableOf(checked)
  {
    var m := new WearableSdkManager(true, true, true, true, true);
    var _ := m.GetConnectedNode(Ok(Some([Node("A1", "Band")])));
    checked := m.CheckWearApp(Ok(Some([false])), Ok(true));
    log := m.sdkLog;
  }
}
