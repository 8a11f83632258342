# Wearable bridge: error catalogue and session coordinator

A Dafny model of the Android side of the bridge between the Flutter weather
app and a paired Xiaomi wearable. It covers two parts of the Java code:

- `WearableErrorManager` (module `WearableErrorManager`, file
  `error_manager.dfy`): the fixed catalogue from error codes to a default
  message, an ordered hint list and a retryable flag, the lookup that falls
  back to a synthesised "unknown error" entry, and the builders that turn an
  outcome into the response map sent to the UI (`success`, `code`,
  `message`, `data`, and the optional `hints`, `details`, `retryable`). The
  response is modelled as the map it is; `WellFormed` states its shape and
  `SuccessOf` … `RetryableOf` read its fields back.
- The coordinator class `WearableSdkManager` nested in
  `WearableMessageHandler` (module `WearableMessageHandler`, file
  `sdk_manager.dfy`): a Dafny class with the mutable fields `currentNode` and
  `listening`, one method per operation, the pure helpers `buildNodeMap`,
  `buildListeningData` and the launch-path default, and the loop that lists
  the granted permission names. Each SDK handle (`nodeApi`, `messageApi`,
  `authApi`, `notifyApi`, `serviceApi`) is a boolean saying whether it was
  obtained. Each asynchronous SDK task is an `Outcome` argument (`Ok(value)`
  or `Fail(exception)`) that is consumed only if the call is made. The ghost
  field `sdkLog` records every SDK call, so the contracts can say when no call
  is made. The object invariant `Valid()` states that a listener is registered
  only while a node is bound.

`values.dfy` holds the shared values: Java's nullable references (`Option`,
with `IsEmpty` for `TextUtils.isEmpty`), the objects placed in a response,
exceptions with a nullable message, and task outcomes. `scenarios.dfy` runs
short sessions through the class and states what the caller receives.

Messages and hints are the catalogue's Chinese literals. The coordinator
keeps no connectivity flag; it only forwards connectivity events.
`checkWearApp` and `launchWearApp` use the handles they use in the code, with
the two corrections under Findings. Every response the coordinator returns
satisfies `SuccessIffOk`: `success` is true exactly when the code is `OK`.

## Model

| member | source | states |
|---|---|---|
| `WearableErrorManager.NewErrorInfo` | android/app/src/main/java/com/application/zaona/weather/WearableErrorManager.java:46-51 | an entry keeps its code, message and flag; a null hint list becomes the empty list |
| `WearableErrorManager.HintedInfo` | android/app/src/main/java/com/application/zaona/weather/WearableErrorManager.java:53-55 | an entry built without a flag is retryable and keeps its hints in order |
| `WearableErrorManager.FlaggedInfo` | android/app/src/main/java/com/application/zaona/weather/WearableErrorManager.java:57-59 | an entry built with a flag keeps that flag and its hints in order |
| `WearableErrorManager.GetErrorInfo` | android/app/src/main/java/com/application/zaona/weather/WearableErrorManager.java:192-199 | the lookup never fails: it returns the registered entry, or for an unregistered code an entry with that code, message "未知错误", hints ["请稍后重试"] and retryable; the entry always carries the code asked for and a non-empty message |
| `WearableErrorManager.CatalogueCoversErrorCodes` | android/app/src/main/java/com/application/zaona/weather/WearableErrorManager.java:64-187 | the catalogue registers exactly the fifteen error codes, and `OK` is not among them |
| `WearableErrorManager.RetryableUnlessRegisteredOtherwise` | android/app/src/main/java/com/application/zaona/weather/WearableErrorManager.java:64-199 | a lookup is retryable exactly when the code is not `PERMISSION_REQUIRED`, `APP_NOT_INSTALLED`, `WEAR_APP_NOT_INSTALLED` or `INVALID_PARAMS`; so `SDK_ERROR` (built without a flag) and unknown codes are retryable |
| `WearableErrorManager.HintsMissingOnlyForInvalidParams` | android/app/src/main/java/com/application/zaona/weather/WearableErrorManager.java:182-199 | a lookup has no hints exactly for `INVALID_PARAMS` |
| `WearableErrorManager.ResponseDeterminedByFields` | android/app/src/main/java/com/application/zaona/weather/WearableErrorManager.java:262-288 | two well-formed response maps with the same success, code, message, data, hints, details and retryable flag are the same map: the map holds nothing else |
| `WearableErrorManager.ExtractExceptionDetails` | android/app/src/main/java/com/application/zaona/weather/WearableErrorManager.java:293-298 | details exist exactly when there is an exception whose message is non-null and non-empty, and then they are that message |
| `WearableErrorManager.CreateResponse` | android/app/src/main/java/com/application/zaona/weather/WearableErrorManager.java:262-288 | the map is well formed and always holds success, code, message and data; `hints` is present iff the list is non-empty, `details` iff they are non-empty, `retryable` iff the flag is true, and then with value true |
| `WearableErrorManager.CreateSuccess` | android/app/src/main/java/com/application/zaona/weather/WearableErrorManager.java:204-206 | success is true, the code is `OK`, message and data are those given, and there is no `hints`, `details` or `retryable` key |
| `WearableErrorManager.CreateError` | android/app/src/main/java/com/application/zaona/weather/WearableErrorManager.java:211-229 | success is false with the given code and data; the message is the custom one when non-empty, else the catalogue's (so never empty); the hints are the custom ones when non-null and non-empty, else the catalogue's; the flag is the custom one when given, else the catalogue's; details come from the exception |
| `WearableErrorManager.CreateCauseError` | android/app/src/main/java/com/application/zaona/weather/WearableErrorManager.java:234-236 | a failure whose message, hints and flag are the catalogue entry's and whose details come from the exception |
| `WearableErrorManager.CreateCodeError` | android/app/src/main/java/com/application/zaona/weather/WearableErrorManager.java:241-243 | a failure with the catalogue entry's message, hints and flag, and no details |
| `WearableErrorManager.CreateParamError` | android/app/src/main/java/com/application/zaona/weather/WearableErrorManager.java:248-257 | code `INVALID_PARAMS`, message p + "不能为空", hints exactly ["请输入" + p], no data, no details, no `retryable` key |
| `WearableErrorManager.SuccessExactlyWhenOk` | android/app/src/main/java/com/application/zaona/weather/WearableErrorManager.java:204-229 | `SuccessIffOk` holds of every `createSuccess` response and of every `createError` response for a code other than `OK`: `success` is true exactly when the code is `OK` |
| `WearableMessageHandler.FirstNode` | android/app/src/main/java/com/application/zaona/weather/WearableMessageHandler.java:171-180 | discovery yields a node exactly when the list is non-null and non-empty, and then its first entry |
| `WearableMessageHandler.BuildNodeMap` | android/app/src/main/java/com/application/zaona/weather/WearableMessageHandler.java:463-469 | the node map has exactly the keys id, name and attributes: the node's id, its name and an empty map |
| `WearableMessageHandler.LaunchPath` | android/app/src/main/java/com/application/zaona/weather/WearableMessageHandler.java:431 | the launch path is "/" for a null or empty path and the path itself otherwise, so it is never empty |
| `WearableMessageHandler.PermissionNamesAt` | android/app/src/main/java/com/application/zaona/weather/WearableMessageHandler.java:209-214 | the name list has one entry per granted permission, and entry k is the name of permission k |
| `WearableMessageHandler.GrantedNames` | android/app/src/main/java/com/application/zaona/weather/WearableMessageHandler.java:209-214 | the loop yields the empty list for a null grant and otherwise the granted permissions' names in order |
| `WearableMessageHandler.WearAppInstalledReply` | android/app/src/main/java/com/application/zaona/weather/WearableMessageHandler.java:396-416 | installed gives success, code `OK`, with {installed: true}; not installed gives `WEAR_APP_NOT_INSTALLED` with {installed: false}, not retryable; a failed query gives `CHECK_FAILED` with the exception's details |
| `WearableMessageHandler.CheckWearAppReply` | android/app/src/main/java/com/application/zaona/weather/WearableMessageHandler.java:385-424 | a failed permission check gives `PERMISSION_CHECK_FAILED`; a null, empty or false first result gives `PERMISSION_REQUIRED` whatever the install query would say; otherwise the install reply; success only for granted and installed |
| `WearableMessageHandler.LaunchReply` | android/app/src/main/java/com/application/zaona/weather/WearableMessageHandler.java:432-441 | success, code `OK`, exactly when the launch succeeds, with {path: launchPath}; otherwise `LAUNCH_FAILED` with the exception's details |
| `WearableMessageHandler.CheckWearableApp` | android/app/src/main/java/com/application/zaona/weather/WearableMessageHandler.java:349-369 | package found gives success with {installed: true}; not found gives `APP_NOT_INSTALLED` with {installed: false}, not retryable; any other lookup failure gives `CHECK_FAILED` with the exception's details |
| `WearableMessageHandler.LaunchWearAppAsWritten` | android/app/src/main/java/com/application/zaona/weather/WearableMessageHandler.java:427-442 | the source's launch: `NO_DEVICE` without a node, the launch reply with a node and `nodeApi`; with a node and no `nodeApi` no response map is delivered (see Findings) |
| `WearableMessageHandler.LaunchWearAppAsWrittenLosesReply` | android/app/src/main/java/com/application/zaona/weather/WearableMessageHandler.java:432 | with a node bound and `nodeApi` absent, the source's launch delivers no response map |
| `WearableMessageHandler.CheckWearAppAsWritten` | android/app/src/main/java/com/application/zaona/weather/WearableMessageHandler.java:371-425 | the source's check: `NO_DEVICE`, then `SDK_ERROR` for a missing `authApi`, then the reply chain when `nodeApi` is present; with no `nodeApi` the permission call is still made and answers `PERMISSION_CHECK_FAILED` or `PERMISSION_REQUIRED` as usual, and only a granted permission loses its response map (see Findings) |
| `WearableMessageHandler.CheckWearAppAsWrittenLosesReply` | android/app/src/main/java/com/application/zaona/weather/WearableMessageHandler.java:396 | with a node, `authApi`, no `nodeApi` and any permission result whose first entry is true, the source's check delivers no response map |
| `WearableMessageHandler.WearableSdkManager.constructor` | android/app/src/main/java/com/application/zaona/weather/WearableMessageHandler.java:118-148 | a new coordinator has no node, is not listening, and has registered the service-connection listener exactly when the service API is there |
| `WearableMessageHandler.WearableSdkManager.BuildListeningData` | android/app/src/main/java/com/application/zaona/weather/WearableMessageHandler.java:471-479 | the data holds the given flag, and nodeId and nodeName exactly when a node is bound, equal to its id and name |
| `WearableMessageHandler.WearableSdkManager.EnsureNode` | android/app/src/main/java/com/application/zaona/weather/WearableMessageHandler.java:444-454 | no failure exactly when a node is bound; otherwise the retryable `NO_DEVICE` error |
| `WearableMessageHandler.WearableSdkManager.GetConnectedNode` | android/app/src/main/java/com/application/zaona/weather/WearableMessageHandler.java:159-191 | without `nodeApi`: `SDK_ERROR` and no call; a failed query gives `CONNECTION_ERROR`, a null or empty list `NO_DEVICE`, both leaving the node as it was; otherwise the first node is bound and returned as a node map |
| `WearableMessageHandler.WearableSdkManager.RequestPermissions` | android/app/src/main/java/com/application/zaona/weather/WearableMessageHandler.java:193-224 | `NO_DEVICE`, then `SDK_ERROR`, with no call; otherwise it asks for DEVICE_MANAGER and NOTIFY on the bound node and returns the granted names in order, or `PERMISSION_ERROR` |
| `WearableMessageHandler.WearableSdkManager.SendMessage` | android/app/src/main/java/com/application/zaona/weather/WearableMessageHandler.java:226-252 | checks node (`NO_DEVICE`), then `messageApi` (`SDK_ERROR`), then a non-empty message (the param error for "消息内容"); the message is sent only when all three pass, then success or `MESSAGE_ERROR` |
| `WearableMessageHandler.WearableSdkManager.SendNotification` | android/app/src/main/java/com/application/zaona/weather/WearableMessageHandler.java:254-285 | node, `notifyApi`, then the title before the body, the first empty one giving its own param error and no call; success carries {status} |
| `WearableMessageHandler.WearableSdkManager.StartListening` | android/app/src/main/java/com/application/zaona/weather/WearableMessageHandler.java:287-316 | already listening: success with the listening data and no call; otherwise one add-listener call, `listening` set exactly when it succeeds and unchanged on `LISTEN_ERROR`; the node-bound invariant is kept |
| `WearableMessageHandler.WearableSdkManager.StopListening` | android/app/src/main/java/com/application/zaona/weather/WearableMessageHandler.java:318-347 | not listening: success with listening false and no call; otherwise one remove-listener call, `listening` cleared exactly when it succeeds and unchanged on `STOP_LISTEN_ERROR` |
| `WearableMessageHandler.WearableSdkManager.CheckWearApp` | android/app/src/main/java/com/application/zaona/weather/WearableMessageHandler.java:371-425 | `NO_DEVICE`, then `SDK_ERROR` (for a missing `authApi` or, corrected, `nodeApi`) with no call; otherwise one permission check and, only when granted, one install query, answered by `CheckWearAppReply` |
| `WearableMessageHandler.WearableSdkManager.LaunchWearApp` | android/app/src/main/java/com/application/zaona/weather/WearableMessageHandler.java:427-442 | `NO_DEVICE`, then (corrected) `SDK_ERROR` for a missing `nodeApi`, with no call; otherwise launches the defaulted path on the bound node and answers with `LaunchReply` |
| `WearableMessageHandler.WearableSdkManager.Dispose` | android/app/src/main/java/com/application/zaona/weather/WearableMessageHandler.java:150-157 | unregisters the service listener when the service API is there, and removes the message listener only when `messageApi` is there, a node is bound and it is listening |
| `Scenarios.EmptyDiscoveryThenSend` | android/app/src/main/java/com/application/zaona/weather/WearableMessageHandler.java:169-178 | an empty discovery gives retryable `NO_DEVICE` and leaves the node unbound, so a following send also gives `NO_DEVICE`; the returned SDK call log holds only the discovery |
| `Scenarios.DiscoverThenListen` | android/app/src/main/java/com/application/zaona/weather/WearableMessageHandler.java:180-182 | discovering [A1/Band, B2/Watch] returns {id: A1, name: Band, attributes: {}}, and listening then returns {listening: true, nodeId: A1, nodeName: Band} |
| `Scenarios.ListenTwice` | android/app/src/main/java/com/application/zaona/weather/WearableMessageHandler.java:299-307 | a second start succeeds with the same data from the already-listening branch, and the returned SDK call log holds a single add-listener call |
| `Scenarios.FailedStop` | android/app/src/main/java/com/application/zaona/weather/WearableMessageHandler.java:335-346 | a failed stop gives `STOP_LISTEN_ERROR` with the exception's message "gone" as details; the returned flag is still true and the SDK call log ends with the one remove-listener call |
| `Scenarios.DisposeWhileListening` | android/app/src/main/java/com/application/zaona/weather/WearableMessageHandler.java:150-157 | disposing while listening leaves the flag true and appends the service-listener unregistration and the removal of the bound node's message listener to the SDK call log |
| `Scenarios.SendEmptyMessage` | android/app/src/main/java/com/application/zaona/weather/WearableMessageHandler.java:238-241 | an empty message gives `INVALID_PARAMS`, not retryable, hint "请输入消息内容"; the returned SDK call log holds no send |
| `Scenarios.CheckWearAppWithoutPermission` | android/app/src/main/java/com/application/zaona/weather/WearableMessageHandler.java:386-395 | a permission check answering [false] gives `PERMISSION_REQUIRED`, not retryable, and the returned SDK call log ends with the permission check, with no install query |

## Left out

- The Flutter plugin plumbing of `WearableMessageHandler` (`onAttachedToEngine`, the `onMethodCall` dispatch on method names, `onDetachedFromEngine`, `MethodChannel` marshalling): it only routes calls to the coordinator.
- `MainActivity.java` (it only registers the plugin) and `build.gradle.kts` (build configuration).
- The Xiaomi wearable SDK (`NodeApi`, `MessageApi`, `AuthApi`, `NotifyApi`, `ServiceApi`): each handle is a boolean and each task an `Outcome` argument. A task that never completes, and the interleaving of several outstanding tasks, are not modelled: each operation settles before the next begins.
- The incoming-message listener (UTF-8 decoding, posting to the main thread) and `emitServiceStatus` (the connectivity payload with its `System.currentTimeMillis` timestamp): event plumbing and clock calls. The coordinator keeps no connectivity state, so none is modelled.
- The UTF-8 encoding of a sent message: the SDK call log records the text.
- `PackageManager.getPackageInfo` in `checkWearableApp`: a three-way input (found, name not found, other failure).
- Permission names: `Permission.toString()` belongs to the SDK; the model reports each permission by its constant name. The notification status is likewise taken in its string form.
- Null values that no caller passes: the code given to `getErrorInfo`, the message given to `createSuccess` and the hint list given to `createResponse` are non-null strings and lists in the model (every entry's hints are non-null by construction and custom hints are only used when non-empty); node ids and names, granted permissions and the boxed `installed` answer are taken as non-null.

## Findings

| source | as written | input that shows it | evidently intended | confidence | as-written member | corrected member |
|---|---|---|---|---|---|---|
| android/app/src/main/java/com/application/zaona/weather/WearableMessageHandler.java:427-432 | `launchWearApp` calls `nodeApi.launchWearApp` without checking `nodeApi` for null, unlike every other operation that checks its handle | a node is bound, `nodeApi` is null, any path | answer `SDK_ERROR` and make no call, as `getConnectedNode` does for the same handle | not executed; medium | `WearableMessageHandler.LaunchWearAppAsWrittenLosesReply` | `WearableMessageHandler.WearableSdkManager.LaunchWearApp` |
| android/app/src/main/java/com/application/zaona/weather/WearableMessageHandler.java:375-396 | `checkWearApp` checks `authApi` for null but then calls `nodeApi.isWearAppInstalled` in the permission callback without checking `nodeApi` | a node is bound, `authApi` present, `nodeApi` null, the permission check answers [true] | answer `SDK_ERROR` before any call when either handle the operation uses is missing | not executed; medium | `WearableMessageHandler.CheckWearAppAsWrittenLosesReply` | `WearableMessageHandler.WearableSdkManager.CheckWearApp` |
