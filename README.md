# GoCD WebSocket notifier: a Dafny model of its decision logic

The plugin receives stage-status notifications from a GoCD server. For each one it
broadcasts the event to a WebSocket listener, forwards it by HTTP PUT to a configured
receiver, and answers the server with a single verdict. This project models the logic
that sits under that plumbing:

- **Request dispatch** (`Notifier.GoNotificationPlugin.Handle`). The request name
  `notifications-interested-in` gets the fixed declaration `{"notifications": ["stage-status"]}`.
  The name `stage-status` goes to the stage handler. Any other name gets `null` (`None`).
- **The stage-status verdict** (`StageFailure`, `StageResponse`, `HandleStageNotification`).
  There are two steps. First the listener is notified. Only if that returns is the event
  forwarded to the receiver. The receiver's answer counts as success only for a status code
  in [200, 299]. When both steps succeed, the response has code 200, status `success` and no
  messages. When either step throws, it has code 500, status `failure` and exactly one message:
  the `getMessage()` of the exception that was caught. For a rejected status code that message
  is `java.lang.Exception: Response code from remote notification server: <code>`. The code is
  written with Java's `Integer.toString` (module `JavaInt`). The lemmas prove that the code can
  be read back from the message.
- **One-time initialisation** (`InitializeGoApplicationAccessor`, `InitStep`, `InitAll`).
  The plugin keeps two static fields: the receiver URL and the listener. Each is assigned only
  while it is still null. If the WebSocket server fails to start, the listener stays null. The
  lemmas cover any sequence of initialisation calls.
- **Configuration** (`Config.PluginConfig`). The port defaults to 8887 and the receiver URL to
  `http://localhost/ci-receiver`. A configuration file overrides each one, independently and only
  where it has the key. The setters act as independent cells.

Everything outside the plugin is an input. The `Environment` record holds the outcome of
notifying the listener, the outcome of the PUT of a body to a URL, the message of the
NullPointerException that a null listener raises, and the `toString()` of the
MalformedURLException that `new URL(null)` raises. The configuration file is an
`Option<ConfigFile>`, already parsed. The outcome of starting the server is a `ServerStart`.

Two points about the verdict:
- A null or throwing listener makes the verdict a 500 failure, and the remote forward is then
  skipped.
- A receiver that rejects the event or cannot be reached also gives a 500 failure.

Files: `wrappers.dfy` (Option), `java_int.dfy` (Java `int` and its decimal text),
`plugin_config.dfy` (module `Config`), `go_notification_plugin.dfy` (module `Notifier`).

## Model

| member | source | states |
|---|---|---|
| `JavaInt.NatToDecimal` | src/main/java/com/matt_richardson/gocd/websocket_notifier/GoNotificationPlugin.java:113 | the digits of a number: at least one, all decimal digits, and a leading zero only for 0 |
| `JavaInt.IntToDecimal` | src/main/java/com/matt_richardson/gocd/websocket_notifier/GoNotificationPlugin.java:113 | how `"..." + responseCode` writes an int: a leading minus exactly for negative codes, then digits |
| `JavaInt.IntDecimalRoundTrip` | src/main/java/com/matt_richardson/gocd/websocket_notifier/GoNotificationPlugin.java:113 | parsing the written code gives back the code, for every int |
| `JavaInt.IntToDecimalInjective` | src/main/java/com/matt_richardson/gocd/websocket_notifier/GoNotificationPlugin.java:113 | different codes are written differently |
| `Config.ConfiguredPort` | src/main/java/com/matt_richardson/gocd/websocket_notifier/PluginConfig.java:12-25 | the port is 8887 with no file; the file's `port` value when the file has that key; it differs from 8887 only when the file has that key with that value |
| `Config.ConfiguredPingUrl` | src/main/java/com/matt_richardson/gocd/websocket_notifier/PluginConfig.java:13-28 | the URL is `http://localhost/ci-receiver` with no file; the file's `url` value when the file has that key; it differs from the default only when the file has that key with that value |
| `Config.PortIgnoresUrl` | src/main/java/com/matt_richardson/gocd/websocket_notifier/PluginConfig.java:23-28 | the configured port does not depend on the file's `url` entry |
| `Config.PingUrlIgnoresPort` | src/main/java/com/matt_richardson/gocd/websocket_notifier/PluginConfig.java:23-28 | the configured URL does not depend on the file's `port` entry |
| `Config.PluginConfig.constructor` | src/main/java/com/matt_richardson/gocd/websocket_notifier/PluginConfig.java:12-30 | a new configuration starts at the defaults; the setters apply the file's values; it ends with the configured port and URL |
| `Config.PluginConfig.GetPort` | src/main/java/com/matt_richardson/gocd/websocket_notifier/PluginConfig.java:32 | returns the port the configuration currently holds |
| `Config.PluginConfig.SetPort` | src/main/java/com/matt_richardson/gocd/websocket_notifier/PluginConfig.java:32-33 | afterwards `GetPort()` returns the value set and the URL is unchanged |
| `Config.PluginConfig.GetPingUrl` | src/main/java/com/matt_richardson/gocd/websocket_notifier/PluginConfig.java:35 | returns the receiver URL the configuration currently holds |
| `Config.PluginConfig.SetPingUrl` | src/main/java/com/matt_richardson/gocd/websocket_notifier/PluginConfig.java:35-36 | afterwards `GetPingUrl()` returns the value set and the port is unchanged |
| `Notifier.PluginIdentifier` | src/main/java/com/matt_richardson/gocd/websocket_notifier/GoNotificationPlugin.java:68-71 | the extension type is always `notification` and the supported versions are always `["1.0"]` |
| `Notifier.HandleNotificationsInterestedIn` | src/main/java/com/matt_richardson/gocd/websocket_notifier/GoNotificationPlugin.java:73-78 | code 200 and a body whose only key, `notifications`, holds `["stage-status"]` |
| `Notifier.Failure.Message` | src/main/java/com/matt_richardson/gocd/websocket_notifier/GoNotificationPlugin.java:95-116 | the message put in the list: a listener's exception gives its own (possibly null) message; a failure of the remote step, which is wrapped in a RuntimeException, always gives a non-null message, the cause's text for an unreachable receiver and the fixed rejection prefix for a rejected code |
| `Notifier.MessageJson` | src/main/java/com/matt_richardson/gocd/websocket_notifier/GoNotificationPlugin.java:95-99 | a null message becomes a JSON null in the list and any other message its string |
| `Notifier.IsSuccessStatus` | src/main/java/com/matt_richardson/gocd/websocket_notifier/GoNotificationPlugin.java:111-113 | the negated range test in the code accepts exactly the codes 200 to 299 |
| `Notifier.NotifyRemoteService` | src/main/java/com/matt_richardson/gocd/websocket_notifier/GoNotificationPlugin.java:102-118 | nothing is thrown exactly when the URL is set and the PUT gets a 2xx answer; an answer outside 2xx throws a rejection naming that code; an unreachable receiver or a null URL throws with the cause's text |
| `Notifier.StageFailure` | src/main/java/com/matt_richardson/gocd/websocket_notifier/GoNotificationPlugin.java:87-96 | no exception escapes exactly when a listener exists, its notify returns, and the forward to the receiver gets a 2xx answer; a null listener raises a NullPointerException; a throwing listener passes on its own exception; after a delivered broadcast the escaping exception is exactly the one the remote step threw |
| `Notifier.StageResponse` | src/main/java/com/matt_richardson/gocd/websocket_notifier/GoNotificationPlugin.java:83-99 | the body always has exactly the keys `status` and `messages`; code 200, status `success` and no messages exactly when nothing was thrown, otherwise code 500, status `failure` and exactly one message, that of the exception |
| `Notifier.RejectionMessageNamesCode` | src/main/java/com/matt_richardson/gocd/websocket_notifier/GoNotificationPlugin.java:113-116 | the message of a rejection is the fixed prefix followed by text that parses back to the rejected code |
| `Notifier.RejectionMessagesDistinct` | src/main/java/com/matt_richardson/gocd/websocket_notifier/GoNotificationPlugin.java:113-116 | rejections with different codes have different messages |
| `Notifier.ServiceUnavailableVerdict` | src/main/java/com/matt_richardson/gocd/websocket_notifier/GoNotificationPlugin.java:87-116 | after a successful broadcast, a 503 from the receiver gives code 500, status `failure` and the single message ending in `503` |
| `Notifier.RejectedStatusVerdict` | src/main/java/com/matt_richardson/gocd/websocket_notifier/GoNotificationPlugin.java:87-116 | after a successful broadcast, every status code outside 200 to 299 gives code 500, status `failure` and the single message made of the rejection prefix and that code |
| `Notifier.BroadcastFailureSkipsRemote` | src/main/java/com/matt_richardson/gocd/websocket_notifier/GoNotificationPlugin.java:89-90 | when the listener is null or throws, the verdict is a failure and stays the same whatever the receiver would have answered |
| `Notifier.InitStep` | src/main/java/com/matt_richardson/gocd/websocket_notifier/GoNotificationPlugin.java:33-53 | after one call the URL is set; a field that was set keeps its value; a null URL takes the configured URL; the listener is null afterwards exactly when it was null and the server failed to start; a new listener serves the configured port |
| `Notifier.AssignedOnce` | src/main/java/com/matt_richardson/gocd/websocket_notifier/GoNotificationPlugin.java:34-38 | over any sequence of calls, a field that is already set is never reassigned |
| `Notifier.InitialisedIsFixpoint` | src/main/java/com/matt_richardson/gocd/websocket_notifier/GoNotificationPlugin.java:33-54 | once both fields are set, further initialisation changes nothing |
| `Notifier.FirstCallFixesPingUrl` | src/main/java/com/matt_richardson/gocd/websocket_notifier/GoNotificationPlugin.java:34-37 | the URL is the one configured at the first call, whatever later calls read |
| `Notifier.ListenerNullIffNoStart` | src/main/java/com/matt_richardson/gocd/websocket_notifier/GoNotificationPlugin.java:38-52 | the listener stays null exactly when every server start has failed |
| `Notifier.ListenerFromFirstStart` | src/main/java/com/matt_richardson/gocd/websocket_notifier/GoNotificationPlugin.java:38-49 | the listener serves the port configured at the first call whose server start succeeded |
| `Notifier.GoNotificationPlugin.constructor` | src/main/java/com/matt_richardson/gocd/websocket_notifier/GoNotificationPlugin.java:29-30 | both static fields start null |
| `Notifier.GoNotificationPlugin.InitializeGoApplicationAccessor` | src/main/java/com/matt_richardson/gocd/websocket_notifier/GoNotificationPlugin.java:33-54 | the new state is `InitStep` of the old state and this call's file and server start |
| `Notifier.GoNotificationPlugin.Handle` | src/main/java/com/matt_richardson/gocd/websocket_notifier/GoNotificationPlugin.java:57-65 | `notifications-interested-in` gets the declaration response; `stage-status` gets the stage verdict for the current fields; the result is null exactly for every other name |
| `Notifier.GoNotificationPlugin.HandleStageNotification` | src/main/java/com/matt_richardson/gocd/websocket_notifier/GoNotificationPlugin.java:80-100 | the map the handler builds step by step is the verdict `StageResponse(StageFailure(...))`; a ghost result records that the remote forward is attempted exactly when the listener exists and its notify returned |

## Left out

- The WebSocket server and listener: accepting connections, the subscriber set, and broadcasting over sockets. Notifying the listener is an input outcome: it returns or it throws.
- The HTTP client: opening the connection, the cast to `HttpURLConnection`, the PUT and writing the body. The outcome of a PUT of a body to a URL is an input: a status code, or the cause of failure.
- Gson rendering: the response body is the map that would be rendered, not JSON text. Response headers (always null) are not modelled.
- Typesafe Config: locating `gocd-websocket-notifier.conf` under the user's home directory and parsing it. The file is taken as already parsed, with a well-typed optional value for each key.
- Config.ConfiguredPort: does not model the ConfigException that `getInt` raises for a value that is not an integer. Values are assumed well typed.
- Notifier.GoNotificationPlugin.InitializeGoApplicationAccessor: the source builds a `PluginConfig` twice and reads the file each time. The model gives both reads the same file, so a file that changes between the two reads is not modelled.
- Notifier.GoNotificationPlugin.InitializeGoApplicationAccessor: exceptions other than UnknownHostException raised while starting the server would propagate out of initialisation. They are not modelled.
- Notifier.GoNotificationPlugin.Handle: a null request name would raise a NullPointerException. Request names are modelled as non-null strings.
- The texts of a listener's exception, of the NullPointerException for a null listener, and of connection failures depend on the JDK and the transport. They are opaque inputs, and Java `null` messages are allowed. Only the rejection message is modelled exactly.
- Logging: it has no effect on behaviour.
- Errors (`java.lang.Error`), which the handler's `catch (Exception e)` does not catch.
- Concurrency: calls into the plugin are modelled one at a time. The static fields are not synchronised, and initialisation tests for null and then assigns, so two concurrent calls could both see null and both start a server. `AssignedOnce`, `InitialisedIsFixpoint`, `FirstCallFixesPingUrl` and `ListenerFromFirstStart` hold for sequential calls only.
- Null request bodies: `Request.body` is a non-null string. In the source, writing a null body throws a NullPointerException, which the remote step wraps and reports as a failure. The model does not express that case.
