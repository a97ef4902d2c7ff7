/**
 * The GoCD notification plugin: dispatch of the host's requests, the stage-status
 * handler that broadcasts an event to the WebSocket listener and then forwards it
 * to the remote receiver, and the once-only initialisation of the plugin's state.
 *
 * The transports are not modelled; an `Environment` gives their outcomes. The
 * response body is kept as the map that is rendered to JSON, not as JSON text.
 */
module Notifier {
  import opened Wrappers
  import opened JavaInt
  import opened Config

  const ExtensionType: string := "notification"
  const GoSupportedVersions: seq<string> := ["1.0"]
  const RequestNotificationsInterestedIn: string := "notifications-interested-in"
  const RequestStageStatus: string := "stage-status"
  const SuccessResponseCode: int := 200
  const InternalErrorResponseCode: int := 500

  /** What the exception thrown for a rejected status code says before the code. */
  const RejectionPrefix: string := "java.lang.Exception: Response code from remote notification server: "

  datatype GoPluginIdentifier = GoPluginIdentifier(extension: string, supportedVersions: seq<string>)

  /** A request from the host: its name and its body (the serialized event). */
  datatype Request = Request(name: string, body: string)

  /** The JSON values the plugin's responses are made of. */
  datatype Json = JString(s: string) | JNull | JArray(items: seq<Json>)

  /** A response to the host: a status code and the map rendered as its JSON body. */
  datatype ApiResponse = ApiResponse(code: int, body: map<string, Json>)

  /** The WebSocket listener, over a server started on `port`. */
  datatype Listener = Listener(port: Int32)

  /** How constructing and starting the WebSocket server ends. */
  datatype ServerStart = Started | UnknownHost

  /** How `pipelineListener.notify(request)` ends on a listener that exists. */
  datatype BroadcastOutcome = Delivered | Threw(message: Option<string>)

  /**
   * How the HTTP PUT ends: the status code the server answered with (`-1` when the
   * answer was not valid HTTP), or the `toString()` of the exception that stopped it.
   */
  datatype RemoteOutcome = Responded(code: Int32) | Unreachable(cause: string)

  /**
   * The outcomes of everything outside the plugin: `notify` for the listener,
   * `put(url, body)` for the HTTP PUT of `body` to `url`, the message of the
   * NullPointerException a null listener raises, and the `toString()` of the
   * MalformedURLException that `new URL(null)` raises.
   */
  datatype Environment = Environment(
    notify: (Listener, Request) -> BroadcastOutcome,
    put: (string, string) -> RemoteOutcome,
    nullPointerMessage: Option<string>,
    malformedUrlCause: string)

  /** The exception that escapes the `try` block of the stage-status handler. */
  datatype Failure =
    | NullListener(npeMessage: Option<string>)
    | ListenerThrew(message: Option<string>)
    | RemoteRejected(code: Int32)
    | RemoteUnreachable(cause: string)
  {
    /**
     * `getMessage()` of that exception. The remote step wraps what it catches in a
     * RuntimeException, whose message is the `toString()` of the wrapped exception.
     */
    function Message(): (m: Option<string>)
      ensures NullListener? ==> m == npeMessage
      ensures ListenerThrew? ==> m == message
      ensures RemoteRejected? || RemoteUnreachable? ==> m.Some?
      ensures RemoteRejected? ==> |m.value| > |RejectionPrefix| && m.value[..|RejectionPrefix|] == RejectionPrefix
      ensures RemoteUnreachable? ==> m == Some(cause)
    {
      match this
      case NullListener(m) => m
      case ListenerThrew(m) => m
      case RemoteRejected(c) => Some(RejectionPrefix + IntToDecimal(c as int))
      case RemoteUnreachable(cause) => Some(cause)
    }
  }

  /** A Java string that may be null, as Gson renders it. */
  function MessageJson(m: Option<string>): (j: Json)
    ensures j == JNull <==> m.None?
    ensures m.Some? ==> j == JString(m.value)
  {
    match m
    case None => JNull
    case Some(s) => JString(s)
  }

  function PluginIdentifier(): (id: GoPluginIdentifier)
    ensures id.extension == "notification"
    ensures id.supportedVersions == ["1.0"]
  {
    GoPluginIdentifier(ExtensionType, GoSupportedVersions)
  }

  function HandleNotificationsInterestedIn(): (r: ApiResponse)
    ensures r.code == 200
    ensures r.body.Keys == {"notifications"}
    ensures r.body["notifications"] == JArray([JString("stage-status")])
  {
    ApiResponse(SuccessResponseCode, map["notifications" := JArray([JString(RequestStageStatus)])])
  }

  /** The status check of the remote step, written as the source writes it. */
  function IsSuccessStatus(code: int): (ok: bool)
    ensures ok <==> 200 <= code <= 299
  {
    !(code > 299 || code < 200)
  }

  /** The exception, if any, that forwarding `body` to `pingUrl` throws. */
  function NotifyRemoteService(pingUrl: Option<string>, body: string, env: Environment): (thrown: Option<Failure>)
    ensures thrown.None? <==>
      pingUrl.Some? && env.put(pingUrl.value, body).Responded? && 200 <= env.put(pingUrl.value, body).code <= 299
    ensures pingUrl.None? ==> thrown == Some(RemoteUnreachable(env.malformedUrlCause))
    ensures pingUrl.Some? ==>
      match env.put(pingUrl.value, body)
      case Unreachable(cause) => thrown == Some(RemoteUnreachable(cause))
      case Responded(c) => thrown.Some? ==> thrown == Some(RemoteRejected(c))
  {
    match pingUrl
    case None => Some(RemoteUnreachable(env.malformedUrlCause))
    case Some(url) =>
      match env.put(url, body)
      case Unreachable(cause) => Some(RemoteUnreachable(cause))
      case Responded(code) =>
        if !IsSuccessStatus(code as int) then Some(RemoteRejected(code)) else None
  }

  /**
   * The exception, if any, that escapes the two steps of the stage-status handler:
   * the broadcast to the listener, then, only if that returned, the remote forward.
   */
  function StageFailure(listener: Option<Listener>, pingUrl: Option<string>, request: Request, env: Environment)
    : (thrown: Option<Failure>)
    ensures thrown.None? <==>
      listener.Some? && env.notify(listener.value, request).Delivered? &&
      pingUrl.Some? && env.put(pingUrl.value, request.body).Responded? &&
      200 <= env.put(pingUrl.value, request.body).code <= 299
    ensures listener.None? ==> thrown == Some(NullListener(env.nullPointerMessage))
    ensures listener.Some? && env.notify(listener.value, request).Threw? ==>
      thrown == Some(ListenerThrew(env.notify(listener.value, request).message))
    ensures listener.Some? && env.notify(listener.value, request).Delivered? ==>
      thrown == NotifyRemoteService(pingUrl, request.body, env)
  {
    match listener
    case None => Some(NullListener(env.nullPointerMessage))
    case Some(l) =>
      match env.notify(l, request)
      case Threw(m) => Some(ListenerThrew(m))
      case Delivered => NotifyRemoteService(pingUrl, request.body, env)
  }

  /** The response the stage-status handler renders once `thrown` is known. */
  function StageResponse(thrown: Option<Failure>): (r: ApiResponse)
    ensures r.body.Keys == {"status", "messages"}
    ensures r.code == 200 <==> thrown.None?
    ensures r.code == 200 || r.code == 500
    ensures r.body["status"] == JString("success") <==> r.code == 200
    ensures r.body["status"] == JString("success") || r.body["status"] == JString("failure")
    ensures r.body["messages"] == if thrown.None? then JArray([]) else JArray([MessageJson(thrown.value.Message())])
  {
    match thrown
    case None =>
      ApiResponse(SuccessResponseCode, map["status" := JString("success"), "messages" := JArray([])])
    case Some(f) =>
      ApiResponse(InternalErrorResponseCode,
                  map["status" := JString("failure"), "messages" := JArray([MessageJson(f.Message())])])
  }

  /** A rejected status code is named in the message, readable back as that code. */
  lemma RejectionMessageNamesCode(c: Int32)
    ensures RemoteRejected(c).Message().Some?
    ensures var m := RemoteRejected(c).Message().value;
      |m| > |RejectionPrefix| && m[..|RejectionPrefix|] == RejectionPrefix &&
      ParseDecimal(m[|RejectionPrefix|..]) == Some(c as int)
  {
    var m := RemoteRejected(c).Message().value;
    assert m[|RejectionPrefix|..] == IntToDecimal(c as int);
    IntDecimalRoundTrip(c as int);
  }

  /**
   * After a successful broadcast, any status code outside [200, 299] gives a failure
   * whose one message is the rejection naming that code.
   */
  lemma RejectedStatusVerdict(listener: Listener, url: string, request: Request, env: Environment, c: Int32)
    requires env.notify(listener, request).Delivered?
    requires env.put(url, request.body) == Responded(c)
    requires c < 200 || c > 299
    ensures var r := StageResponse(StageFailure(Some(listener), Some(url), request, env));
      r.code == 500 && r.body["status"] == JString("failure") &&
      r.body["messages"] == JArray([JString(RejectionPrefix + IntToDecimal(c as int))])
  {
  }

  /** Two rejections with different codes never produce the same message. */
  lemma RejectionMessagesDistinct(a: Int32, b: Int32)
    requires a != b
    ensures RemoteRejected(a).Message() != RemoteRejected(b).Message()
  {
    RejectionMessageNamesCode(a);
    RejectionMessageNamesCode(b);
  }

  /** A 503 from the receiver gives a failure whose one message ends in "503". */
  lemma ServiceUnavailableVerdict(listener: Listener, url: string, request: Request, env: Environment)
    requires env.notify(listener, request).Delivered?
    requires env.put(url, request.body) == Responded(503)
    ensures var r := StageResponse(StageFailure(Some(listener), Some(url), request, env));
      r.code == 500 && r.body["status"] == JString("failure") &&
      r.body["messages"] == JArray([JString(RejectionPrefix + "503")])
  {
    assert NatToDecimal(5) == "5";
    assert NatToDecimal(50) == "50";
    assert NatToDecimal(503) == "503";
  }

  /**
   * When the broadcast throws (or there is no listener), the remote receiver is
   * not consulted: the verdict is the same whatever it would have answered.
   */
  lemma BroadcastFailureSkipsRemote(
    listener: Option<Listener>, pingUrl: Option<string>, request: Request, env: Environment,
    put: (string, string) -> RemoteOutcome, malformedUrlCause: string)
    requires listener.None? || env.notify(listener.value, request).Threw?
    ensures StageFailure(listener, pingUrl, request, env) ==
            StageFailure(listener, pingUrl, request, env.(put := put, malformedUrlCause := malformedUrlCause))
    ensures StageFailure(listener, pingUrl, request, env).Some?
  {
  }

  /** The plugin's static fields. */
  datatype PluginState = PluginState(pingUrl: Option<string>, pipelineListener: Option<Listener>)

  /** Both fields null, as when the class is loaded. */
  const Unset: PluginState := PluginState(None, None)

  /** One call of `initializeGoApplicationAccessor`: the configuration file it sees and how the server start ends. */
  datatype InitCall = InitCall(file: Option<ConfigFile>, start: ServerStart)

  /** The state after one initialisation call: each field is assigned only while it is null. */
  function InitStep(s: PluginState, call: InitCall): (t: PluginState)
    ensures t.pingUrl.Some?
    ensures s.pingUrl.Some? ==> t.pingUrl == s.pingUrl
    ensures s.pingUrl.None? ==> t.pingUrl == Some(ConfiguredPingUrl(call.file))
    ensures s.pipelineListener.Some? ==> t.pipelineListener == s.pipelineListener
    ensures t.pipelineListener.None? <==> s.pipelineListener.None? && call.start.UnknownHost?
    ensures s.pipelineListener.None? && t.pipelineListener.Some? ==>
      t.pipelineListener == Some(Listener(ConfiguredPort(call.file)))
  {
    PluginState(
      if s.pingUrl.None? then Some(ConfiguredPingUrl(call.file)) else s.pingUrl,
      if s.pipelineListener.Some? then s.pipelineListener
      else if call.start.Started? then Some(Listener(ConfiguredPort(call.file)))
      else None)
  }

  /** The state after a series of initialisation calls, in order. */
  function InitAll(s: PluginState, calls: seq<InitCall>): PluginState
    decreases |calls|
  {
    if calls == [] then s else InitAll(InitStep(s, calls[0]), calls[1..])
  }

  /** Once assigned, neither field is assigned again, however often initialisation runs. */
  lemma {:induction false} AssignedOnce(s: PluginState, calls: seq<InitCall>)
    ensures s.pingUrl.Some? ==> InitAll(s, calls).pingUrl == s.pingUrl
    ensures s.pipelineListener.Some? ==> InitAll(s, calls).pipelineListener == s.pipelineListener
    decreases |calls|
  {
    if calls != [] {
      AssignedOnce(InitStep(s, calls[0]), calls[1..]);
    }
  }

  /** A fully initialised plugin is left as it is by further initialisation. */
  lemma {:induction false} InitialisedIsFixpoint(s: PluginState, calls: seq<InitCall>)
    requires s.pingUrl.Some? && s.pipelineListener.Some?
    ensures InitAll(s, calls) == s
  {
    AssignedOnce(s, calls);
  }

  /** The receiver URL is the one the first initialisation read. */
  lemma FirstCallFixesPingUrl(calls: seq<InitCall>)
    requires |calls| >= 1
    ensures InitAll(Unset, calls).pingUrl == Some(ConfiguredPingUrl(calls[0].file))
  {
    AssignedOnce(InitStep(Unset, calls[0]), calls[1..]);
  }

  /** The listener stays null exactly as long as every server start has failed. */
  lemma {:induction false} ListenerNullIffNoStart(s: PluginState, calls: seq<InitCall>)
    requires s.pipelineListener.None?
    ensures InitAll(s, calls).pipelineListener.None? <==>
            forall i :: 0 <= i < |calls| ==> calls[i].start.UnknownHost?
    decreases |calls|
  {
    if calls != [] {
      var t := InitStep(s, calls[0]);
      if t.pipelineListener.None? {
        ListenerNullIffNoStart(t, calls[1..]);
        assert forall i :: 1 <= i < |calls| ==> calls[i] == calls[1..][i - 1];
      } else {
        AssignedOnce(t, calls[1..]);
      }
    }
  }

  /** The listener serves the port configured at the first call whose server start succeeded. */
  lemma {:induction false} ListenerFromFirstStart(s: PluginState, calls: seq<InitCall>, k: nat)
    requires s.pipelineListener.None?
    requires k < |calls| && calls[k].start.Started?
    requires forall i :: 0 <= i < k ==> calls[i].start.UnknownHost?
    ensures InitAll(s, calls).pipelineListener == Some(Listener(ConfiguredPort(calls[k].file)))
    decreases k
  {
    var t := InitStep(s, calls[0]);
    if k == 0 {
      AssignedOnce(t, calls[1..]);
    } else {
      assert calls[0].start.UnknownHost?;
      assert forall i :: 0 <= i < k - 1 ==> calls[1..][i] == calls[i + 1];
      ListenerFromFirstStart(t, calls[1..], k - 1);
    }
  }

  /**
   * The plugin's state. In the source its two fields are static, so every plugin
   * instance shares them; one object of this class stands for that shared state.
   */
  class GoNotificationPlugin {
    var pingUrl: Option<string>
    var pipelineListener: Option<Listener>

    constructor ()
      ensures State() == Unset
    {
      pingUrl := None;
      pipelineListener := None;
    }

    function State(): PluginState
      reads this
    {
      PluginState(pingUrl, pipelineListener)
    }

    /**
     * `initializeGoApplicationAccessor`: reads the configuration (`file`, `None` when it
     * does not exist) for each field still null; `start` is how the server start ends.
     */
    method InitializeGoApplicationAccessor(file: Option<ConfigFile>, start: ServerStart)
      modifies this
      ensures State() == InitStep(old(State()), InitCall(file, start))
    {
      if pingUrl == None {
        var pluginConfig := new PluginConfig(file);
        pingUrl := Some(pluginConfig.GetPingUrl());
      }
      if pipelineListener == None {
        var pluginConfig := new PluginConfig(file);
        var port := pluginConfig.GetPort();
        match start
        case Started =>
          pipelineListener := Some(Listener(port));
        case UnknownHost =>
          // logged; the listener stays null
      }
    }

    /** `handle`: dispatch on the request name; `None` stands for the null the source returns. */
    method Handle(request: Request, env: Environment) returns (r: Option<ApiResponse>)
      ensures request.name == "notifications-interested-in" ==> r == Some(HandleNotificationsInterestedIn())
      ensures request.name == "stage-status" ==>
        r == Some(StageResponse(StageFailure(pipelineListener, pingUrl, request, env)))
      ensures r.None? <==> request.name != "notifications-interested-in" && request.name != "stage-status"
    {
      if request.name == RequestNotificationsInterestedIn {
        return Some(HandleNotificationsInterestedIn());
      }
      if request.name == RequestStageStatus {
        ghost var forwarded;
        var response;
        response, forwarded := HandleStageNotification(request, env);
        return Some(response);
      }
      return None;
    }

    /**
     * `handleStageNotification`: broadcast, then forward, and render one verdict;
     * `forwarded` tells whether the remote forward was attempted.
     */
    method HandleStageNotification(request: Request, env: Environment) returns (r: ApiResponse, ghost forwarded: bool)
      ensures r == StageResponse(StageFailure(pipelineListener, pingUrl, request, env))
      ensures forwarded <==> pipelineListener.Some? && env.notify(pipelineListener.value, request).Delivered?
    {
      var responseCode := SuccessResponseCode;
      var response: map<string, Json> := map[];
      var messages: seq<Json> := [];
      forwarded := false;

      response := response["status" := JString("success")];
      var thrown: Option<Failure>;
      match pipelineListener {
        case None =>
          thrown := Some(NullListener(env.nullPointerMessage));
        case Some(listener) =>
          match env.notify(listener, request) {
            case Threw(m) =>
              thrown := Some(ListenerThrew(m));
            case Delivered =>
              forwarded := true;
              thrown := NotifyRemoteService(pingUrl, request.body, env);
          }
      }
      if thrown.Some? {
        responseCode := InternalErrorResponseCode;
        response := response["status" := JString("failure")];
        messages := messages + [MessageJson(thrown.value.Message())];
      }

      response := response["messages" := JArray(messages)];
      r := ApiResponse(responseCode, response);
      assert thrown == StageFailure(pipelineListener, pingUrl, request, env);
      assert response == StageResponse(thrown).body by {
        assert response.Keys == StageResponse(thrown).body.Keys;
        assert response["status"] == StageResponse(thrown).body["status"];
        assert response["messages"] == StageResponse(thrown).body["messages"];
      }
    }
  }
}
