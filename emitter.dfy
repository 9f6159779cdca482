/** One run of `sendHeartbeat`: read the settings snapshot, maybe write a
    debug line, post the heartbeat, read the response, maybe warn. The run is
    recorded as the sequence of effects it has on the outside world. */
module Emitter {
  import opened Wrappers
  import opened Js
  import opened Utf8
  import opened Decimal
  import opened Settings
  import opened Heartbeat

  const HeartbeatUrl := "https://api.wakatime.com/api/v1/users/current/heartbeats"
  const DebugMessage := "Sending heartbeat to WakaTime API."
  const WarningPrefix := "WakaTime API Error "

  datatype Request = Request(url: string, verb: string, headers: Headers, body: seq<Scalar>)

  /** What `fetch` resolves to, as far as the plugin looks at it. */
  datatype Response = Response(status: nat, text: string)

  /** An observable effect: a `console.log` line, the POST, a `console.warn`
      line, or a user-facing notification (a host capability the plugin
      imports but never calls). */
  datatype Effect =
    | DebugLine(text: string)
    | Post(request: Request)
    | WarningLine(text: string)
    | Notification(title: string, body: string)

  /** The warning text `WakaTime API Error <status>: <body>`: the fixed
      prefix, then the status in decimal, then the whole response text. */
  function WarningMessage(status: nat, data: string): (w: string)
    ensures WarningPrefix <= w
    ensures |w| == |WarningPrefix| + |ToDecimal(status)| + 2 + |data|
    ensures w[|WarningPrefix|..|WarningPrefix| + |ToDecimal(status)|] == ToDecimal(status)
    ensures w[|WarningPrefix| + |ToDecimal(status)|..|WarningPrefix| + |ToDecimal(status)| + 2] == ": "
    ensures w[|w| - |data|..] == data
  {
    WarningPrefix + ToDecimal(status) + ": " + data
  }

  /** Takes a warning line apart into the status and the response text. */
  function ParseWarning(w: string): Option<(nat, string)>
  {
    if !StartsWith(w, WarningPrefix) then None
    else
      var (digits, rest) := SpanDigits(w[|WarningPrefix|..]);
      if digits != [] && StartsWith(rest, ": ") then Some((Value(digits), rest[2..]))
      else None
  }

  /** The warning carries the status and the whole response text, both
      recoverable from it. */
  lemma ParseWarningMessage(status: nat, data: string)
    ensures ParseWarning(WarningMessage(status, data)) == Some((status, data))
  {
    var w := WarningMessage(status, data);
    var digits := ToDecimal(status);
    assert w[|WarningPrefix|..] == digits + (": " + data);
    SpanDigitsAppend(digits, ": " + data);
    ValueToDecimal(status);
  }

  /** The outcome check: only status 200 is success, so 201 or 204 warn too;
      any other status gives a warning holding status and response text. */
  function WarningFor(res: Response): (w: Option<string>)
    ensures w.Some? <==> res.status != 200
    ensures w.Some? ==> w.value == WarningMessage(res.status, res.text)
    ensures w.Some? ==> ParseWarning(w.value) == Some((res.status, res.text))
  {
    if res.status != 200 then
      ParseWarningMessage(res.status, res.text);
      Some(WarningMessage(res.status, res.text))
    else None
  }

  /** The request built from one settings snapshot and clock reading;
      `stringify` stands for `JSON.stringify`. */
  function HeartbeatRequest(store: Store, now: Instant, stringify: Payload -> seq<Scalar>): (req: Request)
    ensures req.url == "https://api.wakatime.com/api/v1/users/current/heartbeats"
    ensures req.verb == "POST"
    ensures req.body == stringify(BuildPayload(now, store.projectName))
    ensures req.headers == BuildHeaders(store.apiKey, store.machineName, req.body)
    ensures store.apiKey.Str? ==> Credential(req.headers) == Some(store.apiKey.s)
    ensures DeclaredLength(req.headers) == Some(|Encode(req.body)|)
    ensures MachineNameOf(req.headers) == if Truthy(store.machineName) then Some(store.machineName.s) else None
  {
    var body := stringify(BuildPayload(now, store.projectName));
    var headers := BuildHeaders(store.apiKey, store.machineName, body);
    ContentLengthIsUtf8Length(store.apiKey, store.machineName, body);
    Request(HeartbeatUrl, "POST", headers, body)
  }

  /** The effects around one posted request, given the response it got. */
  function Effects(debug: bool, req: Request, res: Response): (trace: seq<Effect>)
    ensures var k := if debug then 1 else 0;
            && |trace| == k + 1 + (if res.status != 200 then 1 else 0)
            && (debug ==> trace[0] == DebugLine(DebugMessage))
            && trace[k] == Post(req)
            && (res.status != 200 ==> trace[k + 1] == WarningLine(WarningMessage(res.status, res.text)))
    ensures forall i :: 0 <= i < |trace| ==> !trace[i].Notification?
  {
    match WarningFor(res)
    case Some(w) =>
      if debug then [DebugLine(DebugMessage), Post(req), WarningLine(w)] else [Post(req), WarningLine(w)]
    case None =>
      if debug then [DebugLine(DebugMessage), Post(req)] else [Post(req)]
  }

  /** The effects of one heartbeat; `fetch` stands for the network round trip. */
  function Emit(store: Store, now: Instant, stringify: Payload -> seq<Scalar>,
                fetch: Request -> Response): (trace: seq<Effect>)
    ensures var k := if store.debug then 1 else 0;
            var req := HeartbeatRequest(store, now, stringify);
            && |trace| == k + 1 + (if fetch(req).status != 200 then 1 else 0)
            && (store.debug ==> trace[0] == DebugLine(DebugMessage))
            && trace[k] == Post(req)
            && (fetch(req).status != 200 ==>
                  trace[k + 1] == WarningLine(WarningMessage(fetch(req).status, fetch(req).text)))
    ensures forall i :: 0 <= i < |trace| ==> !trace[i].Notification?
  {
    var req := HeartbeatRequest(store, now, stringify);
    Effects(store.debug, req, fetch(req))
  }

  /** `sendHeartbeat` as the straight-line code it is. */
  method SendHeartbeat(store: Store, now: Instant, stringify: Payload -> seq<Scalar>,
                       fetch: Request -> Response) returns (trace: seq<Effect>)
    ensures trace == Emit(store, now, stringify, fetch)
  {
    trace := [];
    if store.debug {
      trace := trace + [DebugLine(DebugMessage)];
    }
    var body := stringify(BuildPayload(now, store.projectName));
    var headers := BuildHeaders(store.apiKey, store.machineName, body);
    var req := Request(HeartbeatUrl, "POST", headers, body);
    trace := trace + [Post(req)];
    var res := fetch(req);
    if res.status != 200 {
      trace := trace + [WarningLine(WarningMessage(res.status, res.text))];
    }
  }

  /** Each run posts exactly one request, whatever the settings hold and
      whatever the server answers (`Emit` is `Effects` of the built request
      and the response it got). */
  lemma {:induction false} ExactlyOnePost(debug: bool, req: Request, res: Response)
    ensures var trace := Effects(debug, req, res);
            exists k :: 0 <= k < |trace| && trace[k].Post?
                        && forall i :: 0 <= i < |trace| && i != k ==> !trace[i].Post?
  {
    var trace := Effects(debug, req, res);
    var k := if debug then 1 else 0;
    assert trace[k].Post?;
  }

  /** A debug line is written exactly when `debug` is set, and before the post. */
  lemma DebugLineIffDebug(debug: bool, req: Request, res: Response)
    ensures var trace := Effects(debug, req, res);
            (exists i :: 0 <= i < |trace| && trace[i].DebugLine?) <==> debug
    ensures debug ==> Effects(debug, req, res)[0] == DebugLine(DebugMessage)
  {
  }

  /** A warning is written exactly when the status is not 200, and it tells
      the status and the response text. */
  lemma WarningIffNot200(debug: bool, req: Request, res: Response)
    ensures var trace := Effects(debug, req, res);
            && ((exists i :: 0 <= i < |trace| && trace[i].WarningLine?) <==> res.status != 200)
            && forall i :: 0 <= i < |trace| && trace[i].WarningLine? ==>
                 ParseWarning(trace[i].text) == Some((res.status, res.text))
  {
    ParseWarningMessage(res.status, res.text);
  }

  /** There is no credential guard: an empty key is still posted, with the
      header `Basic `, and nobody is notified. */
  lemma EmptyKeyStillPosted(store: Store, now: Instant, stringify: Payload -> seq<Scalar>,
                            fetch: Request -> Response)
    requires store.apiKey == Str("")
    ensures var trace := Emit(store, now, stringify, fetch);
            && (exists i :: 0 <= i < |trace| && trace[i].Post?
                            && trace[i].request.headers["Authorization"] == "Basic ")
            && forall i :: 0 <= i < |trace| ==> !trace[i].Notification?
  {
    var trace := Emit(store, now, stringify, fetch);
    var k := if store.debug then 1 else 0;
    assert trace[k].Post?;
  }

  /** With the declared defaults a heartbeat is still sent: no debug line comes
      first, the key is empty so the header is `Basic `, the machine name
      `Vencord User` is sent, and the project is `Discord`. */
  lemma DefaultSettingsHeartbeat(now: Instant, stringify: Payload -> seq<Scalar>,
                                 fetch: Request -> Response)
    ensures var trace := Emit(Defaults, now, stringify, fetch);
            var req := HeartbeatRequest(Defaults, now, stringify);
            && trace[0] == Post(req)
            && req.headers["Authorization"] == "Basic "
            && req.headers["X-Machine-Name"] == "Vencord User"
            && req.body == stringify(Payload(now, "Discord", "app", "Discord", PluginId))
  {
  }
}
