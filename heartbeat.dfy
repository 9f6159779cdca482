/** The request that `sendHeartbeat` builds: the JSON payload record and the
    header map, together with how a reader of that header object takes the
    values back. */
module Heartbeat {
  import opened Wrappers
  import opened Js
  import opened Utf8
  import opened Decimal
  import opened Settings

  /** The millisecond clock reading `Date.now()` gives; the payload's `time`
      is this reading divided by 1000 as a float, which is kept abstract. */
  datatype Instant = Instant(millis: int)

  const Entity := "Discord"
  const ActivityType := "app"
  const DefaultProject := "Discord"
  const PluginId := "vencord/version discord-wakatime/v0.0.1"

  /** The object handed to `JSON.stringify` (the field `type` is `activityType` here). */
  datatype Payload = Payload(time: Instant, entity: string, activityType: string, project: string, plugin: string)

  /** The heartbeat payload: fixed entity, type and plugin, and the project
      name with a nullish fallback, so an empty name stays empty. */
  function BuildPayload(now: Instant, projectName: JsString): (p: Payload)
    ensures p.time == now
    ensures p.entity == "Discord" && p.activityType == "app"
    ensures p.plugin == "vencord/version discord-wakatime/v0.0.1"
    ensures projectName.Str? ==> p.project == projectName.s
    ensures !projectName.Str? ==> p.project == "Discord"
  {
    Payload(now, Entity, ActivityType, Coalesce(projectName, DefaultProject), PluginId)
  }

  type Headers = map<string, string>

  const AuthorizationKey := "Authorization"
  const ContentTypeKey := "Content-Type"
  const ContentLengthKey := "Content-Length"
  const MachineNameKey := "X-Machine-Name"
  const JsonMediaType := "application/json"
  const BasicScheme := "Basic "

  /** The header object literal, including its conditional spread. */
  function BuildHeaders(apiKey: JsString, machineName: JsString, body: seq<Scalar>): (h: Headers)
    ensures h.Keys == {"Authorization", "Content-Type", "Content-Length"}
                      + (if Truthy(machineName) then {"X-Machine-Name"} else {})
    ensures h["Content-Type"] == "application/json"
    ensures h["Authorization"] == "Basic " + Interpolate(apiKey)
    ensures h["Content-Length"] == ToDecimal(EncodedLength(body))
    ensures Truthy(machineName) ==> h["X-Machine-Name"] == machineName.s
  {
    var fixed := map[AuthorizationKey := BasicScheme + Interpolate(apiKey),
                     ContentTypeKey := JsonMediaType,
                     ContentLengthKey := ToDecimal(|Encode(body)|)];
    fixed + if Truthy(machineName) then map[MachineNameKey := machineName.s] else map[]
  }

  /** The credential a reader of the header object takes from a `Basic` authorization header. */
  function Credential(h: Headers): Option<string>
  {
    if AuthorizationKey in h && StartsWith(h[AuthorizationKey], BasicScheme)
    then Some(h[AuthorizationKey][|BasicScheme|..])
    else None
  }

  /** The body length a reader of the header object takes from `Content-Length`. */
  function DeclaredLength(h: Headers): Option<nat>
  {
    if ContentLengthKey in h then ParseDecimal(h[ContentLengthKey]) else None
  }

  /** The machine name a reader of the header object takes, if the header is there. */
  function MachineNameOf(h: Headers): Option<string>
  {
    if MachineNameKey in h then Some(h[MachineNameKey]) else None
  }

  /** The key travels verbatim after `Basic `: no encoding, no check, and an
      empty key gives the header `Basic ` and the credential "". */
  lemma CredentialRoundTrip(apiKey: string, machineName: JsString, body: seq<Scalar>)
    ensures Credential(BuildHeaders(Str(apiKey), machineName, body)) == Some(apiKey)
    ensures apiKey == "" ==> BuildHeaders(Str(apiKey), machineName, body)["Authorization"] == "Basic "
  {
  }

  /** A key the validator accepts yields an authorization header starting with
      `Basic waka_`, and the credential read back passes the validator again. */
  lemma AcceptedKeyHeader(apiKey: JsString, machineName: JsString, body: seq<Scalar>)
    requires IsValid(apiKey) == Accepted
    ensures "Basic waka_" <= BuildHeaders(apiKey, machineName, body)["Authorization"]
    ensures Credential(BuildHeaders(apiKey, machineName, body)) == Some(apiKey.s)
    ensures IsValid(Str(Credential(BuildHeaders(apiKey, machineName, body)).value)) == Accepted
  {
  }

  /** `Content-Length` announces exactly the number of UTF-8 octets of the
      body: at least one per scalar value, at most four, and one per scalar
      exactly when the body is all ASCII. */
  lemma ContentLengthIsUtf8Length(apiKey: JsString, machineName: JsString, body: seq<Scalar>)
    ensures DeclaredLength(BuildHeaders(apiKey, machineName, body)) == Some(|Encode(body)|)
    ensures |body| <= |Encode(body)| <= 4 * |body|
    ensures |Encode(body)| == |body| <==> AllAscii(body)
  {
    ParseToDecimal(EncodedLength(body));
    EncodedLengthIsCountIffAscii(body);
  }

  /** `X-Machine-Name` is sent exactly when the machine name is truthy, and
      then carries it unchanged. */
  lemma MachineNameHeader(apiKey: JsString, machineName: JsString, body: seq<Scalar>)
    ensures MachineNameOf(BuildHeaders(apiKey, machineName, body))
            == if Truthy(machineName) then Some(machineName.s) else None
  {
  }
}
