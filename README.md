# Wakatime heartbeat plugin, modelled in Dafny

This project models the deterministic core of the Wakatime plugin for the Vencord
Discord client (`index.tsx`). Every 120 s the plugin sends a "heartbeat" to the
WakaTime API, and the model covers four parts of that:

- **the API-key validator** used by the settings form (`isValid`);
- **the heartbeat request**: the JSON payload record and the header map.
  `Authorization` is `Basic <key>`, `Content-Type` is `application/json`,
  `Content-Length` is the UTF-8 octet count of the body, and `X-Machine-Name`
  is sent only when the machine name is truthy;
- **the outcome of one run** as a trace of effects: an optional debug line,
  exactly one POST, and a warning unless the status is 200;
- **the `start`/`stop` hooks** over the plugin's `updateInterval` field and the
  host's set of registered interval timers.

The settings values are modelled as JavaScript string values (`Js.JsString`:
a string, `null` or `undefined`). This keeps the exact meaning of the operators
the code uses: optional chaining in `isValid`, `??` for the project name,
truthiness for the machine name, and template interpolation for the key.
UTF-8 follows section 3 of RFC 3629. The model defines the per-scalar octet
count, an encoder (what `TextEncoder` produces for a string of scalar values)
and a strict decoder. It proves that decoding inverts encoding.

Modules: `Wrappers` (Option), `Js`, `Utf8`, `Decimal` (number rendering and
reading), `Settings`, `Heartbeat` (payload, headers, and how a reader of the header object
takes the values back), `Emitter` (one `sendHeartbeat` run) and `Scheduler`.

Three behaviours of the code are worth stating plainly:

- Success is exactly status 200, not any 2xx status, so 201 and 204 also warn.
- There is no credential guard. An empty key is still posted, with the header
  `Basic `, and no notification is shown (`showNotification` is imported but never
  called).
- Calling `start` twice without a `stop` leaks the first timer.
  `stop` cancels only the most recent timer, and the leaked one is never
  cancelled (`Scheduler.OrphanNeverCancelled`).

## Model

| member | source | states |
|---|---|---|
| `Js.Coalesce` | index.tsx:49 | `??` keeps any string, including `""`, and falls back only on `null`/`undefined` |
| `Js.Interpolate` | index.tsx:54 | a template literal renders a string as itself, `undefined` as `"undefined"` and `null` as `"null"` |
| `Js.Truthy` | index.tsx:57 | a string value is truthy iff it is not `undefined`, `null` or `""`, the falsy string values that skip the conditional spread |
| `Js.StartsWith` | index.tsx:17 | the character-by-character `startsWith` is true exactly when the prefix is a prefix of the string |
| `Settings.IsValid` | index.tsx:16-19 | accepted iff the value is a string starting with `waka_`; otherwise, including for `null`/`undefined`, it returns the message `Invalid Key: Please obtain your API Key from Wakatime` |
| `Settings.DefaultKeyRejected` | index.tsx:15-17 | the declared default key `""` fails its own validator |
| `Heartbeat.BuildPayload` | index.tsx:45-51 | `entity`, `type` and `plugin` are the fixed constants, `time` is the clock reading, and `project` is the configured name whenever it is a string (including `""`) and `"Discord"` only for `null`/`undefined` |
| `Heartbeat.BuildHeaders` | index.tsx:53-58 | the keys are exactly `Authorization`, `Content-Type`, `Content-Length`, plus `X-Machine-Name` iff the machine name is truthy; `Content-Type` is `application/json`; `Authorization` is `"Basic "` followed by the key; `Content-Length` is the decimal rendering of the UTF-8 octet count of the body |
| `Emitter.DefaultSettingsHeartbeat` | index.tsx:11-36 | with the declared defaults (key `""`, debug off, machine name `Vencord User`, project `Discord`) the run posts first, with a header object holding `Authorization: Basic `, `X-Machine-Name: Vencord User` and project `Discord` |
| `Heartbeat.CredentialRoundTrip` | index.tsx:54 | a reader of the header object takes from the `Basic` header exactly the configured key, with no encoding applied; an empty key gives the header `Basic ` |
| `Heartbeat.AcceptedKeyHeader` | index.tsx:54 | a key that passes `isValid` gives a header starting with `Basic waka_`, and the credential read back from it passes `isValid` again |
| `Heartbeat.ContentLengthIsUtf8Length` | index.tsx:56 | a reader of the header object parsing `Content-Length` reads the length of the UTF-8 encoding of the body; that length lies between the number of scalars and four times it, and equals the number of scalars iff all of them are below U+0080 |
| `Heartbeat.MachineNameHeader` | index.tsx:57 | a reader of the header object finds `X-Machine-Name` iff the machine name is truthy, and then finds it unchanged |
| `Utf8.ByteCount` | index.tsx:56 | each scalar takes one to four octets (the table in section 3 of RFC 3629) |
| `Utf8.EncodeScalar` | index.tsx:56 | the encoding of one scalar has `ByteCount` octets, all but the first continuation octets |
| `Utf8.EncodedLength` | index.tsx:56 | the octet count of a body lies between its scalar count and four times it |
| `Utf8.Encode` | index.tsx:56 | the encoder (`TextEncoder.encode`) produces exactly `EncodedLength` octets |
| `Utf8.DecodeEncodeScalar` | index.tsx:56 | the first octet of one scalar's encoding announces its length, and the octets decode back to the scalar |
| `Utf8.DecodeEncode` | index.tsx:56 | decoding the encoded body gives back the body, so the counted octets are one well-formed encoding per scalar |
| `Utf8.EncodedLengthIsCountIffAscii` | index.tsx:56 | the octet count equals the scalar count iff every scalar is ASCII |
| `Decimal.ToDecimal` | index.tsx:56 | `toString` of a length gives a non-empty string of digits, with a leading `0` only for zero |
| `Decimal.ParseDecimal` | index.tsx:56 | reader for the rendering at index.tsx:56: it accepts exactly the non-empty digit strings |
| `Decimal.ValueToDecimal` | index.tsx:56 | the rendered digits denote the number rendered |
| `Decimal.ParseToDecimal` | index.tsx:56 | reading a rendering gives back the number |
| `Decimal.ToDecimalInjective` | index.tsx:56 | distinct lengths have distinct renderings |
| `Decimal.SpanDigits` | index.tsx:68 | reader for the rendering at index.tsx:68: the digit span splits a string into its longest prefix of digits and the rest, which starts with a non-digit |
| `Decimal.SpanDigitsAppend` | index.tsx:68 | reader for the rendering at index.tsx:68: a rendered status followed by `": "` is split exactly after the status |
| `Emitter.WarningMessage` | index.tsx:68 | the warning text starts with `WakaTime API Error `, continues with the status in decimal, and ends with the whole response text |
| `Emitter.ParseWarningMessage` | index.tsx:68 | the warning text `WakaTime API Error <status>: <body>` gives back both the status and the whole response body |
| `Emitter.WarningFor` | index.tsx:68 | a warning is produced iff the status is not 200, and it contains the status and the response body |
| `Emitter.HeartbeatRequest` | index.tsx:44-64 | the request goes to the heartbeat URL with `POST`, carries the stringified payload as body, and a reader of its header object takes back the configured key, the UTF-8 length of that body, and the machine name iff it is truthy |
| `Emitter.Effects` | index.tsx:42-68 | around one request and its response: the debug line first iff `debug` is set, then the POST, then a warning iff the status is not 200; never a notification |
| `Emitter.Emit` | index.tsx:38-69 | one run writes the debug line first iff `debug` is set, then exactly one POST of the request built from the settings snapshot, then a warning iff the status is not 200; it never notifies |
| `Emitter.SendHeartbeat` | index.tsx:38-69 | the straight-line method has exactly the effects `Emit` specifies |
| `Emitter.ExactlyOnePost` | index.tsx:60-64 | every run (`Effects` of any request and response) posts exactly one request |
| `Emitter.DebugLineIffDebug` | index.tsx:42 | in every run a debug line is written iff `debug` is set, and it comes first |
| `Emitter.WarningIffNot200` | index.tsx:68 | in every run a warning is written iff the status differs from 200, and every warning gives back that status and response body |
| `Emitter.EmptyKeyStillPosted` | index.tsx:54 | with an empty key the request is still posted, its header object holding `Authorization: Basic `, and nobody is notified |
| `Scheduler.StartStep` | index.tsx:81 | `start` records a fresh timer id that is registered; the registered set grows by that id alone |
| `Scheduler.StopStep` | index.tsx:84 | `stop` cancels the recorded id and nothing else, leaves the field unchanged, and changes nothing when no id is recorded |
| `Scheduler.StopIdempotent` | index.tsx:84 | `stop` twice is `stop` once |
| `Scheduler.DoubleStartLeaks` | index.tsx:80-85 | after `start`, `start`, `stop` the first timer is still registered |
| `Scheduler.OrphanNeverCancelled` | index.tsx:80-85 | a registered timer that the field no longer records stays registered after any sequence of hooks |
| `Scheduler.DisciplinedSingleTimer` | index.tsx:80-85 | if the caller never starts while a timer runs, at most one timer is registered and it is the recorded one |
| `Scheduler.TimerTable.SetInterval` | index.tsx:81 | `setInterval` registers and returns an id that was not in use |
| `Scheduler.TimerTable.ClearInterval` | index.tsx:84 | `clearInterval` removes the given id, and does nothing for `undefined` |
| `Scheduler.WakatimePlugin.Start` | index.tsx:80-82 | overwrites `updateInterval` with the fresh id and registers it, as `StartStep` |
| `Scheduler.WakatimePlugin.Stop` | index.tsx:83-85 | cancels the recorded id, leaving the field as it was, as `StopStep` |
| `Scheduler.StartTwiceThenStop` | index.tsx:80-85 | a `stop` before any `start` cancels nothing; two `start`s then a `stop` leave exactly the first timer registered |

## Left out

- The `fetch` call and `await res.text()` are network I/O. `Emitter.Emit` takes the
  round trip as a function from request to response (status and text), one that
  always answers. Any rejection of `fetch` or `res.text()` is not modelled. That
  covers a transport failure, and also the TypeError `fetch` raises for a header
  value outside ISO-8859-1 (a `machineName` or `apiKey` with a character above
  U+00FF). In those runs the source writes no warning, and the rejected promise
  goes unhandled out of the interval callback. So "a warning iff the status is
  not 200" holds only for runs in which `fetch` resolves.
- `Date.now()` and `time / 1000` are a wall clock and a floating-point division.
  The payload keeps the millisecond reading (`Heartbeat.Instant`) in place of the
  float.
- `JSON.stringify` is a foreign library call. `Emitter.Emit` takes it as a function
  from the payload to the body's sequence of Unicode scalar values. The body is
  therefore a sequence of scalars, not UTF-16 code units, and lone-surrogate
  replacement by `TextEncoder` does not arise.
- The real timer semantics of `setInterval`/`clearInterval` are left out:
  periods, firing, and ticks that overlap while a send is in flight. Only the
  set of registered ids is modelled. The host picks new ids from a counter
  (`TimerTable.nextId`); a browser only promises that they are fresh. The
  period `Scheduler.HeartbeatIntervalMs` (120000) is passed but not recorded.
- `Emitter.Post` records the header object given to `fetch`, not what reaches the
  server. `fetch` normalizes every header value by trimming leading and trailing
  spaces and tabs, so an empty key goes out as `Basic` and a machine name of only
  spaces goes out empty. It also drops `Content-Length`, a forbidden request
  header, and sends its own count instead (the same number for a string body).
  The readers `Heartbeat.Credential`, `DeclaredLength` and `MachineNameOf` read
  that header object.
- `console.log`/`console.warn` are recorded only as effects carrying their text.
- `definePlugin`, `definePluginSettings`, the `settings.store` singleton and
  `showNotification` belong to the host framework. The settings are passed in as a
  `Settings.Store` record. The `debug` option is taken as a boolean.
- HTTP header order and header-name case folding are not modelled; the headers
  are a map from string to string.
- `Decimal.ToDecimal` renders any natural number. JavaScript's `toString` writes
  integers of 10^21 and above in exponent form; a body length never gets near that.
