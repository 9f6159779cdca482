/** The plugin's settings: the API key validator the settings form runs, and
    the snapshot of the store that each heartbeat reads. */
module Settings {
  import opened Js

  const KeyPrefix := "waka_"
  const InvalidKeyMessage := "Invalid Key: Please obtain your API Key from Wakatime"

  /** What `isValid` returns: `true`, or the message the form shows. */
  datatype KeyVerdict = Accepted | Rejected(message: string)

  /** The `apiKey` validator: a key is accepted exactly when it is a string
      that starts with `waka_`; `null` and `undefined` are rejected too. */
  function IsValid(value: JsString): (r: KeyVerdict)
    ensures r == Accepted <==> value.Str? && KeyPrefix <= value.s
    ensures r != Accepted ==> r == Rejected(InvalidKeyMessage)
  {
    if !(value.Str? && StartsWith(value.s, KeyPrefix)) then Rejected(InvalidKeyMessage)
    else Accepted
  }

  /** A snapshot of the settings store, read once per heartbeat. */
  datatype Store = Store(apiKey: JsString, debug: bool, machineName: JsString, projectName: JsString)

  /** The defaults the settings declare. */
  const Defaults := Store(Str(""), false, Str("Vencord User"), Str("Discord"))

  /** The declared default key does not pass the key's own validator. */
  lemma DefaultKeyRejected()
    ensures IsValid(Defaults.apiKey) == Rejected(InvalidKeyMessage)
  {
  }
}
