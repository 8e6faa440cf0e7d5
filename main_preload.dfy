/** The bridge src/main/preload.js gives the renderer: `openExternal`, `onLog`
    and `saveConfig`, each of which checks its arguments before it talks to
    the main process. What the main process answers is an input. */
module MainPreload {
  import opened Values
  import opened Strings
  import ConfigStore
  import Relay

  const InvalidUrlMessage: string := "URL inválida"
  const InvalidConfigMessage: string := "La configuración proporcionada no es válida"
  const MissingFieldsMessage: string := "Usuario e indicativo son obligatorios"
  const NoReplyMessage: string := "No se recibió respuesta del proceso principal"
  const UnknownErrorMessage: string := "Error desconocido al guardar la configuración"

  /** The passwords that mean "keep the stored one": the mask the store shows,
      a bullet mask, and the empty string. */
  const KeepPassword: set<string> := {ConfigStore.Mask, "••••••••", ""}

  /** A call of the bridge: an IPC `invoke` on a channel, or a rejection before any IPC. */
  datatype Invocation = Invoke(channel: string, argument: Value) | Reject(message: string)

  /** `openExternal(url)`. */
  function OpenExternal(url: Value): (r: Invocation)
    ensures r.Invoke? <==> url.Str? && StartsWith(url.s, "http")
    ensures r.Invoke? ==> r.channel == "open-external" && r.argument == url
    ensures r.Reject? ==> r.message == InvalidUrlMessage
  {
    if url.Str? && StartsWith(url.s, "http") then Invoke("open-external", url)
    else Reject(InvalidUrlMessage)
  }

  /** Every URL the main process opens got past the bridge, but the bridge's
      check is looser: "httpx:" passes it and the main process then refuses it. */
  lemma {:induction false} BridgeLooserThanMain(url: Value)
    ensures Relay.OpensExternal(url) ==> OpenExternal(url).Invoke?
    ensures OpenExternal(Str("httpx://lda.ar")).Invoke? && !Relay.OpensExternal(Str("httpx://lda.ar"))
  {
    if Relay.OpensExternal(url) {
      var s := url.s;
      if StartsWith(s, "http://") {
        assert s[..4] == s[..7][..4];
      } else {
        assert s[..4] == s[..8][..4];
      }
    }
    var bad := "httpx://lda.ar";
    assert bad[..4] == "http";
    assert bad[..7] != "http://" by { assert bad[4] == 'x'; }
    assert bad[..8] != "https://" by { assert bad[4] == 'x'; }
  }

  /** The wrapper `onLog` puts around its callback: a message reaches the
      callback unless it is `undefined`, `null` or the empty string. */
  function ForwardLog(message: Option<Value>): (r: Option<Value>)
    ensures r.None? <==> message in {None, Some(Null), Some(Str(""))}
    ensures r.Some? ==> r == message
  {
    match message
    case None => None
    case Some(Null) => None
    case Some(Str("")) => None
    case Some(v) => Some(v)
  }

  /** The filter compares by identity, not truthiness: `0` and `false` are delivered. */
  lemma FalsyMessagesDelivered()
    ensures ForwardLog(Some(Num(0))) == Some(Num(0))
    ensures ForwardLog(Some(Bool(false))) == Some(Bool(false))
  {
  }

  /** The handlers registered on the 'log' channel. */
  class LogChannel {
    var handlers: seq<nat>

    constructor ()
      ensures handlers == []
    {
      handlers := [];
    }

    /** `onLog(callback)`: registers a function and nothing else. */
    method OnLog(callback: Callback) returns (registered: bool)
      modifies this
      ensures registered <==> callback.Function?
      ensures handlers == old(handlers) + (if registered then [callback.id] else [])
    {
      registered := callback.Function?;
      if registered {
        handlers := handlers + [callback.id];
      }
    }
  }

  /** What a `saveConfig(config)` call comes to: the table sent on
      'save-config' (if the checks let it through) and how the call ends. */
  datatype SaveCall = SaveCall(sent: Option<map<string, Value>>, outcome: SaveOutcome)

  /** The promise `saveConfig` returns: resolved with the main process's
      reply, or rejected with an error message. */
  datatype SaveOutcome = Resolved(reply: SaveReply) | Thrown(message: string)

  /** The password the bridge leaves out of what it sends. */
  predicate KeepsPassword(c: map<string, Value>) {
    "password" in c && c["password"].Str? && c["password"].s in KeepPassword
  }

  /** The table the bridge sends for `c`: `c` without a kept password. */
  function Sanitized(c: map<string, Value>): (r: map<string, Value>)
    ensures forall k :: k in r <==> k in c && (k != "password" || !KeepsPassword(c))
    ensures forall k :: k in r ==> r[k] == c[k]
  {
    if KeepsPassword(c) then c - {"password"} else c
  }

  /** How the bridge turns the main process's reply into its outcome. */
  function Answer(reply: Option<SaveReply>): (r: SaveOutcome)
    ensures r.Resolved? <==> reply.Some? && reply.value.Saved?
    ensures r.Resolved? ==> r.reply == reply.value
    ensures reply.None? ==> r == Thrown(NoReplyMessage)
    ensures reply.Some? && reply.value.Refused? ==>
              r == Thrown(if reply.value.error != "" then reply.value.error else UnknownErrorMessage)
  {
    match reply
    case None => Thrown(NoReplyMessage)
    case Some(Saved(_, _, _, _)) => Resolved(reply.value)
    case Some(Refused(error)) => Thrown(if error != "" then error else UnknownErrorMessage)
  }

  /** `saveConfig(config)`, `None` standing for null or a non-object. */
  function SaveFor(config: Option<map<string, Value>>, reply: Option<SaveReply>): (r: SaveCall)
    ensures config.None? ==> r == SaveCall(None, Thrown(InvalidConfigMessage))
    ensures config.Some? && !(TruthyAt(config.value, "username") && TruthyAt(config.value, "callsign")) ==>
              r == SaveCall(None, Thrown(MissingFieldsMessage))
    ensures r.sent.Some? <==> config.Some? && TruthyAt(config.value, "username") && TruthyAt(config.value, "callsign")
    ensures r.sent.Some? ==> r.sent.value == Sanitized(config.value) && r.outcome == Answer(reply)
  {
    if config.None? then SaveCall(None, Thrown(InvalidConfigMessage))
    else if !TruthyAt(config.value, "username") || !TruthyAt(config.value, "callsign") then
      SaveCall(None, Thrown(MissingFieldsMessage))
    else SaveCall(Some(Sanitized(config.value)), Answer(reply))
  }

  /** Nothing is sent without a user name and a call sign, and what is sent
      never carries a placeholder or empty password. */
  lemma SentConfigIsClean(config: Option<map<string, Value>>, reply: Option<SaveReply>)
    requires SaveFor(config, reply).sent.Some?
    ensures var sent := SaveFor(config, reply).sent.value;
            TruthyAt(sent, "username") && TruthyAt(sent, "callsign") && !KeepsPassword(sent)
  {
  }

  /** A masked password is kept: the main process merges what it receives over
      its own table (`{...appConfig, ...newConfig}`), so its password survives. */
  lemma {:induction false} MaskedPasswordKept(config: map<string, Value>, appConfig: map<string, Value>)
    requires "password" in config && config["password"] == Str(ConfigStore.Mask)
    ensures var merged := appConfig + Sanitized(config);
            ("password" in merged <==> "password" in appConfig)
            && ("password" in appConfig ==> merged["password"] == appConfig["password"])
  {
    assert KeepsPassword(config);
    assert "password" !in Sanitized(config);
  }

  /** `saveConfig(config)`: checks the object, deletes a kept password from
      it, and sends it. `config` is the object the bridge received: the copy
      the context bridge makes of the renderer's argument, not that argument. */
  method SaveConfig(config: JsObject?, reply: Option<SaveReply>) returns (call: SaveCall)
    modifies config
    ensures call == SaveFor(if config == null then None else Some(old(config.entries)), reply)
    ensures config != null && call.sent.Some? ==> config.entries == call.sent.value
    ensures config != null && call.sent.None? ==> config.entries == old(config.entries)
  {
    if config == null {
      return SaveCall(None, Thrown(InvalidConfigMessage));
    }
    if !TruthyAt(config.entries, "username") || !TruthyAt(config.entries, "callsign") {
      return SaveCall(None, Thrown(MissingFieldsMessage));
    }
    if "password" in config.entries && config.entries["password"].Str?
       && (config.entries["password"].s == ConfigStore.Mask || config.entries["password"].s == "••••••••"
           || config.entries["password"].s == "") {
      config.entries := config.entries - {"password"};
    }
    call := SaveCall(Some(config.entries), Answer(reply));
  }
}
