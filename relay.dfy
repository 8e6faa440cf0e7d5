/** The relay in the main process (src/main/main.js): which UDP port a logging
    program is heard on, how a received QSO record becomes the query of LdA's
    `subeqso.php` upload script, the 'open-external' check, and the module state
    (`appConfig`, `udpServer`, `currentUdpPort`, `isSavingConfig`, `cachedConfig`)
    that the UDP listener and the 'save-config' handler update. */
module Relay {
  import opened Strings
  import opened Values
  import opened Adif
  import opened ConfigStore

  // ---------------------------------------------------------------------------
  // Ports

  /** `SOFTWARE_PORTS`. */
  const SoftwarePorts: map<string, int> :=
    map["log4om" := 2233, "wsjtx" := 2333, "jtdx" := 2333, "n1mm" := 12060]

  /** `DEFAULT_UDP_PORT`. */
  const DefaultUdpPort: int := 2233

  /** `getPortForSoftware(software)` for a string name, `""` standing for a missing one. */
  function PortForSoftware(software: string): (port: int)
    ensures Lower(software) == "n1mm" ==> port == 12060
    ensures Lower(software) == "wsjtx" || Lower(software) == "jtdx" ==> port == 2333
    ensures Lower(software) != "n1mm" && Lower(software) != "wsjtx" && Lower(software) != "jtdx"
            ==> port == DefaultUdpPort
  {
    var selected := if software == "" then "log4om" else Lower(software);
    if selected in SoftwarePorts then SoftwarePorts[selected] else DefaultUdpPort
  }

  /** The lookup ignores letter case. */
  lemma PortIgnoresCase(a: string, b: string)
    requires SameIgnoringCase(a, b)
    ensures PortForSoftware(a) == PortForSoftware(b)
  {
  }

  /** `software || 'log4om'` as a string, or `None` when it is a truthy value that
      is not a string, on which the `toLowerCase()` that follows throws. */
  function SoftwareName(v: Option<Value>): (r: Option<string>)
    ensures r.None? <==> v.Some? && Truthy(v.value) && !v.value.Str?
    ensures r.Some? ==> r.value != ""
    ensures r.Some? && v.Some? && Truthy(v.value) ==> v.value == Str(r.value)
  {
    if v.None? || !Truthy(v.value) then Some("log4om")
    else if v.value.Str? then Some(v.value.s)
    else None
  }

  // ---------------------------------------------------------------------------
  // Field resolution

  /** `qso[k]` is present and not the empty string (so `qso[k] || ...` stops there). */
  predicate Filled(qso: map<string, string>, k: string) {
    k in qso && qso[k] != ""
  }

  /** The position of the first key whose value `||` stops at; `|keys|` when there is none. */
  function FirstFilled(qso: map<string, string>, keys: seq<string>): (n: nat)
    ensures n <= |keys|
    ensures n < |keys| ==> Filled(qso, keys[n])
    ensures forall j :: 0 <= j < n ==> !Filled(qso, keys[j])
    decreases |keys|
  {
    if keys == [] || Filled(qso, keys[0]) then 0 else 1 + FirstFilled(qso, keys[1..])
  }

  /** `qso[keys[0]] || qso[keys[1]] || ... || default`. */
  function Pick(qso: map<string, string>, keys: seq<string>, default: string): (r: string)
    ensures FirstFilled(qso, keys) < |keys| ==> r == qso[keys[FirstFilled(qso, keys)]] && r != ""
    ensures FirstFilled(qso, keys) == |keys| ==> r == default
    decreases |keys|
  {
    if keys == [] then default
    else if Filled(qso, keys[0]) then qso[keys[0]]
    else Pick(qso, keys[1..], default)
  }

  /** `s || alternative`. */
  function OrElse(s: string, alternative: string): (r: string)
    ensures r == s || r == alternative
    ensures alternative != "" ==> r != ""
  {
    if s != "" then s else alternative
  }

  // ---------------------------------------------------------------------------
  // Date and time

  /** An ADIF date: exactly eight digits, YYYYMMDD (`/^\d{8}$/`). */
  predicate IsAdifDate(d: string) {
    |d| == 8 && AllDigits(d)
  }

  /** The date sent as `fecha`: DD/MM/YYYY for an ADIF date; otherwise
      `localeDate`, the `es-AR` rendering the runtime gives of the parsed date
      or of today. */
  function DisplayDate(qsoDate: string, localeDate: string): (r: string)
    ensures IsAdifDate(qsoDate) ==> |r| == 10 && r[2] == '/' && r[5] == '/'
    ensures !IsAdifDate(qsoDate) ==> r == localeDate
  {
    if IsAdifDate(qsoDate) then qsoDate[6..8] + "/" + qsoDate[4..6] + "/" + qsoDate[0..4]
    else localeDate
  }

  /** Reads a DD/MM/YYYY date back as YYYYMMDD. */
  function AdifDateOf(r: string): string
    requires |r| == 10
  {
    r[6..10] + r[3..5] + r[0..2]
  }

  /** The displayed date holds exactly the digits of the ADIF date. */
  lemma {:induction false} DisplayDateRoundTrip(qsoDate: string, localeDate: string)
    requires IsAdifDate(qsoDate)
    ensures AdifDateOf(DisplayDate(qsoDate, localeDate)) == qsoDate
    ensures Trim(DisplayDate(qsoDate, localeDate)) == DisplayDate(qsoDate, localeDate)
  {
    var r := DisplayDate(qsoDate, localeDate);
    assert r[6..10] == qsoDate[0..4];
    assert r[3..5] == qsoDate[4..6];
    assert r[0..2] == qsoDate[6..8];
    assert qsoDate == qsoDate[0..4] + qsoDate[4..6] + qsoDate[6..8];
    assert IsDigit(r[0]) && IsDigit(r[9]);
    TrimUnchanged(r);
  }

  /** The local time of day the runtime reports when a record has no time. */
  datatype Clock = Clock(hours: int, minutes: int) {
    predicate Valid() {
      0 <= hours < 24 && 0 <= minutes < 60
    }
  }

  /** `getHours()` and `getMinutes()`, each as two digits. */
  function ClockDigits(clock: Clock): (r: string)
    requires clock.Valid()
    ensures |r| == 4 && AllDigits(r)
    ensures TwoDigitValue(r[..2]) == clock.hours && TwoDigitValue(r[2..]) == clock.minutes
  {
    var h := PadStart(NatToString(clock.hours), 2, '0');
    var m := PadStart(NatToString(clock.minutes), 2, '0');
    PadTwoDigits(clock.hours);
    PadTwoDigits(clock.minutes);
    SplitAtTwo(h, m);
    h + m
  }

  lemma SplitAtTwo(h: string, m: string)
    requires |h| == 2 && AllDigits(h) && AllDigits(m)
    ensures (h + m)[..2] == h && (h + m)[2..] == m && AllDigits(h + m)
  {
  }

  /** The four digits sent as `hora` for a `TIME_ON` text: its first four
      digits, or its digits padded with leading zeros, or the clock's reading
      when the text holds no digit at all. */
  function TimeDigits(timeOn: string, clock: Clock): (r: string)
    requires clock.Valid()
    ensures |r| == 4 && AllDigits(r)
    ensures |Digits(timeOn)| >= 4 ==> r == Digits(timeOn)[..4]
    ensures 0 < |Digits(timeOn)| < 4 ==>
              r[4 - |Digits(timeOn)|..] == Digits(timeOn)
              && forall i :: 0 <= i < 4 - |Digits(timeOn)| ==> r[i] == '0'
    ensures Digits(timeOn) == [] ==> r == ClockDigits(clock)
  {
    var d := Digits(timeOn);
    if |d| >= 4 then d[..4]
    else if d != [] then PadStart(d, 4, '0')
    else ClockDigits(clock)
  }

  /** The clock is consulted only when the text holds no digit. */
  lemma ClockOnlyWithoutDigits(timeOn: string, c1: Clock, c2: Clock)
    requires c1.Valid() && c2.Valid()
    requires Digits(timeOn) != []
    ensures TimeDigits(timeOn, c1) == TimeDigits(timeOn, c2)
  {
  }

  /** Normalising a normalised time changes nothing. */
  lemma TimeDigitsIdempotent(timeOn: string, c1: Clock, c2: Clock)
    requires c1.Valid() && c2.Valid()
    ensures TimeDigits(TimeDigits(timeOn, c1), c2) == TimeDigits(timeOn, c1)
  {
    var r := TimeDigits(timeOn, c1);
    assert Digits(r) == r;
  }

  // ---------------------------------------------------------------------------
  // The upload request

  /** What `sendToLdA` does with a record. */
  datatype Upload =
    | MissingCredentials
      /** An exception raised while the request is built, caught and logged. */
    | Failed(reason: string)
      /** An HTTPS GET of `path` with `query` on `host`. */
    | Request(host: string, path: string, query: seq<Param>)

  const LdaHost: string := "www.lda.ar"
  const UploadPath: string := "/php/subeqso.php"
  const NoPasswordMessage: string := "No se pudo obtener la contraseña de la configuración"
  /** `safeEncode` is called but defined nowhere, so the call raises a ReferenceError. */
  const SafeEncodeMessage: string := "safeEncode is not defined"

  /** `cleanValue(v)`: '' for null or undefined, otherwise `v.toString().trim()`. */
  function CleanValue(v: Option<Value>): (r: string)
    ensures Trimmed(r)
    ensures v.None? || v == Some(Null) ==> r == ""
    ensures v.Some? && v.value.Str? ==> r == Trim(v.value.s)
  {
    match v
    case None => ""
    case Some(Null) => ""
    case Some(Str(s)) => Trim(s)
    case Some(Bool(b)) => if b then "true" else "false"
    case Some(Num(n)) => IntToString(n)
    case Some(Obj(_)) => "[object Object]"
  }

  predicate TruthyOpt(v: Option<Value>) {
    v.Some? && Truthy(v.value)
  }

  /** The credentials `sendToLdA` insists on before anything else. */
  predicate HasCredentials(appConfig: map<string, Value>) {
    TruthyAt(appConfig, "username") && TruthyAt(appConfig, "password") && TruthyAt(appConfig, "callsign")
  }

  /** The password sent: the stored one (`config.get('password')`, given as
      `stored`) when the in-memory one is the mask, the in-memory one otherwise. */
  function ActualPassword(appConfig: map<string, Value>, stored: Option<Value>): (r: Option<Value>)
    requires "password" in appConfig
    ensures appConfig["password"] == Str(Mask) ==> r == stored
    ensures appConfig["password"] != Str(Mask) ==> r == Some(appConfig["password"])
    ensures r.Some? && r.value == Str(Mask) ==> stored == Some(Str(Mask))
  {
    if appConfig["password"] == Str(Mask) then stored else Some(appConfig["password"])
  }

  const CallKeys: seq<string> := ["CALL", "call"]
  const BandKeys: seq<string> := ["BAND", "band"]
  const ModeKeys: seq<string> := ["MODE", "mode"]
  const DateKeys: seq<string> := ["QSO_DATE", "qso_date"]
  const TimeKeys: seq<string> := ["TIME_ON", "time_on"]
  const RstKeys: seq<string> := ["RST_SENT", "rst_sent"]
  const CommentKeys: seq<string> := ["COMMENT", "comment", "NOTES", "notes"]
  const PropKeys: seq<string> := ["PROP_MODE", "prop_mode"]

  /** What `sendToLdA(qso)` does, given the password the store holds, the
      clock, and the runtime's rendering of a date that is not an ADIF date. */
  function UploadFor(appConfig: map<string, Value>, stored: Option<Value>, qso: map<string, string>,
                     clock: Clock, localeDate: string): (r: Upload)
    requires clock.Valid()
    ensures r.MissingCredentials? <==> !HasCredentials(appConfig)
    ensures r.Failed? ==> r.reason == NoPasswordMessage || r.reason == SafeEncodeMessage
    ensures r.Request? ==> r.host == LdaHost && r.path == UploadPath && Names(r.query) == QueryNames
    ensures r.Request? ==> r.query[3].value != "" && r.query[4].value != "" && r.query[5].value != ""
    ensures r.Request? ==> |r.query[7].value| == 4 && AllDigits(r.query[7].value)
    ensures r.Request? ==> r.query == QueryFor(appConfig, ActualPassword(appConfig, stored), qso, clock, localeDate)
  {
    if !HasCredentials(appConfig) then MissingCredentials
    else
      var actual := ActualPassword(appConfig, stored);
      var propMode := Pick(qso, PropKeys, "");
      if !TruthyOpt(actual) then Failed(NoPasswordMessage)
      else if propMode != "" && propMode != "N/A" then Failed(SafeEncodeMessage)
      else
        Request(LdaHost, UploadPath, QueryFor(appConfig, actual, qso, clock, localeDate))
  }

  /** The query `sendToLdA` builds once the password to send is known. */
  function QueryFor(appConfig: map<string, Value>, actual: Option<Value>, qso: map<string, string>,
                    clock: Clock, localeDate: string): (q: seq<Param>)
    requires clock.Valid() && "username" in appConfig && "callsign" in appConfig
    ensures Names(q) == QueryNames
  {
    Query(
      CleanValue(Some(appConfig["username"])),
      CleanValue(actual),
      CleanValue(Some(appConfig["callsign"])),
      OrElse(Trim(Pick(qso, CallKeys, "")), "NOCALL"),
      OrElse(Trim(Pick(qso, BandKeys, "")), "?"),
      OrElse(Trim(Pick(qso, ModeKeys, "")), "?"),
      Trim(DisplayDate(Pick(qso, DateKeys, ""), localeDate)),
      TimeDigits(Pick(qso, TimeKeys, ""), clock),
      Trim(Pick(qso, RstKeys, "59")),
      Trim(OrElse(Pick(qso, CommentKeys, ""), "73 & DX")))
  }

  /** The date formatting of `sendToLdA`. */
  method FormatQsoDate(qsoDate: string, localeDate: string) returns (formattedDate: string)
    ensures formattedDate == DisplayDate(qsoDate, localeDate)
  {
    if qsoDate != "" {
      if |qsoDate| == 8 && AllDigits(qsoDate) {
        formattedDate := qsoDate[6..8] + "/" + qsoDate[4..6] + "/" + qsoDate[0..4];
      } else {
        formattedDate := localeDate;
      }
    } else {
      formattedDate := localeDate;
    }
  }

  /** The time formatting of `sendToLdA`. */
  method FormatTimeOn(timeOn: string, clock: Clock) returns (timeStr: string)
    requires clock.Valid()
    ensures timeStr == TimeDigits(timeOn, clock)
  {
    timeStr := "";
    if timeOn != "" {
      timeStr := Digits(timeOn);
      if |timeStr| >= 4 {
        timeStr := timeStr[..4];
      }
    }
    if timeStr == "" {
      timeStr := PadStart(NatToString(clock.hours), 2, '0') + PadStart(NatToString(clock.minutes), 2, '0');
    }
    timeStr := Prefix(PadStart(timeStr, 4, '0'), 4);
  }

  /** `sendToLdA(qso)`, step by step: the credential check, field resolution,
      date and time formatting, the password check, then the query built one
      parameter at a time. */
  method SendToLdA(appConfig: map<string, Value>, stored: Option<Value>, qso: map<string, string>,
                   clock: Clock, localeDate: string) returns (upload: Upload)
    requires clock.Valid()
    ensures upload == UploadFor(appConfig, stored, qso, clock, localeDate)
  {
    if !TruthyAt(appConfig, "username") || !TruthyAt(appConfig, "password") || !TruthyAt(appConfig, "callsign") {
      return MissingCredentials;
    }
    var call := Pick(qso, CallKeys, "");
    var band := Pick(qso, BandKeys, "");
    var mode := Pick(qso, ModeKeys, "");
    var qsoDate := Pick(qso, DateKeys, "");
    var timeOn := Pick(qso, TimeKeys, "");
    var rstSent := Pick(qso, RstKeys, "59");
    var comment := Pick(qso, CommentKeys, "");
    var propMode := Pick(qso, PropKeys, "");

    var formattedDate := FormatQsoDate(qsoDate, localeDate);
    var timeStr := FormatTimeOn(timeOn, clock);
    TrimDigits(timeStr);

    var actualPassword := if appConfig["password"] == Str(Mask) then stored else Some(appConfig["password"]);
    if !TruthyOpt(actualPassword) {
      return Failed(NoPasswordMessage);
    }

    var user := CleanValue(Some(appConfig["username"]));
    var pass := CleanValue(actualPassword);
    var micall := CleanValue(Some(appConfig["callsign"]));
    var sucall := OrElse(Trim(call), "NOCALL");
    var banda := OrElse(Trim(band), "?");
    var modo := OrElse(Trim(mode), "?");
    var fecha := Trim(formattedDate);
    var hora := Trim(timeStr);
    var rst := Trim(rstSent);
    var message := Trim(OrElse(comment, "73 & DX"));
    var params := [Param("user", user)];
    params := params + [Param("pass", pass)];
    params := params + [Param("micall", micall)];
    params := params + [Param("sucall", sucall)];
    params := params + [Param("banda", banda)];
    params := params + [Param("modo", modo)];
    params := params + [Param("fecha", fecha)];
    params := params + [Param("hora", hora)];
    params := params + [Param("rst", rst)];
    params := params + [Param("x_qslMSG", message)];
    assert params == Query(user, pass, micall, sucall, banda, modo, fecha, hora, rst, message);

    if propMode != "" && propMode != "N/A" {
      return Failed(SafeEncodeMessage);
    }
    assert actualPassword == ActualPassword(appConfig, stored);
    assert fecha == Trim(DisplayDate(qsoDate, localeDate)) && hora == TimeDigits(timeOn, clock);
    upload := Request(LdaHost, UploadPath, params);
  }

  /** With the credentials present, the request fails for want of a password
      exactly when the password to send is missing or empty. */
  lemma PasswordCheck(appConfig: map<string, Value>, stored: Option<Value>, qso: map<string, string>,
                      clock: Clock, localeDate: string)
    requires clock.Valid() && HasCredentials(appConfig)
    ensures UploadFor(appConfig, stored, qso, clock, localeDate) == Failed(NoPasswordMessage)
            <==> !TruthyOpt(ActualPassword(appConfig, stored))
  {
  }

  /** The mask in memory is replaced by the password the store holds. */
  lemma PlaceholderReplaced(appConfig: map<string, Value>, stored: Option<Value>, qso: map<string, string>,
                            clock: Clock, localeDate: string)
    requires clock.Valid() && HasCredentials(appConfig) && appConfig["password"] == Str(Mask)
    requires UploadFor(appConfig, stored, qso, clock, localeDate).Request?
    ensures UploadFor(appConfig, stored, qso, clock, localeDate).query[1] == Param("pass", CleanValue(stored))
    ensures TruthyOpt(stored)
  {
  }

  /** Any propagation mode other than 'N/A' makes the upload fail, because the
      encoder it is passed to does not exist. */
  lemma PropagationModeFails(appConfig: map<string, Value>, stored: Option<Value>, qso: map<string, string>,
                             clock: Clock, localeDate: string)
    requires clock.Valid() && HasCredentials(appConfig) && TruthyOpt(ActualPassword(appConfig, stored))
    ensures UploadFor(appConfig, stored, qso, clock, localeDate).Failed?
            <==> Pick(qso, PropKeys, "") != "" && Pick(qso, PropKeys, "") != "N/A"
  {
  }

  /** The defaults of the resolved fields: a record without call, band or mode
      is sent as NOCALL, '?' and '?', without RST as '59', without comment as
      '73 & DX', without date or time with the runtime's date and the clock's time. */
  lemma EmptyRecordDefaults(appConfig: map<string, Value>, stored: Option<Value>, clock: Clock, localeDate: string)
    requires clock.Valid()
    requires UploadFor(appConfig, stored, map[], clock, localeDate).Request?
    ensures var q := UploadFor(appConfig, stored, map[], clock, localeDate).query;
            q[3].value == "NOCALL" && q[4].value == "?" && q[5].value == "?"
            && q[6].value == Trim(localeDate) && q[7].value == ClockDigits(clock)
            && q[8].value == "59" && q[9].value == "73 & DX"
  {
    var empty: map<string, string> := map[];
    assert Pick(empty, CallKeys, "") == "" && Pick(empty, BandKeys, "") == "" && Pick(empty, ModeKeys, "") == "";
    assert Pick(empty, DateKeys, "") == "" && Pick(empty, TimeKeys, "") == "";
    assert Pick(empty, RstKeys, "59") == "59" && Pick(empty, CommentKeys, "") == "";
    assert !IsAdifDate("");
    assert Digits("") == [];
    DefaultsTrimmed();
  }

  lemma DefaultsTrimmed()
    ensures Trim("59") == "59" && Trim("73 & DX") == "73 & DX"
  {
    TrimUnchanged("59");
    TrimUnchanged("73 & DX");
  }

  /** An ADIF date in the record reaches LdA as DD/MM/YYYY holding the same digits. */
  lemma SentDate(appConfig: map<string, Value>, stored: Option<Value>, qso: map<string, string>,
                 clock: Clock, localeDate: string)
    requires clock.Valid() && IsAdifDate(Pick(qso, DateKeys, ""))
    requires UploadFor(appConfig, stored, qso, clock, localeDate).Request?
    ensures var fecha := UploadFor(appConfig, stored, qso, clock, localeDate).query[6].value;
            |fecha| == 10 && AdifDateOf(fecha) == Pick(qso, DateKeys, "")
  {
    DisplayDateRoundTrip(Pick(qso, DateKeys, ""), localeDate);
  }

  // ---------------------------------------------------------------------------
  // 'open-external'

  /** The 'open-external' handler hands the URL to the shell only when it is a
      string that starts with `http://` or `https://`. */
  predicate OpensExternal(url: Value)
    ensures OpensExternal(url) ==> url.Str? && StartsWith(url.s, "http")
  {
    url.Str? && (StartsWith(url.s, "http://") || StartsWith(url.s, "https://"))
  }

  // ---------------------------------------------------------------------------
  // The UDP listener

  /** The listener state of the main process: a socket exists (`udpServer !==
      null`), it is bound and has reported no error, `currentUdpPort`, and the
      ports it was bound to, oldest first. */
  datatype Listener = Listener(present: bool, listening: bool, port: int, binds: seq<int>)

  /** What `startUDPServer` does once it has resolved `port`: nothing when a
      socket already serves that port, otherwise it closes the socket and binds
      a new one on `port`. */
  function Rebind(l: Listener, port: int): (r: Listener)
    ensures r.present && r.port == port
    ensures l.present && l.port == port ==> r == l
    ensures !(l.present && l.port == port) ==> r.listening && r.binds == l.binds + [port]
  {
    if l.present && l.port == port then l else Listener(true, true, port, l.binds + [port])
  }

  /** A failed bind leaves the socket in place on its port; the retry that
      follows finds it there and binds nothing, so the listener stays deaf. */
  lemma RetryAfterErrorIsIdle(l: Listener, port: int)
    requires l.present && l.port == port
    ensures Rebind(l.(listening := false), port) == l.(listening := false)
    ensures !Rebind(l.(listening := false), port).listening
  {
  }

  // ---------------------------------------------------------------------------
  // 'save-config'

  const BusyMessage: string := "Ya hay un guardado en proceso"
  const NoUsernameMessage: string := "El nombre de usuario es obligatorio"
  const NoCallsignMessage: string := "El indicativo es obligatorio"
  const NotSavedMessage: string := "No se pudo guardar la configuración en disco"
  const NoChangesMessage: string := "No se detectaron cambios en la configuración"

  function SavedMessage(softwareChanged: bool): string {
    "Configuración guardada correctamente" + (if softwareChanged then " (servidor UDP reiniciado)" else "")
  }

  /** The received configuration with `software` defaulted to 'log4om'. */
  function WithSoftware(newConfig: map<string, Value>): (r: map<string, Value>)
    ensures "software" in r && Truthy(r["software"])
    ensures r.Keys == newConfig.Keys + {"software"}
    ensures forall k :: k in newConfig && k != "software" ==> r[k] == newConfig[k]
  {
    if TruthyAt(newConfig, "software") then newConfig else newConfig["software" := Str("log4om")]
  }

  /** `Object.keys(newConfig)` once `software` is defaulted: a key that was
      absent is added last. */
  function KeysWithSoftware(order: seq<string>, newConfig: map<string, Value>): seq<string> {
    if "software" in newConfig then order else order + ["software"]
  }

  /** The first check of 'save-config' that fails, as the message it raises:
      username, callsign, then the two software names `toLowerCase` is applied to. */
  function SaveCheck(newConfig: map<string, Value>, current: map<string, Value>): (r: Option<string>)
    ensures r.None? <==> TruthyAt(newConfig, "username") && TruthyAt(newConfig, "callsign")
                         && SoftwareName(Lookup(current, "software")).Some?
                         && SoftwareName(Lookup(WithSoftware(newConfig), "software")).Some?
    ensures !TruthyAt(newConfig, "username") ==> r == Some(NoUsernameMessage)
    ensures TruthyAt(newConfig, "username") && !TruthyAt(newConfig, "callsign") ==> r == Some(NoCallsignMessage)
  {
    if !TruthyAt(newConfig, "username") then Some(NoUsernameMessage)
    else if !TruthyAt(newConfig, "callsign") then Some(NoCallsignMessage)
    else if SoftwareName(Lookup(current, "software")).None? then Some("oldSoftware.toLowerCase is not a function")
    else if SoftwareName(Lookup(WithSoftware(newConfig), "software")).None? then Some("newSoftware.toLowerCase is not a function")
    else None
  }

  /** `JSON.stringify(current[k]) !== JSON.stringify(config[k])`. */
  predicate Differs(current: map<string, Value>, config: map<string, Value>, k: string) {
    Lookup(current, k) != Lookup(config, k)
  }

  /** The key at which `keys.some(...)` stops: the first whose value differs. */
  function FirstChanged(keys: seq<string>, current: map<string, Value>, config: map<string, Value>): (r: Option<string>)
    ensures r.Some? ==> r.value in keys && Differs(current, config, r.value)
    ensures r.None? <==> forall i :: 0 <= i < |keys| ==> !Differs(current, config, keys[i])
    decreases |keys|
  {
    if keys == [] then None
    else if Differs(current, config, keys[0]) then Some(keys[0])
    else FirstChanged(keys[1..], current, config)
  }

  /** The software names, compared ignoring case. */
  predicate SoftwareChanged(current: map<string, Value>, config: map<string, Value>)
    requires SoftwareName(Lookup(current, "software")).Some? && SoftwareName(Lookup(config, "software")).Some?
  {
    Lower(SoftwareName(Lookup(current, "software")).value) != Lower(SoftwareName(Lookup(config, "software")).value)
  }

  /** The part of the main process's state the handler touches, and its answer. */
  datatype SaveEffect = SaveEffect(reply: SaveReply, appConfig: map<string, Value>, file: Option<map<string, Value>>, udp: Listener)

  /** The 'save-config' handler, once it found no other save in progress: from
      the configuration it receives (with `order`, its keys in `Object.keys`
      order), the in-memory configuration `before`, the configuration file, and
      the listener. */
  function SaveFor(newConfig: map<string, Value>, order: seq<string>, before: map<string, Value>,
                   file: Option<map<string, Value>>, writable: bool, udp: Listener): (e: SaveEffect)
    ensures e.reply.Refused? <==>
              SaveCheck(newConfig, Load(file)).Some?
              || (FirstChanged(KeysWithSoftware(order, newConfig), Load(file), WithSoftware(newConfig)).Some? && !writable)
    ensures e.file != file ==> writable && e.reply.Saved?
    ensures e.udp != udp ==> e.reply.Saved? && e.reply.softwareChanged && e.udp.present
    ensures e.reply.Saved? ==> |e.reply.updatedFields| <= 1
  {
    var current := Load(file);
    var merged := before + newConfig;
    var check := SaveCheck(newConfig, current);
    if check.Some? then SaveEffect(Refused(check.value), merged, file, udp)
    else
      var config := WithSoftware(newConfig);
      var first := FirstChanged(KeysWithSoftware(order, newConfig), current, config);
      if first.None? then SaveEffect(Saved(SafeView(current), NoChangesMessage, [], false), merged, file, udp)
      else
        var updated := current + config;
        if !writable then SaveEffect(Refused(NotSavedMessage), merged + updated, file, udp)
        else
          var changed := SoftwareChanged(current, config);
          var port := PortForSoftware(SoftwareName(Lookup(config, "software")).value);
          SaveEffect(Saved(SafeView(Complete(updated)), SavedMessage(changed), [first.value], changed),
                     merged + updated, Some(Complete(updated)), if changed then Rebind(udp, port) else udp)
  }

  /** Username and callsign are both required: without either the handler
      refuses, with the message of the first one missing, and writes nothing. */
  lemma CredentialsRequired(newConfig: map<string, Value>, order: seq<string>, before: map<string, Value>,
                            file: Option<map<string, Value>>, writable: bool, udp: Listener)
    requires !TruthyAt(newConfig, "username") || !TruthyAt(newConfig, "callsign")
    ensures var e := SaveFor(newConfig, order, before, file, writable, udp);
            e.reply == Refused(if TruthyAt(newConfig, "username") then NoCallsignMessage else NoUsernameMessage)
            && e.file == file && e.udp == udp && e.appConfig == before + newConfig
  {
  }

  /** Every key of the saved configuration keeps its value in the file, the
      default keys are all present, and `software` is set ('log4om' when none was given). */
  lemma SavedTable(newConfig: map<string, Value>, order: seq<string>, before: map<string, Value>,
                   file: Option<map<string, Value>>, writable: bool, udp: Listener)
    requires SaveFor(newConfig, order, before, file, writable, udp).file != file
    ensures var stored := SaveFor(newConfig, order, before, file, writable, udp).file;
            stored.Some?
            && (forall k :: k in newConfig && k != "software" ==> k in stored.value && stored.value[k] == newConfig[k])
            && (forall k :: k in Defaults ==> k in stored.value)
            && "software" in stored.value && Truthy(stored.value["software"])
            && (!TruthyAt(newConfig, "software") ==> stored.value["software"] == Str("log4om"))
  {
  }

  /** The answer names the key at which the change scan stopped. */
  lemma UpdatedFieldChanged(newConfig: map<string, Value>, order: seq<string>, before: map<string, Value>,
                            file: Option<map<string, Value>>, writable: bool, udp: Listener)
    requires var e := SaveFor(newConfig, order, before, file, writable, udp);
             e.reply.Saved? && e.reply.updatedFields != []
    ensures var e := SaveFor(newConfig, order, before, file, writable, udp);
            e.reply.updatedFields[0] in KeysWithSoftware(order, newConfig)
            && Differs(Load(file), WithSoftware(newConfig), e.reply.updatedFields[0])
            && e.file == Some(Complete(Load(file) + WithSoftware(newConfig)))
  {
  }

  /** A configuration that changes nothing cannot change the software. */
  lemma {:induction false} NoChangesKeepSoftware(newConfig: map<string, Value>, order: seq<string>, current: map<string, Value>)
    requires forall k :: k in newConfig ==> k in order
    requires SaveCheck(newConfig, current).None?
    requires FirstChanged(KeysWithSoftware(order, newConfig), current, WithSoftware(newConfig)).None?
    ensures !SoftwareChanged(current, WithSoftware(newConfig))
  {
    var config := WithSoftware(newConfig);
    var keys := KeysWithSoftware(order, newConfig);
    if "software" in newConfig {
      assert "software" in order;
    } else {
      assert keys[|keys| - 1] == "software";
    }
    var i :| 0 <= i < |keys| && keys[i] == "software";
    assert !Differs(current, config, keys[i]);
  }

  /** A change that is written reports whether the software was renamed
      (ignoring letter case), and exactly then rebinds the listener on the
      new software's port. */
  lemma SoftwareRenameRestarts(newConfig: map<string, Value>, order: seq<string>, before: map<string, Value>,
                               file: Option<map<string, Value>>, writable: bool, udp: Listener)
    requires SaveCheck(newConfig, Load(file)).None? && writable
    requires FirstChanged(KeysWithSoftware(order, newConfig), Load(file), WithSoftware(newConfig)).Some?
    ensures var e := SaveFor(newConfig, order, before, file, writable, udp);
            e.reply.Saved? && (e.reply.softwareChanged <==> SoftwareChanged(Load(file), WithSoftware(newConfig)))
    ensures var e := SaveFor(newConfig, order, before, file, writable, udp);
            SoftwareChanged(Load(file), WithSoftware(newConfig)) ==>
              e.udp == Rebind(udp, PortForSoftware(SoftwareName(Lookup(WithSoftware(newConfig), "software")).value))
    ensures !SoftwareChanged(Load(file), WithSoftware(newConfig)) ==>
              SaveFor(newConfig, order, before, file, writable, udp).udp == udp
  {
  }

  /** The entries of `config` under the keys in `done`. */
  function Written(config: map<string, Value>, done: set<string>): (w: map<string, Value>)
    ensures w.Keys == config.Keys * done
    ensures forall k :: k in w ==> w[k] == config[k]
  {
    map k | k in config && k in done :: config[k]
  }

  /** The file after the first `set` of `WriteConfig`. */
  lemma WrittenFirst(loaded: map<string, Value>, config: map<string, Value>, k: string)
    requires k in config
    ensures Complete(loaded[k := config[k]]) == Complete(loaded + Written(config, {k}))
  {
    assert loaded[k := config[k]] == loaded + Written(config, {k});
  }

  /** The file after one more `set` of `WriteConfig`. */
  lemma WrittenNext(loaded: map<string, Value>, config: map<string, Value>, done: set<string>, k: string)
    requires k in config
    ensures Complete(Load(Some(Complete(loaded + Written(config, done))))[k := config[k]])
            == Complete(loaded + Written(config, done + {k}))
  {
    var v := config[k];
    var w, w' := Written(config, done), Written(config, done + {k});
    assert w' == w[k := v];
    var y := loaded + w;
    assert y[k := v] == loaded + w';
    assert Complete(y)[k := v] == Complete(y[k := v]);
    CompleteIdempotent(y[k := v]);
  }

  /** The file after a `set` of `WriteConfig`, from the file it started with. */
  lemma WrittenStep(start: Option<map<string, Value>>, before: Option<map<string, Value>>,
                    config: map<string, Value>, todo: set<string>, k: string)
    requires todo <= config.Keys && k in todo
    requires todo == config.Keys ==> before == start
    requires todo != config.Keys ==> before == Some(Complete(Load(start) + Written(config, config.Keys - todo)))
    ensures Complete(Load(before)[k := config[k]]) == Complete(Load(start) + Written(config, config.Keys - (todo - {k})))
  {
    if todo == config.Keys {
      assert config.Keys - (todo - {k}) == {k};
      WrittenFirst(Load(start), config, k);
    } else {
      var done := config.Keys - todo;
      assert config.Keys - (todo - {k}) == done + {k};
      WrittenNext(Load(start), config, done, k);
    }
  }

  /** Renaming the software only in letter case leaves the listener alone. */
  lemma SoftwareCaseIgnored(newConfig: map<string, Value>, order: seq<string>, before: map<string, Value>,
                            file: Option<map<string, Value>>, writable: bool, udp: Listener)
    requires SaveCheck(newConfig, Load(file)).None?
    requires SameIgnoringCase(SoftwareName(Lookup(Load(file), "software")).value,
                              SoftwareName(Lookup(WithSoftware(newConfig), "software")).value)
    ensures SaveFor(newConfig, order, before, file, writable, udp).udp == udp
  {
  }

  // ---------------------------------------------------------------------------
  // Module state

  class MainProcess {
    /** The configuration the main process works from. */
    var appConfig: map<string, Value>
    /** A UDP socket exists (`udpServer !== null`). */
    var udpServer: bool
    /** The socket is bound and has reported no error. */
    var listening: bool
    var currentUdpPort: int
    /** The ports the socket was bound to, oldest first. */
    var binds: seq<int>
    var isSavingConfig: bool
    /** The answer 'load-config' reuses; `None` is `null`. */
    var cachedConfig: Option<map<string, Value>>
    const store: Store

    constructor (store: Store)
      ensures this.store == store
      ensures appConfig == map[] && Udp() == Listener(false, false, 0, [])
      ensures !isSavingConfig && cachedConfig.None?
    {
      this.store := store;
      appConfig := map[];
      udpServer := false;
      listening := false;
      currentUdpPort := 0;
      binds := [];
      isSavingConfig := false;
      cachedConfig := None;
    }

    function Udp(): Listener
      reads this
    {
      Listener(udpServer, listening, currentUdpPort, binds)
    }

    /** `startUDPServer()`: resolves the port of the configured software and
        rebinds there; fails, changing nothing, when the software is not a string. */
    method StartUdpServer() returns (ok: bool)
      modifies this`udpServer, this`listening, this`currentUdpPort, this`binds
      ensures ok <==> SoftwareName(Lookup(appConfig, "software")).Some?
      ensures ok ==> Udp() == Rebind(old(Udp()), PortForSoftware(SoftwareName(Lookup(appConfig, "software")).value))
      ensures !ok ==> Udp() == old(Udp())
    {
      var name := SoftwareName(Lookup(appConfig, "software"));
      if name.None? {
        return false;
      }
      var newPort := PortForSoftware(name.value);
      if udpServer && currentUdpPort == newPort {
        return true;
      }
      if udpServer {
        udpServer := false;
        listening := false;
      }
      udpServer := true;
      currentUdpPort := newPort;
      binds := binds + [newPort];
      listening := true;
      ok := true;
    }

    /** The socket's 'error' event: the socket is kept, and not listening. */
    method OnSocketError()
      modifies this`listening
      ensures Udp() == old(Udp()).(listening := false)
    {
      listening := false;
    }

    /** The socket's 'message' event. A datagram that is blank once trimmed is
        ignored. Otherwise it is read as JSON (`json` is what `JSON.parse`
        gives, `None` when it throws) or else as ADIF, and handed to `sendToLdA`. */
    method OnDatagram(msg: string, json: Option<map<string, string>>, clock: Clock, localeDate: string)
      returns (qso: Option<map<string, string>>, upload: Option<Upload>)
      requires clock.Valid()
      ensures qso.None? <==> Trim(msg) == ""
      ensures qso.Some? ==> qso.value == (if json.Some? then json.value else Parse(Trim(msg)))
      ensures upload.Some? <==> qso.Some?
      ensures qso.Some? ==> upload.value == UploadFor(appConfig, store.Get("password"), qso.value, clock, localeDate)
    {
      var rawData := Trim(msg);
      if rawData == "" {
        return None, None;
      }
      var record: map<string, string>;
      if json.Some? {
        record := json.value;
      } else {
        record := ParseAdif(rawData);
      }
      var u := SendToLdA(appConfig, store.Get("password"), record, clock, localeDate);
      qso := Some(record);
      upload := Some(u);
    }

    /** The `keys.some(...)` scan of 'save-config'. */
    static method FindChange(keys: seq<string>, current: map<string, Value>, config: map<string, Value>)
      returns (first: Option<string>)
      ensures first == FirstChanged(keys, current, config)
    {
      var i := 0;
      first := None;
      while i < |keys| && first.None?
        invariant 0 <= i <= |keys|
        invariant first.None? ==> FirstChanged(keys[i..], current, config) == FirstChanged(keys, current, config)
        invariant first.Some? ==> first == FirstChanged(keys, current, config)
        decreases |keys| - i
      {
        assert keys[i..][1..] == keys[i + 1..];
        if Differs(current, config, keys[i]) {
          first := Some(keys[i]);
        }
        i := i + 1;
      }
    }

    /** `config.set(key, value)` for every key, then `config.saveConfig(updatedConfig)`.
        After the keys written so far, the file holds the table it started
        with, those keys written over it, and the defaults underneath; the
        final save then replaces it whole. */
    method WriteConfig(config: map<string, Value>, updatedConfig: map<string, Value>) returns (saved: bool)
      modifies store`file
      ensures saved == store.writable
      ensures saved ==> store.file == Some(Complete(updatedConfig))
      ensures !saved ==> store.file == old(store.file)
    {
      var todo := config.Keys;
      while todo != {}
        invariant todo <= config.Keys
        invariant !store.writable || todo == config.Keys ==> store.file == old(store.file)
        invariant store.writable && todo != config.Keys ==>
                    store.file == Some(Complete(Load(old(store.file)) + Written(config, config.Keys - todo)))
        decreases |todo|
      {
        var k :| k in todo;
        ghost var before := store.file;
        var written := store.Set(k, config[k]);
        if store.writable {
          WrittenStep(old(store.file), before, config, todo, k);
        }
        todo := todo - {k};
      }
      saved := store.SaveConfig(Some(updatedConfig));
    }

    /** The 'save-config' handler for a configuration object whose keys, in
        `Object.keys` order, are `order`. */
    method HandleSaveConfig(newConfig: map<string, Value>, order: seq<string>) returns (reply: SaveReply)
      requires forall k :: k in order <==> k in newConfig
      modifies this, store`file
      ensures old(isSavingConfig) ==> reply == Refused(BusyMessage) && unchanged(this) && unchanged(store)
      ensures !old(isSavingConfig) ==> !isSavingConfig && cachedConfig.None?
      ensures !old(isSavingConfig) ==>
                SaveEffect(reply, appConfig, store.file, Udp())
                == SaveFor(newConfig, order, old(appConfig), old(store.file), store.writable, old(Udp()))
    {
      if isSavingConfig {
        return Refused(BusyMessage);
      }
      cachedConfig := None;
      appConfig := appConfig + newConfig;
      isSavingConfig := true;

      var current := store.LoadConfig();
      var check := SaveCheck(newConfig, current);
      if check.Some? {
        isSavingConfig := false;
        return Refused(check.value);
      }
      var config := WithSoftware(newConfig);
      var oldSoftware := SoftwareName(Lookup(current, "software")).value;
      var newSoftware := SoftwareName(Lookup(config, "software")).value;
      var softwareChanged := Lower(oldSoftware) != Lower(newSoftware);

      var first := FindChange(KeysWithSoftware(order, newConfig), current, config);
      if first.None? {
        isSavingConfig := false;
        return Saved(store.GetSafeConfig(), NoChangesMessage, [], false);
      }
      var updatedFields := [first.value];

      var updatedConfig := current + config;
      var saved := WriteConfig(config, updatedConfig);
      appConfig := appConfig + updatedConfig;

      if saved && softwareChanged {
        assert Lookup(appConfig, "software") == Lookup(config, "software");
        var started := StartUdpServer();
      }
      isSavingConfig := false;
      if !saved {
        return Refused(NotSavedMessage);
      }
      reply := Saved(store.GetSafeConfig(), SavedMessage(softwareChanged), updatedFields, softwareChanged);
    }
  }
}
