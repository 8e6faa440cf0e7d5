/** The LdA client of src/main/lda-service.js: the band and mode vocabularies
    LdA accepts, and `sendQso`, which validates a contact, builds the query of
    a GET on `subeqso2.php` and classifies the server's answer. The HTTP
    exchange itself is an input: the body the server sent, or the error the
    transport raised. */
module LdaService {
  import opened Strings
  import opened Values

  /** `bandMap`: every band LdA knows, written as LdA writes it. */
  const BandMap: map<string, string> :=
    map[
      "160m" := "160m", "80m" := "80m", "40m" := "40m", "30m" := "30m", "20m" := "20m",
      "17m" := "17m", "15m" := "15m", "12m" := "12m", "10m" := "10m", "6m" := "6m",
      "2m" := "2m", "70cm" := "70cm", "23cm" := "23cm", "13cm" := "13cm", "9cm" := "9cm",
      "6cm" := "6cm", "3cm" := "3cm", "1.25cm" := "1.25cm"
    ]

  /** `modeMap`: the modes LdA knows, and the LdA name each one is sent as. */
  const ModeMap: map<string, string> :=
    map[
      "CW" := "CW", "SSB" := "SSB", "USB" := "SSB", "LSB" := "SSB", "FM" := "FM", "AM" := "AM",
      "RTTY" := "RTTY", "FT8" := "FT8", "FT4" := "FT4", "PSK" := "PSK", "PSK31" := "PSK",
      "PSK63" := "PSK", "JT65" := "JT65", "JT9" := "JT9", "SSTV" := "SSTV", "ATV" := "ATV",
      "DIGITALVOICE" := "DV", "DIGI" := "DIG", "DIG" := "DIG", "MFSK" := "MFSK",
      "OLIVIA" := "OLIVIA", "JT4" := "JT4", "JT6M" := "JT6M", "JT44" := "JT44",
      "QRA64" := "QRA64", "T10" := "T10", "WSPR" := "WSPR", "MSK144" := "MSK144"
    ]

  /** `s.substring(start, end)` for non-negative arguments: both are clamped
      to the length, and swapped when `start > end`. */
  function Substring(s: string, start: nat, end: nat): (r: string)
    ensures start <= end <= |s| ==> r == s[start..end]
    ensures |s| <= start && |s| <= end ==> r == []
  {
    var a := if start < |s| then start else |s|;
    var b := if end < |s| then end else |s|;
    if a <= b then s[a..b] else s[b..a]
  }

  /** `formatDate(adifDate)`: YYYYMMDD rendered as DD/MM/YYYY. */
  function FormatDate(adifDate: string): (r: string)
    ensures |adifDate| == 8 ==> |r| == 10 && r[2] == '/' && r[5] == '/'
  {
    Substring(adifDate, 6, 8) + "/" + Substring(adifDate, 4, 6) + "/" + Substring(adifDate, 0, 4)
  }

  /** An ADIF date comes back from its rendering: year, month and day are read off in reverse. */
  lemma {:induction false} FormatDateRoundTrip(adifDate: string)
    requires |adifDate| == 8
    ensures var r := FormatDate(adifDate);
            r[6..] + r[3..5] + r[..2] == adifDate
  {
    var r := FormatDate(adifDate);
    assert r == adifDate[6..8] + "/" + adifDate[4..6] + "/" + adifDate[..4];
    assert r[6..] == adifDate[..4] && r[3..5] == adifDate[4..6] && r[..2] == adifDate[6..8];
    assert adifDate == adifDate[..4] + adifDate[4..6] + adifDate[6..8];
  }

  /** `formatDate` does not check its input: a year alone comes out behind two empty fields. */
  lemma FormatDateOfYear()
    ensures FormatDate("2024") == "//2024"
  {
    assert Substring("2024", 6, 8) == [];
    assert Substring("2024", 4, 6) == [];
    assert Substring("2024", 0, 4) == "2024";
  }

  /** `isValidBand(band)`. */
  predicate IsValidBand(band: string)
    ensures IsValidBand(band) ==> Lower(band) in BandMap && BandMap[Lower(band)] == Lower(band)
  {
    Lower(band) in BandMap
  }

  /** `isValidMode(mode)`. */
  predicate IsValidMode(mode: string)
    ensures IsValidMode(mode) ==> Upper(mode) in ModeMap && ModeMap[Upper(mode)] != "" && NoLowerAscii(ModeMap[Upper(mode)])
  {
    Upper(mode) in ModeMap
  }

  /** Every band is sent under its own (lower-case) name. */
  lemma BandSentAsLowerCase(band: string)
    requires IsValidBand(band)
    ensures BandMap[Lower(band)] == Lower(band)
  {
  }

  /** Band validation ignores letter case: "40M" is as good as "40m". */
  lemma {:induction false} BandCaseInsensitive(band: string)
    ensures IsValidBand(Upper(band)) <==> IsValidBand(band)
  {
    assert Lower(Upper(band)) == Lower(band) by {
      forall i | 0 <= i < |band|
        ensures Lower(Upper(band))[i] == Lower(band)[i]
      {
        assert LowerChar(UpperChar(band[i])) == LowerChar(band[i]);
      }
    }
  }

  /** Mode validation ignores letter case, and the side-band and PSK
      variants collapse onto the name LdA uses. */
  lemma ModeAliases(mode: string)
    requires Upper(mode) in {"USB", "LSB", "PSK31", "PSK63", "DIGITALVOICE", "DIGI"}
    ensures IsValidMode(mode)
    ensures ModeMap[Upper(mode)] == (if Upper(mode) in {"USB", "LSB"} then "SSB"
                                     else if Upper(mode) in {"PSK31", "PSK63"} then "PSK"
                                     else if Upper(mode) == "DIGITALVOICE" then "DV"
                                     else "DIG")
  {
  }

  /** Only the listed bands pass: anything else, such as "11m", is refused. */
  lemma BandOutsideVocabulary()
    ensures !IsValidBand("11m") && !IsValidBand("60m") && IsValidBand("1.25CM")
  {
    assert Lower("11m") == "11m";
    assert Lower("60m") == "60m";
    assert Lower("1.25CM") == "1.25cm";
  }

  /** `this.config`: the LdA account. */
  datatype LdaConfig = LdaConfig(user: string, password: string, myCall: string)

  /** The fields of `qsoData` that `sendQso` reads; '' stands for a missing field. */
  datatype QsoData = QsoData(call: string, band: string, mode: string, date: string, time: string,
                             rst: string, message: string, stationCallsign: string)

  /** What `axios.get` gives: the body of the answer, or the error it raises
      with the body of the error answer, if any ('' when there is none). */
  datatype Reply =
    | Body(data: string)
    | TransportError(message: string, responseData: string)

  /** The object `sendQso` resolves to. */
  datatype SendResult = SendResult(success: bool, message: string)

  const NoStationMessage: string := "No se pudo determinar el indicativo de la estación (stationCallsign o myCall)"
  const NoAccountMessage: string := "Falta configuración de usuario, contraseña o indicativo"
  const NoCallMessage: string := "Falta call del corresponsal"
  const NoBandMessage: string := "Falta banda"
  const NoModeMessage: string := "Falta modo"
  const NoDateMessage: string := "Falta fecha"
  const NoTimeMessage: string := "Falta hora"
  const NoRstMessage: string := "Falta RST"
  const NoResponseMessage: string := "Sin respuesta del servidor"
  const BaseUrl: string := "https://www.lda.ar/php"
  const Endpoint: string := "/subeqso2.php"

  /** `stationCallsign || myCall`: the call sign the contact is uploaded for. */
  function TxCall(config: LdaConfig, qso: QsoData): (r: string)
    ensures r == qso.stationCallsign || r == config.myCall
    ensures r == "" <==> qso.stationCallsign == "" && config.myCall == ""
  {
    if qso.stationCallsign != "" then qso.stationCallsign else config.myCall
  }

  /** The message of the first check `sendQso` fails, in its order of checks,
      or `None` when all of them pass. */
  function Guard(config: LdaConfig, qso: QsoData): (r: Option<string>)
    ensures r.None? <==>
              TxCall(config, qso) != "" && config.user != "" && config.password != "" && config.myCall != ""
              && qso.call != "" && qso.band != "" && qso.mode != "" && qso.date != "" && qso.time != ""
              && qso.rst != "" && IsValidBand(qso.band) && IsValidMode(qso.mode)
  {
    if TxCall(config, qso) == "" then Some(NoStationMessage)
    else if config.user == "" || config.password == "" || config.myCall == "" then Some(NoAccountMessage)
    else if qso.call == "" then Some(NoCallMessage)
    else if qso.band == "" then Some(NoBandMessage)
    else if qso.mode == "" then Some(NoModeMessage)
    else if qso.date == "" then Some(NoDateMessage)
    else if qso.time == "" then Some(NoTimeMessage)
    else if qso.rst == "" then Some(NoRstMessage)
    else if !IsValidBand(qso.band) then Some("Banda no admitida en LdA: " + qso.band)
    else if !IsValidMode(qso.mode) then Some("Modo no admitido en LdA: " + qso.mode)
    else None
  }

  /** The account's own call sign is required even when the contact names the station. */
  lemma MyCallRequired(config: LdaConfig, qso: QsoData)
    requires qso.stationCallsign != "" && config.myCall == ""
    ensures Guard(config, qso) == Some(NoAccountMessage)
  {
  }

  /** The account is checked before the contact: a contact with nothing in it
      still reports the missing account first. */
  lemma AccountBeforeContact(config: LdaConfig, qso: QsoData)
    requires TxCall(config, qso) != "" && config.user == ""
    ensures Guard(config, qso) == Some(NoAccountMessage)
  {
  }

  /** The vocabularies are checked only after every field is present: an
      unknown band with no time reports the missing time. */
  lemma PresenceBeforeVocabulary(config: LdaConfig, qso: QsoData)
    requires TxCall(config, qso) != "" && config.user != "" && config.password != "" && config.myCall != ""
    requires qso.call != "" && qso.band != "" && qso.mode != "" && qso.date != "" && qso.time == ""
    ensures Guard(config, qso) == Some(NoTimeMessage)
  {
  }

  /** An unknown band is reported with the band as the contact gave it, before the mode is looked at. */
  lemma UnknownBandReported(config: LdaConfig, qso: QsoData)
    requires Guard(config, qso.(band := "40m")).None?
    requires qso.band != "" && !IsValidBand(qso.band)
    ensures Guard(config, qso) == Some("Banda no admitida en LdA: " + qso.band)
  {
    assert TxCall(config, qso) == TxCall(config, qso.(band := "40m"));
  }

  /** The query `sendQso` sends for a contact that passes every check. */
  function QsoQuery(config: LdaConfig, qso: QsoData): (q: seq<Param>)
    requires Guard(config, qso).None?
    ensures Names(q) == QueryNames
    ensures q[0].value == config.user && q[1].value == config.password
    ensures q[2].value == (if qso.stationCallsign != "" then qso.stationCallsign else config.myCall)
    ensures q[3].value == qso.call && q[4].value == Lower(qso.band) && q[5].value == ModeMap[Upper(qso.mode)]
    ensures q[6].value == Without(qso.date, '-')
    ensures forall i :: 0 <= i < |q[6].value| ==> q[6].value[i] != '-'
    ensures (forall i :: 0 <= i < |qso.date| ==> qso.date[i] != '-') ==> q[6].value == qso.date
    ensures q[7].value == (if |qso.time| == 6 then qso.time[..4] else qso.time)
    ensures q[8].value == qso.rst
    ensures |q[9].value| == (if |qso.message| < 100 then |qso.message| else 100)
    ensures q[9].value == qso.message[..|q[9].value|]
  {
    BandSentAsLowerCase(qso.band);
    Query(config.user, config.password, TxCall(config, qso), qso.call, BandMap[Lower(qso.band)],
          ModeMap[Upper(qso.mode)], Without(qso.date, '-'),
          if |qso.time| == 6 then qso.time[..4] else qso.time, qso.rst, Prefix(qso.message, 100))
  }

  /** A date written with dashes, YYYY-MM-DD, is sent as YYYYMMDD. */
  lemma {:induction false} DashedDateSent(config: LdaConfig, qso: QsoData, y: string, m: string, d: string)
    requires Guard(config, qso).None?
    requires qso.date == y + "-" + m + "-" + d
    requires forall i :: 0 <= i < |y| ==> y[i] != '-'
    requires forall i :: 0 <= i < |m| ==> m[i] != '-'
    requires forall i :: 0 <= i < |d| ==> d[i] != '-'
    ensures QsoQuery(config, qso)[6].value == y + m + d
  {
    DashesRemoved(y, m, d);
  }

  lemma {:induction false} DashesRemoved(y: string, m: string, d: string)
    requires forall i :: 0 <= i < |y| ==> y[i] != '-'
    requires forall i :: 0 <= i < |m| ==> m[i] != '-'
    requires forall i :: 0 <= i < |d| ==> d[i] != '-'
    ensures Without(y + "-" + m + "-" + d, '-') == y + m + d
  {
    DashDropped(y + "-" + m, d);
    DashDropped(y, m);
    assert Without(y, '-') == y && Without(m, '-') == m && Without(d, '-') == d;
  }

  /** One dash between two parts disappears. */
  lemma {:induction false} DashDropped(a: string, b: string)
    ensures Without(a + "-" + b, '-') == Without(a, '-') + Without(b, '-')
  {
    assert Without("-", '-') == "" by {
      assert "-"[0] == '-' && "-"[1..] == "";
    }
    WithoutConcat(a + "-", b, '-');
    WithoutConcat(a, "-", '-');
    assert Without(a + "-", '-') == Without(a, '-');
  }

  /** The answer's text: the trimmed body, or a stand-in when the body is empty. */
  function ResponseText(data: string): (r: string)
    ensures data == "" ==> r == NoResponseMessage
    ensures data != "" ==> r == Trim(data) && Trimmed(r) && |r| <= |data|
  {
    if data != "" then Trim(data) else NoResponseMessage
  }

  /** The words by which LdA's answer reports a refusal. */
  predicate Rejected(text: string) {
    Contains(text, "Error") || Contains(text, "Falta") || Contains(text, "no existe")
  }

  /** How `sendQso` turns what the transport gave into its result. */
  function Classify(reply: Reply): (r: SendResult)
    ensures r.success <==> reply.Body? && !Rejected(ResponseText(reply.data))
    ensures r.success ==> r.message == ResponseText(reply.data)
    ensures reply.Body? && !r.success ==> r.message == "Error en LdA: " + ResponseText(reply.data)
    ensures reply.TransportError? ==>
              r.message == (if reply.responseData != "" then reply.responseData else reply.message)
  {
    match reply
    case Body(data) =>
      var text := ResponseText(data);
      if Rejected(text) then SendResult(false, "Error en LdA: " + text) else SendResult(true, text)
    case TransportError(message, responseData) =>
      SendResult(false, if responseData != "" then responseData else message)
  }

  /** A string lacking one of the characters of `t` does not contain `t`. */
  lemma {:induction false} MissingCharNotContained(s: string, t: string, k: nat)
    requires k < |t|
    requires forall i :: 0 <= i < |s| ==> s[i] != t[k]
    ensures !Contains(s, t)
  {
    forall i: nat | i <= |s|
      ensures !OccursAt(s, t, i)
    {
      if i + |t| <= |s| {
        assert s[i..i + |t|][k] != t[k];
      }
    }
  }

  /** A character of `s` occurs in `s` as a one-letter string. */
  lemma CharContained(s: string, c: char, i: nat)
    requires i < |s| && s[i] == c
    ensures Contains(s, [c])
  {
    assert OccursAt(s, [c], i);
  }

  /** An empty answer counts as a success, with a stand-in message. */
  lemma EmptyBodySucceeds()
    ensures Classify(Body("")) == SendResult(true, NoResponseMessage)
  {
    var text := NoResponseMessage;
    assert text[0] == 'S' && forall i :: 0 <= i < |text| ==> text[i] != 'E' && text[i] != 'F' && text[i] != 'x';
    MissingCharNotContained(text, "Error", 0);
    MissingCharNotContained(text, "Falta", 0);
    MissingCharNotContained(text, "no existe", 4);
  }

  /** An answer of white space only is not empty: it is a success with an empty message. */
  lemma BlankBodySucceeds()
    ensures Classify(Body(" \r\n")) == SendResult(true, "")
  {
    assert ResponseText(" \r\n") == "";
    MissingCharNotContained("", "Error", 0);
    MissingCharNotContained("", "Falta", 0);
    MissingCharNotContained("", "no existe", 0);
  }

  /** A refusal from LdA is reported with its text after the prefix. */
  lemma RefusalReported(data: string)
    requires data != "" && Contains(Trim(data), "Falta")
    ensures Classify(Body(data)) == SendResult(false, "Error en LdA: " + Trim(data))
  {
  }

  /** An error answer from the server is reported by its body, and a failure
      with no answer by the transport's own message. */
  lemma TransportFailures(message: string, body: string)
    ensures !Classify(TransportError(message, body)).success
    ensures body != "" ==> Classify(TransportError(message, body)).message == body
    ensures body == "" ==> Classify(TransportError(message, body)).message == message
  {
  }

  /** `date.includes('-') ? date.replace(/-/g, '') : date`. */
  lemma {:induction false} WithoutWhenAbsent(s: string)
    requires !Contains(s, "-")
    ensures Without(s, '-') == s
  {
    forall i | 0 <= i < |s|
      ensures s[i] != '-'
    {
      if s[i] == '-' {
        CharContained(s, '-', i);
      }
    }
  }

  /** `LdaService`: an LdA client bound to one account. */
  class Service {
    const config: LdaConfig
    const baseUrl: string

    constructor (config: LdaConfig)
      ensures this.config == config && baseUrl == BaseUrl
    {
      this.config := config;
      baseUrl := BaseUrl;
    }

    /** `sendQso(qsoData)`, with `reply` standing for what the GET returns.
        A request (its query is the second result) is made only when every
        check passes; the first failed check is returned as the message; the
        method never fails. */
    method SendQso(qso: QsoData, reply: Reply) returns (result: SendResult, request: Option<seq<Param>>)
      ensures request.None? <==> Guard(config, qso).Some?
      ensures request.None? ==> result == SendResult(false, Guard(config, qso).value)
      ensures request.Some? ==> request.value == QsoQuery(config, qso) && result == Classify(reply)
    {
      var txCall := if qso.stationCallsign != "" then qso.stationCallsign else config.myCall;
      if txCall == "" {
        return SendResult(false, NoStationMessage), None;
      }
      if config.user == "" || config.password == "" || config.myCall == "" {
        return SendResult(false, NoAccountMessage), None;
      }
      if qso.call == "" {
        return SendResult(false, NoCallMessage), None;
      }
      if qso.band == "" {
        return SendResult(false, NoBandMessage), None;
      }
      if qso.mode == "" {
        return SendResult(false, NoModeMessage), None;
      }
      if qso.date == "" {
        return SendResult(false, NoDateMessage), None;
      }
      if qso.time == "" {
        return SendResult(false, NoTimeMessage), None;
      }
      if qso.rst == "" {
        return SendResult(false, NoRstMessage), None;
      }
      if Lower(qso.band) !in BandMap {
        return SendResult(false, "Banda no admitida en LdA: " + qso.band), None;
      }
      if Upper(qso.mode) !in ModeMap {
        return SendResult(false, "Modo no admitido en LdA: " + qso.mode), None;
      }

      var bandValue := BandMap[Lower(qso.band)];
      var modeValue := ModeMap[Upper(qso.mode)];
      var formattedDate := qso.date;
      if Contains(qso.date, "-") {
        formattedDate := Without(qso.date, '-');
      } else {
        WithoutWhenAbsent(qso.date);
      }
      var formattedTime := if |qso.time| == 6 then qso.time[..4] else qso.time;
      var cleanMessage := if qso.message != "" then Prefix(qso.message, 100) else "";

      var params := [Param("user", config.user)];
      params := params + [Param("pass", config.password)];
      params := params + [Param("micall", txCall)];
      params := params + [Param("sucall", qso.call)];
      params := params + [Param("banda", bandValue)];
      params := params + [Param("modo", modeValue)];
      params := params + [Param("fecha", formattedDate)];
      params := params + [Param("hora", formattedTime)];
      params := params + [Param("rst", qso.rst)];
      params := params + [Param("x_qslMSG", cleanMessage)];

      request := Some(params);
      result := Classify(reply);
    }
  }
}
