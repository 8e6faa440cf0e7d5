# LdA Uploader, modelled in Dafny

LdA Uploader is an Electron desktop application. It listens on a UDP port
for the QSO records that a ham-radio logging program (Log4OM, WSJT-X, JTDX,
N1MM Logger+) broadcasts when a contact is logged. It parses each ADIF record
and uploads it to LdA, the Argentine award and QSL log at `www.lda.ar`, using
the account kept in the application's configuration file. A renderer page
edits that configuration and shows the activity log.

This project models the core of the application and proves properties of it:

- `adif.dfy` (module `Adif`): the regex-driven ADIF parser of the main
  process, with its round trip from rendered fields back to the record.
- `relay.dfy` (module `Relay`): the main process. This covers the port each
  logging program is heard on and how a record becomes the query of the
  upload. It also covers the 'open-external' check, the UDP listener's
  state, and the 'save-config' handler, including its change detection and
  its restart of the listener. `class MainProcess` holds the module state
  that the handlers update in place.
- `config_store.dfy` (module `ConfigStore`): the configuration file, with
  its defaults, its password mask and its read/update operations, as
  `class Store`.
- `lda_service.dfy` (module `LdaService`): the second upload client, with
  its band and mode vocabularies, its validation order, its query and how
  it classifies LdA's answer.
- `udp_server.dfy` (module `UdpServer`): the stand-alone UDP server class
  and its start/stop state machine.
- `main_preload.dfy` (module `MainPreload`): the bridge the main window's
  preload exposes (`openExternal`, `onLog`, `saveConfig`).
- `ipc_allow_list.dfy` (module `IpcAllowList`): the IPC channel allow-list
  of the second preload, and its `invoke`/`on` wrappers.
- `config_manager.dfy` (module `ConfigManager`): the renderer's
  configuration form, the merge of a partial configuration, the listeners
  it notifies and its save.
- `renderer_app.dfy` (module `RendererApp`): the dashboard's status line,
  its port table and its section switching.
- `logger.dfy` (module `Logger`): the renderer's bounded activity log.
- `strings.dfy` and `values.dfy` (modules `Strings` and `Values`) hold the
  JavaScript semantics the rest relies on:
  - `trim`, ASCII `toUpperCase`/`toLowerCase`, `startsWith`, `includes`,
    `padStart` and number-to-string;
  - JavaScript values and their truthiness;
  - the shared name/value query both upload clients build.

Values that come from outside the program are inputs:

- the clock reading;
- the locale rendering of a date;
- the result of `JSON.parse` on a datagram;
- the HTTPS reply;
- the main process's answer to the bridge;
- whether the configuration file can be written.

The model makes these behaviours of the code explicit, each with a lemma:

- **Propagation mode.** `sendToLdA` passes a propagation mode to
  `safeEncode`, which is defined nowhere. Every record whose `PROP_MODE` is
  set and is not `N/A` therefore fails before any request is made
  (`Relay.PropagationModeFails`).
- **UDP socket after an error.** After an 'error' event the socket is kept
  and no longer listens. The retry finds it "already on that port" and does
  nothing (`Relay.RetryAfterErrorIsIdle`).
- **UDP server class after an error.** In the UDP server class, `stop()`
  after an error calls `close()` on a socket that is already closed, and
  `close()` throws there (`UdpServer.ErrorBlocksRestart`).
- **ADIF field lengths.** The ADIF scanner's name group stops at the first
  `:`, so the declared field length is never read. A value is the trimmed
  text up to the next `<` (`Adif.ParseClean`, `Adif.RenderedMatches`).
- **Port lookup and letter case.** The renderer looks the port up
  case-sensitively, while the main process lower-cases the name first
  (`RendererApp.CaseSensitiveMismatch`).
- **URL check.** The bridge lets any string starting with `http` through,
  while the main process opens only `http://` and `https://` URLs
  (`MainPreload.BridgeLooserThanMain`).

## Model

| member | source | states |
|---|---|---|
| Adif.IndexOfAny | src/main/main.js:29-32 | the position the tag regex's `[^>:]+` / `[^<]*` runs stop at: no stop character before it, a stop character at it unless it is the end |
| Adif.MatchAt | src/main/main.js:29-32 | a tag matched at `i` starts with `<`, has a non-empty name without `:` or `>`, and a value without `<` |
| Adif.NextMatch | src/main/main.js:32 | `exec` finds the first position from `lastIndex` where a tag matches, and no tag matches before it |
| Adif.MatchesFrom | src/main/main.js:29-32 | the matches `exec` yields from a position lie within the text, in order and without overlap |
| Adif.MatchesAreMatches | src/main/main.js:29-32 | each of those matches is the pattern's match at its own start, and there are none only when no tag matches anywhere from that position |
| Adif.ParseAdif | src/main/main.js:26-49 | the `while ((match = regex.exec(...)))` loop computes exactly `Parse(s)` |
| Adif.Collect | src/main/main.js:32-45 | storing matches only adds keys, stores the first match's key unless it is a terminator, and stores nothing when a terminator comes first |
| Adif.Parse | src/main/main.js:26-49 | every key of the record is upper-case, non-empty and without `:`, and every value is trimmed and holds no `<` |
| Adif.Stop | src/main/main.js:35-37 | the loop breaks at the first `EOR` or `EOH` tag: no tag before it is a terminator |
| Adif.MatchesWellFormed | src/main/main.js:29-32 | every match has a non-empty name without `:` and a value without `<` |
| Adif.ParseClean | src/main/main.js:33-45 | every key stored is upper-case without `:`, and every value is trimmed and holds no `<` |
| Adif.CollectStopsAtTerminator | src/main/main.js:35-37 | nothing after `<EOR>` reaches the record |
| Adif.CollectLastWins | src/main/main.js:32-45 | a key is in the record iff it was already there or a tag before `EOR` carries it, and then the last such tag's value wins |
| Adif.NoTagsEmpty | src/main/main.js:26-49 | a text with no `<` parses to the empty record |
| Adif.FieldMatch | src/main/main.js:29-34 | a rendered `<NAME:len>value` field is matched exactly, name and value recovered |
| Adif.EorStops | src/main/main.js:35-37 | a record that starts at `<EOR>` collects nothing |
| Adif.RenderedMatches | src/main/main.js:26-49 | parsing rendered readable fields followed by `<EOR>` stores exactly those fields, later ones overriding |
| Adif.ParseRendered | src/main/main.js:26-49 | round trip: `Parse(RenderAll(fs) + "<EOR>" + rest)` is the table of the fields, whatever follows |
| Adif.ExampleRecord | src/main/main.js:26-49 | `<CALL:6>LU5WSO<BAND:3>40m<MODE:3>CW<EOR>` parses to CALL, BAND and MODE with those values |
| ConfigStore.Complete | src/main/config.js:42-61 | what is saved is the given table over the defaults: every given key keeps its value, and every default key missing from it gets its default |
| ConfigStore.Load | src/main/config.js:29-39 | a readable file gives its table; a missing or unreadable one gives a copy of the defaults |
| ConfigStore.GetFrom | src/main/config.js:78-81 | `get(key)` is the stored value when the key is stored, else the default, and undefined iff it is neither |
| ConfigStore.SafeView | src/main/config.js:64-70 | the safe view keeps every key but the password, which is the mask when a password is set and empty otherwise |
| ConfigStore.Store.LoadConfig | src/main/config.js:29-39 | `loadConfig()` and `getAll()` give the file's table, or the defaults without one |
| ConfigStore.Store.GetSafeConfig | src/main/config.js:64-70 | the stored table with every key but the password kept, and the password the mask or empty, empty iff none is set |
| ConfigStore.Store.Get | src/main/config.js:78-81 | the stored value when the key is stored, else the default (undefined without one) |
| ConfigStore.Store.Has | src/main/config.js:98-101 | true iff the key is stored; a stored key always has a value, and a key neither stored nor a default has none |
| ConfigStore.Store.SaveConfig | src/main/config.js:42-61 | a save succeeds iff the file is writable, and then the file holds the completed table; otherwise the file is unchanged |
| ConfigStore.Store.Set | src/main/config.js:84-95 | `set(key, value)` returns the value and writes the loaded table with that key updated, completed with the defaults |
| ConfigStore.Store.DeleteKey | src/main/config.js:104-112 | `deleteKey` reports whether the key was stored, and writes the table without it only then |
| ConfigStore.Store.Clear | src/main/config.js:115-118 | `clear()` writes the defaults |
| ConfigStore.SavedHasDefaults | src/main/config.js:6-13 | a saved file has every default key and keeps every saved value |
| ConfigStore.SetThenGet | src/main/config.js:78-95 | `get` after `set` of a key returns the value set and leaves every other key's value as it was |
| ConfigStore.DeleteDefaultKeyReturns | src/main/config.js:104-112 | deleting a key that has a default brings the default back on the next load |
| ConfigStore.DeleteOtherKeyRemoves | src/main/config.js:104-112 | deleting a key without a default removes it |
| ConfigStore.CompleteIdempotent | src/main/config.js:42-61 | completing an already completed table changes nothing |
| ConfigStore.SafeViewHidesPassword | src/main/config.js:64-70 | the safe view never holds the password: only the mask or the empty string, the latter iff no password is set |
| Values.Query | src/main/main.js:663-672 | the ten query parameters are named `user` … `x_qslMSG` in that order and carry the given values |
| Relay.PortForSoftware | src/main/main.js:225-228 | n1mm → 12060, wsjtx and jtdx → 2333, anything else (and a missing name) → 2233, after lower-casing |
| Relay.PortIgnoresCase | src/main/main.js:225-228 | two names that differ only in letter case get the same port |
| Relay.SoftwareName | src/main/main.js:480-482 | `software \|\| 'log4om'` fails (the `toLowerCase` throws) iff the value is truthy and not a string, and is never empty |
| Relay.FirstFilled | src/main/main.js:588-595 | the `a \|\| b \|\| c` chains stop at the first present, non-empty field |
| Relay.Pick | src/main/main.js:588-595 | a resolved field is the first non-empty candidate, or the default when there is none |
| Relay.OrElse | src/main/main.js:666-672 | `value \|\| fallback` is one of the two, and is non-empty when the fallback is |
| Relay.CleanValue | src/main/main.js:640-643 | `cleanValue` is always trimmed, '' for null and undefined, and the trimmed text of a string |
| Relay.ActualPassword | src/main/main.js:645-648 | the mask in memory is replaced by the stored password; any other password is sent as held in memory, so the mask is sent only when the store holds the mask |
| Relay.DisplayDate | src/main/main.js:598-614 | an eight-digit ADIF date is shown as DD/MM/YYYY; any other date is the runtime's rendering |
| Relay.DisplayDateRoundTrip | src/main/main.js:598-614 | the DD/MM/YYYY text holds exactly the digits of the ADIF date and is already trimmed |
| Relay.ClockDigits | src/main/main.js:627-631 | the clock's time is four digits whose halves read back as hours and minutes |
| Relay.TimeDigits | src/main/main.js:617-634 | `hora` is always four digits: the first four digits of the time, or its digits left-padded with zeros, or the clock's time when it has no digit |
| Relay.ClockOnlyWithoutDigits | src/main/main.js:617-634 | the clock matters only for a time with no digit |
| Relay.TimeDigitsIdempotent | src/main/main.js:617-634 | formatting a formatted time changes nothing |
| Relay.UploadFor | src/main/main.js:574-732 | `sendToLdA` sends nothing iff username, password or callsign is missing; it fails only for want of a password or in `safeEncode`; otherwise it is a GET of `www.lda.ar/php/subeqso.php` with the ten parameters in order, call/band/mode never empty and `hora` four digits |
| Relay.QueryFor | src/main/main.js:663-672 | the query carries the ten parameter names in order |
| Relay.FormatQsoDate | src/main/main.js:598-614 | the date-formatting steps compute `DisplayDate` |
| Relay.FormatTimeOn | src/main/main.js:616-634 | the time-formatting steps compute `TimeDigits` |
| Relay.SendToLdA | src/main/main.js:574-732 | the function, step by step, does exactly what `UploadFor` states |
| Relay.PasswordCheck | src/main/main.js:645-652 | with credentials present, the upload fails for want of a password iff the password to send is missing or empty |
| Relay.PlaceholderReplaced | src/main/main.js:645-648 | when memory holds the mask `********`, the password sent is the one the store holds |
| Relay.PropagationModeFails | src/main/main.js:675-677 | once the password is known, the upload fails iff a propagation mode other than `N/A` is given |
| Relay.EmptyRecordDefaults | src/main/main.js:588-672 | an empty record is sent as NOCALL, `?`, `?`, the runtime's date, the clock's time, `59` and `73 & DX` |
| Relay.SentDate | src/main/main.js:598-669 | an ADIF date reaches LdA as a ten-character date holding the same digits |
| Relay.OpensExternal | src/main/main.js:375-387 | a URL is opened only when it is a string starting with `http` (the handler requires `http://` or `https://`) |
| Relay.Rebind | src/main/main.js:237-320 | a socket already on the port is left alone; otherwise the old one is closed and a new one is bound there and listening |
| Relay.RetryAfterErrorIsIdle | src/main/main.js:257-266 | after a socket error the retry finds the socket on its port, binds nothing, and the listener stays deaf |
| Relay.WithSoftware | src/main/main.js:472-474 | the received configuration gains a truthy `software`, and every other key keeps its value |
| Relay.SaveCheck | src/main/main.js:464-482 | the handler proceeds iff username and callsign are truthy and both software names are strings or absent, with the username checked first |
| Relay.FirstChanged | src/main/main.js:486-493 | the `some(...)` scan stops at a key whose stored and new values differ, and finds none iff no key differs |
| Relay.SaveFor | src/main/main.js:438-571 | the handler refuses iff a check fails or a change cannot be written; the file changes only on success; the listener is touched only when a saved change renames the software; at most one updated field is reported |
| Relay.CredentialsRequired | src/main/main.js:464-469 | without username or callsign the handler refuses with the message for the first one missing and writes nothing, having merged the configuration in memory |
| Relay.SavedTable | src/main/main.js:506-529 | a written file holds every received key's value, every default key, and `software`, which is `log4om` when none was given |
| Relay.UpdatedFieldChanged | src/main/main.js:486-516 | the reported updated field is a received key whose value differs, and the file then holds the stored table overwritten by the received one |
| Relay.NoChangesKeepSoftware | src/main/main.js:480-503 | a configuration that changes no key cannot change the software |
| Relay.SoftwareCaseIgnored | src/main/main.js:480-482 | renaming the software only in letter case does not restart the listener |
| Relay.SoftwareRenameRestarts | src/main/main.js:480-482 | a written change reports `softwareChanged` exactly when the software name differs ignoring case, and then (main.js:535-538) rebinds the listener on the new software's port; otherwise the listener is untouched |
| Relay.MainProcess.StartUdpServer | src/main/main.js:231-343 | the listener rebinds on the configured software's port, and changes nothing when the software is not a string |
| Relay.MainProcess.OnSocketError | src/main/main.js:257-266 | an 'error' event leaves the socket in place and not listening |
| Relay.MainProcess.OnDatagram | src/main/main.js:268-308 | a blank datagram is dropped; otherwise the record (the JSON object, or the parsed ADIF) is uploaded as `UploadFor` states |
| Relay.MainProcess.FindChange | src/main/main.js:486-493 | the scan computes `FirstChanged` |
| Relay.MainProcess.WriteConfig | src/main/main.js:506-529 | after each `set` the file holds its starting table with the keys written so far over it and the defaults underneath; after the final save it is the completed table iff it is writable |
| Relay.MainProcess.HandleSaveConfig | src/main/main.js:438-571 | a second save while one is running is refused and changes nothing; otherwise the busy flag is cleared, the cache dropped, and reply, memory, file and listener are those of `SaveFor` |
| LdaService.Substring | src/main/lda-service.js:67-73 | JavaScript `substring`: the slice when in range, empty past the end |
| LdaService.FormatDate | src/main/lda-service.js:67-73 | an eight-character date becomes ten characters with `/` at positions 2 and 5 |
| LdaService.FormatDateRoundTrip | src/main/lda-service.js:67-73 | the year, month and day of the formatted date put back together give the input |
| LdaService.FormatDateOfYear | src/main/lda-service.js:67-73 | a four-character input gives `//` followed by it: the function does not check its input |
| LdaService.IsValidBand | src/main/lda-service.js:76-78 | a valid band is a key of the band table after lower-casing, and is sent as that lower-case spelling |
| LdaService.IsValidMode | src/main/lda-service.js:80-82 | a valid mode is a key of the mode table after upper-casing, and is sent as a non-empty upper-case LdA name |
| LdaService.BandSentAsLowerCase | src/main/lda-service.js:10-29 | a valid band is sent as its lower-case spelling |
| LdaService.BandCaseInsensitive | src/main/lda-service.js:76-78 | band validity ignores letter case |
| LdaService.ModeAliases | src/main/lda-service.js:32-64 | USB and LSB are sent as SSB, PSK31 and PSK63 as PSK, DIGITALVOICE as DV, DIGI as DIG |
| LdaService.BandOutsideVocabulary | src/main/lda-service.js:10-29 | 11m and 60m are refused and 1.25CM is accepted |
| LdaService.TxCall | src/main/lda-service.js:93-97 | the transmitting call is the record's station call, else the configured call, and is empty iff both are |
| LdaService.Guard | src/main/lda-service.js:93-125 | the record is accepted iff every check passes; the first failing check's message is returned |
| LdaService.MyCallRequired | src/main/lda-service.js:93-104 | even with a station call in the record, a missing configured call is reported as missing account data |
| LdaService.AccountBeforeContact | src/main/lda-service.js:95-111 | account data is checked before the contact's fields |
| LdaService.PresenceBeforeVocabulary | src/main/lda-service.js:106-119 | a missing time is reported before band and mode are validated |
| LdaService.UnknownBandReported | src/main/lda-service.js:115-119 | a band outside the vocabulary is reported with its name |
| LdaService.QsoQuery | src/main/lda-service.js:127-154 | the ten parameters in order: account, transmitting call, contact call, lower-case band, mapped mode, the date with every dash removed and its other characters kept in order, the time cut to HHMM when six long, RST, and the comment cut to its first 100 characters |
| LdaService.DashedDateSent | src/main/lda-service.js:146-147 | a date written YYYY-MM-DD is sent as YYYYMMDD |
| Strings.Without | src/main/lda-service.js:146 | `replace(/-/g, '')` leaves no dash, keeps every other character as many times as it occurs, and leaves a dash-free text alone |
| Strings.WithoutConcat | src/main/lda-service.js:146 | the removal works part by part, so the remaining characters keep their order |
| LdaService.ResponseText | src/main/lda-service.js:172 | an empty body reads as "Sin respuesta del servidor"; any other is exactly the trimmed body |
| LdaService.Classify | src/main/lda-service.js:172-213 | success iff a body came back whose text mentions none of `Error`, `Falta`, `no existe`; a refusal is prefixed `Error en LdA: `; a transport error reports the response body, else its message |
| LdaService.MissingCharNotContained | src/main/lda-service.js:175 | a text lacking any one character of a word does not contain the word |
| LdaService.EmptyBodySucceeds | src/main/lda-service.js:172-186 | an empty body counts as success with the no-response text |
| LdaService.BlankBodySucceeds | src/main/lda-service.js:172-186 | a body of blanks counts as success with an empty message |
| LdaService.RefusalReported | src/main/lda-service.js:172-180 | a body mentioning `Falta` is reported as a failure, with the trimmed text |
| LdaService.TransportFailures | src/main/lda-service.js:187-213 | a transport error never succeeds, and reports the body when there is one |
| LdaService.WithoutWhenAbsent | src/main/lda-service.js:146-147 | a date without dashes is sent unchanged |
| LdaService.Service.SendQso | src/main/lda-service.js:86-214 | no request is made iff a check fails, and the result is then that check's message; otherwise the request carries `QsoQuery` and the result is the classified reply |
| UdpServer.SoftwareByPort | src/main/udp-server.js:62-69 | 2233 ↔ log4om, 2333 ↔ wsjtx, 12060 ↔ n1mm, anything else ↔ unknown, in both directions |
| UdpServer.JtdxReportedAsWsjtx | src/main/udp-server.js:62-69 | JTDX's port is reported as wsjtx, and jtdx is never reported |
| UdpServer.StopState | src/main/udp-server.js:53-60 | stopping a running, open socket gives the idle state; stopping an errored one throws |
| UdpServer.StartState | src/main/udp-server.js:11-51 | starting on the current port does nothing; otherwise the old socket is stopped and a new one is open on the port |
| UdpServer.ErrorState | src/main/udp-server.js:23-27 | an error closes the socket but keeps it and its port |
| UdpServer.StartIdempotent | src/main/udp-server.js:13 | starting twice on the same port is starting once |
| UdpServer.ErrorLeavesListenerClosed | src/main/udp-server.js:13-27 | after an error, starting on the same port does nothing and the socket stays closed |
| UdpServer.ErrorBlocksRestart | src/main/udp-server.js:16-27 | after an error, starting on another port and stopping both throw |
| UdpServer.StopAfterStart | src/main/udp-server.js:11-60 | stop after a successful start ends idle, except after an error on that same port |
| UdpServer.Server.Stop | src/main/udp-server.js:53-60 | the server's state follows `StopState`, and a 'stopped' event is emitted when a running server stops |
| UdpServer.Server.Start | src/main/udp-server.js:11-51 | the server's state follows `StartState`; a bind happens only when the state changes; a throw changes nothing |
| UdpServer.Server.OnError | src/main/udp-server.js:23-27 | an error event is emitted and the state becomes `ErrorState` |
| UdpServer.Server.OnListening | src/main/udp-server.js:44-48 | a 'listening' event with the port is emitted |
| UdpServer.Server.OnMessage | src/main/udp-server.js:29-42 | a message event names the software that the port belongs to |
| MainPreload.OpenExternal | src/main/preload.js:6-12 | the URL is passed to 'open-external' iff it is a string starting with `http`; otherwise the call rejects with "URL inválida" |
| MainPreload.BridgeLooserThanMain | src/main/preload.js:6-12 | every URL the main process opens passes the bridge, but `httpx://…` passes the bridge and is refused by the main process |
| MainPreload.ForwardLog | src/main/preload.js:16-44 | a log message reaches the callback unchanged unless it is undefined, null or empty |
| MainPreload.FalsyMessagesDelivered | src/main/preload.js:27-30 | `0` and `false` are delivered |
| MainPreload.LogChannel.OnLog | src/main/preload.js:16-44 | a handler is registered iff the callback is a function |
| MainPreload.Sanitized | src/main/preload.js:63-66 | what is sent is the configuration minus a password that is the mask, bullets, or empty |
| MainPreload.Answer | src/main/preload.js:76-88 | the call resolves iff the main process answered with a success; no answer and a refusal reject with their messages |
| MainPreload.SaveFor | src/main/preload.js:47-93 | a non-object is rejected, a configuration without username or callsign is rejected, and otherwise the sanitised configuration is sent and the answer decides the outcome |
| MainPreload.SentConfigIsClean | src/main/preload.js:52-66 | what is sent has username and callsign and no placeholder password |
| MainPreload.MaskedPasswordKept | src/main/preload.js:63-66 | a masked password is not sent, so the main process's merge keeps its stored password |
| MainPreload.SaveConfig | src/main/preload.js:47-93 | the call is `SaveFor` of the object the bridge received, and a kept password is deleted from that object, which is the context bridge's copy of the renderer's argument (main.js:101 isolates the renderer) |
| IpcAllowList.Allowed | src/preload/preload.js:12-42 | only the SEND and RECEIVE directions have lists |
| IpcAllowList.ValidChannels | src/preload/preload.js:45-47 | a channel is valid iff it is in the list of its direction |
| IpcAllowList.DirectionsDisjoint | src/preload/preload.js:12-42 | no channel can be both invoked and received |
| IpcAllowList.MainHandlersNotInvocable | src/preload/preload.js:12-42 | 'save-config', 'open-external' and 'load-config' cannot be invoked through this bridge |
| IpcAllowList.Bridge.Invoke | src/preload/preload.js:53-59 | a send channel is forwarded with its arguments; any other is rejected with `Invalid channel: <channel>` and no IPC |
| IpcAllowList.Bridge.On | src/preload/preload.js:62-70 | a listener is registered iff the channel is a receive channel |
| IpcAllowList.Bridge.OnLda | src/preload/preload.js:121-130 | the LdA listeners are registered iff the callback is a function, without the allow-list |
| ConfigManager.FieldText | src/renderer/js/configManager.js:54-65 | a text field is trimmed, and the callsign is also upper-cased |
| ConfigManager.FormData | src/renderer/js/configManager.js:51-73 | the form holds each present field whose text is not the mask, trimmed (callsign upper-case), and each present checkbox's state |
| ConfigManager.CollectText | src/renderer/js/configManager.js:54-65 | the text-field loop computes `TextData` |
| ConfigManager.CollectChecks | src/renderer/js/configManager.js:68-73 | the checkbox loop adds `CheckData` |
| ConfigManager.CollectFormData | src/renderer/js/configManager.js:51-73 | the form loops compute `FormData` |
| ConfigManager.FormDataClean | src/renderer/js/configManager.js:54-65 | a masked password is never collected, and the collected callsign is trimmed and has no lower-case letter |
| ConfigManager.Changes | src/renderer/js/configManager.js:219-237 | a key changes iff it is given, not skipped, and differs from the current value |
| ConfigManager.Merge | src/renderer/js/configManager.js:219-237 | given, not-skipped values overwrite; every other key keeps its current value |
| ConfigManager.MergeIsOverwrite | src/renderer/js/configManager.js:219-237 | the merge is the current table overwritten by the kept part of the partial one |
| ConfigManager.MergeIdempotent | src/renderer/js/configManager.js:219-244 | merging the same partial configuration twice changes nothing more and finds no change |
| ConfigManager.MergeChanges | src/renderer/js/configManager.js:219-244 | the merge loop computes `Merge` and reports a change iff `Changes` is non-empty |
| ConfigManager.Deliveries | src/renderer/js/configManager.js:25-33 | each listener, in order, receives the configuration once |
| ConfigManager.SaveFor | src/renderer/js/configManager.js:181-294 | an absent or empty partial configuration fails; no change succeeds without saving; otherwise the call succeeds iff the bridge resolves, and then the merged table itself, password included, is recorded |
| ConfigManager.RecordedKeepsMask | src/renderer/js/configManager.js:254-259 | a masked password read back and left alone is recorded and given to the listeners after a save, although the bridge does not send it |
| ConfigManager.RefusalReported | src/renderer/js/configManager.js:251-275 | a refused or unanswered save fails and saves nothing |
| ConfigManager.NoUserNoSave | src/renderer/js/configManager.js:251-275 | a merged configuration without username is never saved |
| ConfigManager.MaskedPasswordNeverSent | src/renderer/js/configManager.js:219-263 | a stored mask that the partial configuration does not replace never reaches the main process |
| ConfigManager.Manager.OnConfigChange | src/renderer/js/configManager.js:17-22 | a function is added to the listeners, and the manager is returned |
| ConfigManager.Manager.NotifyConfigChange | src/renderer/js/configManager.js:25-33 | the listeners receive the configuration, in order |
| ConfigManager.Manager.SaveConfig | src/renderer/js/configManager.js:181-294 | an absent or empty configuration, or a save already running, fails and changes nothing; otherwise the busy flag is cleared and the result, the last saved table and the listener calls follow `SaveFor`, with the merged table rather than the bridge's copy recorded and delivered |
| RendererApp.PortFor | src/renderer/js/app.js:88-96 | the port of a name found exactly in the table, 2233 otherwise |
| RendererApp.PortsAgreeOnLowerCase | src/renderer/js/app.js:88-96 | for the four lower-case names the renderer and the main process agree |
| RendererApp.CaseSensitiveMismatch | src/renderer/js/app.js:88-96 | for `N1MM` the dashboard shows 2233 while the main process listens on 12060 |
| RendererApp.DisplayName | src/renderer/js/app.js:65-72 | a known software shows its display name, any other its own name |
| RendererApp.StatusFor | src/renderer/js/app.js:62-85 | the status shows the display name and the renderer's port |
| RendererApp.InitialStatus | src/renderer/js/app.js:26-36 | no software shows Log4OM on 2233; a string shows its status; a non-string falls back to the default line |
| RendererApp.ChangedStatus | src/renderer/js/app.js:17-23 | the listener updates the status iff the new software is a truthy string |
| RendererApp.ChangeAgreesWithStart | src/renderer/js/app.js:17-36 | the listener and the start-up show the same name and port |
| RendererApp.LoggedIffTruthy | src/renderer/js/app.js:50-55 | with the bridge's filter, exactly the truthy messages are logged; `0` passes the bridge and is dropped here |
| RendererApp.Shown | src/renderer/js/app.js:304-320 | each of the four sections present is shown iff it is the one asked for; other elements are untouched |
| RendererApp.UnknownSectionHidesAll | src/renderer/js/app.js:304-320 | asking for an unknown section hides all four |
| RendererApp.Page.LoadSection | src/renderer/js/app.js:304-320 | the loop leaves the page as `Shown` states |
| Logger.MakeEntry | src/renderer/js/logger.js:13-17 | the entry has class `log-entry log-<type>` and text `[<time>] <message>` |
| Logger.Appended | src/renderer/js/logger.js:13-32 | the new entry is appended, and the oldest is dropped once there are more than 100 |
| Logger.AppendedBounded | src/renderer/js/logger.js:23-26 | the log never grows past 100, the new entry is last, and the others keep their order |
| Logger.FullLogSlides | src/renderer/js/logger.js:23-26 | a full log stays full and loses exactly its oldest entry |
| Logger.Logger.Log | src/renderer/js/logger.js:13-32 | the entries become `Appended` of the old ones and the new entry, of type `info` when none is given |
| Logger.Logger.Error | src/renderer/js/logger.js:34-36 | logs with type `error` |
| Logger.Logger.Success | src/renderer/js/logger.js:38-40 | logs with type `success` |
| Logger.Logger.Clear | src/renderer/js/logger.js:42-44 | the log is emptied |

## Left out

- Sockets, HTTPS, the shell, timers and the DOM are left out. Each is
  represented by its effect on state or by an input: the bind list, the
  request built, the reply, and the visibility table. The five-second retry
  after a UDP error is modelled as a second call.
- Reading and parsing the configuration file is left out: the file is a
  table or absent. `JSON.parse` of a datagram is an input.
- Logging to the console and to the window is left out, because it only
  reports.
- The 'load-config' handler, `initializeConfig`, the cache of
  `_loadConfigInternal`, the renderer's `main.js`, and the window and tray
  code are left out. They only move data the model already covers.
- URL encoding by `URLSearchParams` is left out. The query is kept as
  name/value pairs.
- Properties inherited from the JavaScript prototype are left out: in
  JavaScript, `isValidBand("constructor")` holds, and a direction of
  `"constructor"` makes `isValidChannel` throw.
- Letter case: `toUpperCase`/`toLowerCase` are modelled on ASCII letters
  only.
- Relay.FirstChanged: compares values structurally, not by their
  `JSON.stringify` text, so the key order inside nested objects does not
  count.
- Relay.SaveFor: the answer to a configuration that changes nothing is
  modelled with `softwareChanged` false; the source leaves that field out.
- Relay.MainProcess.OnDatagram: a JSON record is taken as a table of strings. A field that is a
  JSON number (`{"QSO_DATE":20240115}`) makes `substring` throw in the source, which is caught and
  sends nothing; a JSON `null` record throws on `qso.CALL`. Neither case can be expressed here.
- ConfigManager.Changes: compares values structurally, not by their `JSON.stringify` text, so the
  key order inside nested objects does not count.
- MainPreload.SaveFor: JavaScript arrays are not among the modelled values. In the source an array
  passes the `typeof config !== 'object'` test and is then refused with the missing-fields message.
- LdaService.ResponseText: only string bodies are modelled, and a non-string
  `response.data` is not.
- The unsubscribe functions that `on` (src/preload/preload.js:66) and `onLog`
  (src/main/preload.js:41-43) return are left out.
- Values.Value: numbers are integers only. Fractions, NaN (falsy in JavaScript) and the
  infinities are not modelled; no operation of the core depends on them.
- ConfigManager.SaveFor: arrays and other non-object arguments are treated
  as no configuration.
- A date that is not eight digits reaches `fecha` as the runtime's locale
  rendering, which is an input.
- The clock is an input.
