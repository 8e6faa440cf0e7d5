/** The dashboard of the renderer (src/renderer/js/app.js): which logging
    program and port it says the relay listens for, and which section of the
    page is shown. The page's elements are a map from section to visibility. */
module RendererApp {
  import opened Values
  import opened Strings
  import Relay
  import MainPreload

  /** The table of `getPortForSoftware`. */
  const Ports: map<string, int> := map["log4om" := 2233, "wsjtx" := 2333, "jtdx" := 2333, "n1mm" := 12060]

  /** The default port, for Log4OM. */
  const DefaultPort: int := 2233

  /** `getPortForSoftware(software)`: an exact-name lookup, the default otherwise. */
  function PortFor(software: string): (port: int)
    ensures software in Ports ==> port == Ports[software]
    ensures software !in Ports ==> port == DefaultPort
  {
    if software in Ports then Ports[software] else DefaultPort
  }

  /** The renderer and the main process agree on the four lower-case names. */
  lemma PortsAgreeOnLowerCase(software: string)
    requires software in Ports
    ensures PortFor(software) == Relay.PortForSoftware(software)
  {
    assert Lower(software) == software;
  }

  /** The renderer's lookup is case-sensitive and the main process's is not:
      for "N1MM" the dashboard shows 2233 while the relay listens on 12060. */
  lemma CaseSensitiveMismatch()
    ensures PortFor("N1MM") == 2233
    ensures Relay.PortForSoftware("N1MM") == 12060
  {
    assert Lower("N1MM") == "n1mm";
  }

  /** The names the status line shows. */
  const DisplayNames: map<string, string> :=
    map["log4om" := "Log4OM", "wsjtx" := "WSJT-X", "jtdx" := "JTDX", "n1mm" := "N1MM Logger+"]

  /** `softwareNames[software] || software`. */
  function DisplayName(software: string): (r: string)
    ensures software in DisplayNames ==> r == DisplayNames[software]
    ensures software !in DisplayNames ==> r == software
  {
    if software in DisplayNames then DisplayNames[software] else software
  }

  /** What the status line shows, and the line logged with it. */
  datatype Status = Status(name: string, port: int, line: string)

  /** The status for a software name, logged with `prefix`. */
  function StatusFor(software: string, prefix: string): (s: Status)
    ensures s.name == DisplayName(software) && s.port == PortFor(software)
  {
    Status(DisplayName(software), PortFor(software),
           prefix + "Esperando datos de " + Upper(software) + " en el puerto " + IntToString(PortFor(software)) + "...")
  }

  /** The status shown when reading the configuration fails. */
  const FallbackStatus: Status := Status("Log4OM", 2233, "Esperando datos en el puerto 2233 (Log4OM)...")

  /** The status `initialize` shows for the configuration it reads: the
      configured software, Log4OM when none is set, and the fallback when
      the value is not a string (its `toUpperCase` throws). */
  function InitialStatus(config: map<string, Value>): (s: Status)
    ensures !TruthyAt(config, "software") ==> s.name == "Log4OM" && s.port == 2233
    ensures TruthyAt(config, "software") && config["software"].Str? ==>
              s == StatusFor(config["software"].s, "")
    ensures TruthyAt(config, "software") && !config["software"].Str? ==> s == FallbackStatus
  {
    if !TruthyAt(config, "software") then StatusFor("log4om", "")
    else if config["software"].Str? then StatusFor(config["software"].s, "")
    else FallbackStatus
  }

  /** The status the configuration-change listener shows: nothing without a
      software, and nothing when the listener throws on a non-string. */
  function ChangedStatus(config: map<string, Value>): (s: Option<Status>)
    ensures s.Some? <==> TruthyAt(config, "software") && config["software"].Str?
    ensures s.Some? ==> s.value == StatusFor(config["software"].s, "Configuración actualizada: ")
  {
    if TruthyAt(config, "software") && config["software"].Str? then
      Some(StatusFor(config["software"].s, "Configuración actualizada: "))
    else None
  }

  /** The listener and `initialize` agree on where the data is awaited. */
  lemma ChangeAgreesWithStart(config: map<string, Value>)
    requires ChangedStatus(config).Some?
    ensures ChangedStatus(config).value.name == InitialStatus(config).name
    ensures ChangedStatus(config).value.port == InitialStatus(config).port
  {
  }

  /** Whether a message from the main process reaches the activity log: the
      bridge drops `undefined`, `null` and '', and the page drops what is falsy. */
  predicate Logged(message: Option<Value>) {
    MainPreload.ForwardLog(message).Some? && Truthy(MainPreload.ForwardLog(message).value)
  }

  /** The two filters together keep exactly the truthy messages; `0`, which
      the bridge lets through, the page drops. */
  lemma LoggedIffTruthy(message: Option<Value>)
    ensures Logged(message) <==> message.Some? && Truthy(message.value)
    ensures MainPreload.ForwardLog(Some(Num(0))).Some? && !Logged(Some(Num(0)))
  {
  }

  /** The sections of the page. */
  const Sections: seq<string> := ["dashboard", "settings", "logs", "about"]

  /** The visibility `loadSection(section)` leaves: each section present on
      the page is shown exactly when it is the one asked for. */
  function Shown(visible: map<string, bool>, section: string): (r: map<string, bool>)
    ensures r.Keys == visible.Keys
    ensures forall s :: s in r && s in Sections ==> (r[s] <==> s == section)
    ensures forall s :: s in r && s !in Sections ==> r[s] == visible[s]
  {
    map s | s in visible :: if s in Sections then s == section else visible[s]
  }

  /** Asking for a section that is not one of the four hides all four. */
  lemma UnknownSectionHidesAll(visible: map<string, bool>, section: string)
    requires section !in Sections
    ensures forall s :: s in Sections && s in visible ==> !Shown(visible, section)[s]
  {
  }

  class Page {
    /** The section elements present, and whether each is displayed. */
    var visible: map<string, bool>

    constructor (visible: map<string, bool>)
      ensures this.visible == visible
    {
      this.visible := visible;
    }

    /** `loadSection(section)`. */
    method LoadSection(section: string) returns (done: bool)
      modifies this
      ensures done
      ensures visible == Shown(old(visible), section)
    {
      for i := 0 to |Sections|
        invariant visible.Keys == old(visible).Keys
        invariant forall s :: s in visible ==>
                    visible[s] == if s in Sections[..i] then s == section else old(visible)[s]
      {
        var sec := Sections[i];
        if sec in visible {
          visible := visible[sec := sec == section];
        }
      }
      assert Sections[..|Sections|] == Sections;
      done := true;
    }
  }
}
