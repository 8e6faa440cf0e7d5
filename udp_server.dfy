/** The UDP listener object of src/main/udp-server.js: one datagram socket at
    a time, bound to one port, announcing what happens to it as events. The
    socket is abstracted to whether it exists and whether it is still open. */
module UdpServer {
  import opened Values
  import Relay
  import Strings

  /** `getSoftwareByPort(port)`, `None` standing for a `null` port. */
  function SoftwareByPort(port: Option<int>): (r: string)
    ensures r == "log4om" <==> port == Some(2233)
    ensures r == "wsjtx" <==> port == Some(2333)
    ensures r == "n1mm" <==> port == Some(12060)
    ensures r == "unknown" <==> port !in {Some(2233), Some(2333), Some(12060)}
  {
    match port
    case Some(2233) => "log4om"
    case Some(2333) => "wsjtx"
    case Some(12060) => "n1mm"
    case _ => "unknown"
  }

  /** A relay configured for JTDX listens on WSJT-X's port, so its datagrams
      are announced as coming from WSJT-X; the name "jtdx" is never reported. */
  lemma JtdxReportedAsWsjtx()
    ensures SoftwareByPort(Some(Relay.PortForSoftware("jtdx"))) == "wsjtx"
    ensures forall p :: SoftwareByPort(p) != "jtdx"
  {
    assert Strings.Lower("jtdx") == "jtdx";
  }

  /** The fields `server` and `port`, with the server's socket reduced to
      whether it is still open. */
  datatype State = State(running: bool, open: bool, port: Option<int>)

  /** The state of a fresh server. */
  const Idle: State := State(false, false, None)

  /** `stop()`: closes and forgets the socket, or `None` when `close()` is
      called on a socket that an error already closed and therefore throws. */
  function StopState(s: State): (r: Option<State>)
    ensures r.None? <==> s.running && !s.open
    ensures r.Some? ==> r.value == if s.running then Idle else s
  {
    if !s.running then Some(s)
    else if !s.open then None
    else Some(Idle)
  }

  /** `start(p)`: the state afterwards, or `None` when the `stop()` it calls throws. */
  function StartState(s: State, p: int): (r: Option<State>)
    ensures s.running && s.port == Some(p) ==> r == Some(s)
    ensures !(s.running && s.port == Some(p)) ==>
              (r.None? <==> s.running && !s.open)
              && (r.Some? ==> r.value == State(true, true, Some(p)))
  {
    if s.running && s.port == Some(p) then Some(s)
    else if s.running then
      match StopState(s)
      case None => None
      case Some(_) => Some(State(true, true, Some(p)))
    else Some(State(true, true, Some(p)))
  }

  /** The state after the socket reports an error: closed, but still held. */
  function ErrorState(s: State): (r: State)
    requires s.running
    ensures r.running && !r.open && r.port == s.port
  {
    s.(open := false)
  }

  /** A second `start` on the same port does nothing. */
  lemma StartIdempotent(s: State, p: int)
    requires StartState(s, p).Some?
    ensures StartState(StartState(s, p).value, p) == StartState(s, p)
  {
  }

  /** After a socket error `start` on the same port is a no-op: the closed
      socket stays in place and nothing listens any more. */
  lemma ErrorLeavesListenerClosed(s: State, p: int)
    requires s.running && s.port == Some(p)
    ensures StartState(ErrorState(s), p) == Some(ErrorState(s))
    ensures !StartState(ErrorState(s), p).value.open
  {
  }

  /** After a socket error, moving to another port (or stopping) throws
      from the second `close()`, and the state stays as it was. */
  lemma ErrorBlocksRestart(s: State, p: int, q: int)
    requires s.running && s.port == Some(p) && q != p
    ensures StartState(ErrorState(s), q).None?
    ensures StopState(ErrorState(s)).None?
  {
  }

  /** `stop` on a server that is not running changes nothing; `stop` after a
      `start` returns the server to idle unless the socket had failed before. */
  lemma StopAfterStart(s: State, p: int)
    ensures StopState(Idle) == Some(Idle)
    ensures !s.running || s.open ==> StopState(StartState(s, p).value) == Some(Idle)
    ensures s.running && !s.open && s.port == Some(p) ==> StopState(StartState(s, p).value).None?
  {
  }

  /** What the server emits. */
  datatype Event =
    | Stopped
    | Failed
    | Listening(port: int)
    | Message(software: string, text: string)

  class Server {
    var running: bool
    var open: bool
    var port: Option<int>
    /** The ports sockets were bound to, in order. */
    var binds: seq<int>
    /** The events emitted so far. */
    var events: seq<Event>

    constructor ()
      ensures Snapshot() == Idle && binds == [] && events == []
    {
      running := false;
      open := false;
      port := None;
      binds := [];
      events := [];
    }

    function Snapshot(): State
      reads this
    {
      State(running, open, port)
    }

    /** `stop()`; `thrown` tells whether `close()` threw. */
    method Stop() returns (thrown: bool)
      modifies this`running, this`open, this`port, this`events
      ensures thrown <==> StopState(old(Snapshot())).None?
      ensures !thrown ==> Snapshot() == StopState(old(Snapshot())).value
      ensures thrown ==> Snapshot() == old(Snapshot())
      ensures events == old(events) + (if old(running) && !thrown then [Stopped] else [])
    {
      thrown := false;
      if running {
        if !open {
          thrown := true;
          return;
        }
        open := false;
        running := false;
        port := None;
        events := events + [Stopped];
      }
    }

    /** `start(p)`: binds a new socket to `p` unless one already is; `thrown`
        tells whether the `stop()` of a previous socket threw. */
    method Start(p: int) returns (thrown: bool)
      modifies this
      ensures thrown <==> StartState(old(Snapshot()), p).None?
      ensures !thrown ==> Snapshot() == StartState(old(Snapshot()), p).value
      ensures thrown ==> Snapshot() == old(Snapshot()) && events == old(events) && binds == old(binds)
      ensures !thrown && old(Snapshot()) != Snapshot() ==> binds == old(binds) + [p]
      ensures old(Snapshot()) == Snapshot() ==> binds == old(binds) && events == old(events)
      ensures !thrown ==> events == old(events) + (if old(running) && old(port) != Some(p) then [Stopped] else [])
    {
      thrown := false;
      if running && port == Some(p) {
        return;
      }
      if running {
        thrown := Stop();
        if thrown {
          return;
        }
      }
      port := Some(p);
      running := true;
      open := true;
      binds := binds + [p];
    }

    /** The socket's 'error' handler: closes the socket and re-emits the error. */
    method OnError()
      requires running && open
      modifies this`open, this`events
      ensures Snapshot() == ErrorState(old(Snapshot()))
      ensures events == old(events) + [Failed]
    {
      open := false;
      events := events + [Failed];
    }

    /** The socket's 'listening' handler. */
    method OnListening()
      requires running && open && port.Some?
      modifies this`events
      ensures events == old(events) + [Listening(port.value)]
    {
      events := events + [Listening(port.value)];
    }

    /** The socket's 'message' handler: the datagram is announced with the
        software named for the current port. */
    method OnMessage(text: string) returns (event: Event)
      requires running && open
      modifies this`events
      ensures event == Message(SoftwareByPort(port), text)
      ensures events == old(events) + [event]
    {
      event := Message(SoftwareByPort(port), text);
      events := events + [event];
    }
  }
}
