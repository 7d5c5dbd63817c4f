/**
 * Specification of the telemetry app's transport and command logic (AC_RL.py)
 * as functions over values: the module globals (`Globals`) together with the
 * environment (`OsState`) form a `World`, and every operation of the app maps
 * one world to the next. The imperative model in module AcRl is proved to
 * follow these functions step for step.
 */
module Transport {
  import opened Wrappers
  import opened Json
  import opened Platform

  const AppName: string := "AC_RL"
  const TelemetryFilename: string := "AC_RL_telemetry.json"
  const InputFilename: string := "AC_RL_input.json"
  const DefaultHost: Value := Str("127.0.0.1")
  const DefaultTelemetryPort: int := 9876
  const DefaultInputPort: int := 9877
  /** The two host commands that make up a reset, in the order they are sent. */
  const ResetCodes: seq<int> := [68, 69]

  /** The module globals of AC_RL.py. */
  datatype Globals = Globals(
    telemetryHost: Value,
    telemetryPort: int,
    telemetryAddr: Address,
    telemetrySock: Option<Handle>,
    inputHost: Value,
    inputPort: int,
    inputAddr: Address,
    inputSock: Option<Handle>)

  datatype World = World(g: Globals, os: OsState)

  /** The globals as the module defines them when it is loaded. */
  const InitialGlobals: Globals :=
    Globals(DefaultHost, DefaultTelemetryPort, Address(DefaultHost, DefaultTelemetryPort), None,
            DefaultHost, DefaultInputPort, Address(DefaultHost, DefaultInputPort), None)

  /** Ids of the sockets the globals hold. */
  function HeldIds(g: Globals): set<nat> {
    (if g.telemetrySock.Some? then {g.telemetrySock.value.id} else {}) +
    (if g.inputSock.Some? then {g.inputSock.value.id} else {})
  }

  /**
   * The invariant of the transport state: each address global matches its host
   * and port; the telemetry socket is unbound and blocking, the input socket is
   * non-blocking and bound to the configured input address; the two are
   * different sockets; the process has no open socket that no global holds
   * (so at most one socket per endpoint, and none leaked); and the input socket
   * is the only one holding a local address.
   */
  predicate Valid(w: World) {
    var g := w.g;
    WellFormed(w.os) &&
    g.telemetryAddr == Address(g.telemetryHost, g.telemetryPort) &&
    g.inputAddr == Address(g.inputHost, g.inputPort) &&
    (g.telemetrySock.Some? ==> g.telemetrySock.value.local.None? && g.telemetrySock.value.blocking) &&
    (g.inputSock.Some? ==> g.inputSock.value.local == Some(g.inputAddr) && !g.inputSock.value.blocking) &&
    (g.telemetrySock.Some? && g.inputSock.Some? ==> g.telemetrySock.value.id != g.inputSock.value.id) &&
    w.os.live == HeldIds(g) &&
    w.os.bound == (if g.inputSock.Some? then map[g.inputSock.value.id := g.inputAddr] else map[])
  }

  // ---------------------------------------------------------------------------
  // Socket helpers (AC_RL.py:87-119)

  /** `_create_udp_socket(bind, host, port, blocking)`: a fresh socket, bound to
      `(host, port)` when asked, or `None` when creating or binding fails. */
  function CreateUdpSocket(os: OsState, bind: bool, host: Value, port: int, blocking: bool)
    : (r: (Option<Handle>, OsState))
  {
    if os.socketsAvailable && (!bind || CanBind(os, Address(host, port))) then
      var h := Handle(os.nextId, if bind then Some(Address(host, port)) else None, blocking);
      var bound := if bind then os.bound[os.nextId := Address(host, port)] else os.bound;
      (Some(h), os.(live := os.live + {os.nextId}, bound := bound, nextId := os.nextId + 1))
    else
      (None, os)
  }

  /** `_close_socket(sock)`: releases the socket and whatever was queued on it;
      nothing happens for `None`. */
  function CloseSocket(os: OsState, sock: Option<Handle>): (r: OsState) {
    match sock
    case None => os
    case Some(h) => os.(live := os.live - {h.id}, bound := os.bound - {h.id}, queues := os.queues - {h.id})
  }

  /** One `recvfrom` on a non-blocking socket: the next queued item, or a
      failure (`BlockingIOError`) when nothing is queued. */
  function Recv(os: OsState, h: Handle): (RecvItem, OsState) {
    if h.id in os.queues && os.queues[h.id] != [] then
      (os.queues[h.id][0], os.(queues := os.queues[h.id := os.queues[h.id][1..]]))
    else
      (RecvFailure, os)
  }

  /** Number of items still queued on the input socket. */
  function InputBacklog(w: World): nat {
    if w.g.inputSock.Some? && w.g.inputSock.value.id in w.os.queues
    then |w.os.queues[w.g.inputSock.value.id]| else 0
  }

  // ---------------------------------------------------------------------------
  // Writing a file through a temporary sibling (AC_RL.py:313-319, 664-672)

  /** Write `data` to `path + ".tmp"`, then `os.replace` it onto `path`, falling
      back to `os.rename`. If the temporary file cannot be opened nothing changes;
      if both renames fail the temporary file stays behind. */
  function AtomicWrite(os: OsState, path: string, data: FileData): OsState {
    var tmp := path + ".tmp";
    if tmp in os.readOnly then os
    else
      var written := os.files[tmp := data];
      if path !in os.replaceFails || path !in os.renameFails
      then os.(files := (written - {tmp})[path := data])
      else os.(files := written)
  }

  // ---------------------------------------------------------------------------
  // handle_input_data (AC_RL.py:162-326), one key group at a time

  /** `telemetry_udp_host` / `telemetry_udp_port`: retarget the destination. */
  function TelemetryTarget(w: World, cmd: map<string, Value>): World {
    if "telemetry_udp_host" in cmd || "telemetry_udp_port" in cmd then
      var host := Get(cmd, "telemetry_udp_host", w.g.telemetryHost);
      var port := Get(cmd, "telemetry_udp_port", Num(w.g.telemetryPort));
      match PyInt(port)
      case None => w
      case Some(p) =>
        w.(g := w.g.(telemetryHost := host, telemetryPort := p, telemetryAddr := Address(host, p)))
    else w
  }

  /** `use_udp_telemetry`: close the socket when switched off, create one when
      switched on and none is held. */
  function TelemetryEnable(w: World, cmd: map<string, Value>): World {
    if "use_udp_telemetry" in cmd then
      var on := Truthy(cmd["use_udp_telemetry"]);
      if !on && w.g.telemetrySock.Some? then
        World(w.g.(telemetrySock := None), CloseSocket(w.os, w.g.telemetrySock))
      else if on && w.g.telemetrySock.None? then
        var (sock, os) := CreateUdpSocket(w.os, false, w.g.telemetryHost, w.g.telemetryPort, true);
        World(w.g.(telemetrySock := sock,
                   telemetryAddr := Address(w.g.telemetryHost, w.g.telemetryPort)), os)
      else w
    else w
  }

  /** `input_udp_host` / `input_udp_port`: retarget and rebind the input socket,
      closing the old one first; a socket is bound even if input was off. */
  function InputTarget(w: World, cmd: map<string, Value>): World {
    if "input_udp_host" in cmd || "input_udp_port" in cmd then
      var host := Get(cmd, "input_udp_host", w.g.inputHost);
      var port := Get(cmd, "input_udp_port", Num(w.g.inputPort));
      match PyInt(port)
      case None => w
      case Some(p) =>
        var closed := CloseSocket(w.os, w.g.inputSock);
        var (sock, os) := CreateUdpSocket(closed, true, host, p, false);
        World(w.g.(inputHost := host, inputPort := p, inputAddr := Address(host, p), inputSock := sock), os)
    else w
  }

  /** `use_input_udp`: close the input socket when switched off, bind one when
      switched on and none is held. */
  function InputEnable(w: World, cmd: map<string, Value>): World {
    if "use_input_udp" in cmd then
      var on := Truthy(cmd["use_input_udp"]);
      if !on && w.g.inputSock.Some? then
        World(w.g.(inputSock := None), CloseSocket(w.os, w.g.inputSock))
      else if on && w.g.inputSock.None? then
        var (sock, os) := CreateUdpSocket(w.os, true, w.g.inputHost, w.g.inputPort, false);
        World(w.g.(inputSock := sock), os)
      else w
    else w
  }

  /** `reset` is exactly `true`. */
  predicate ResetRequested(cmd: map<string, Value>) {
    "reset" in cmd && cmd["reset"] == Bool(true)
  }

  /** The command as written back after a reset: the same keys, `reset` false. */
  function Cleared(cmd: map<string, Value>): map<string, Value> {
    cmd["reset" := Bool(false)]
  }

  /** `reset`: send the two host commands, then, if the command came from a
      file, write the file back with the flag cleared. */
  function Reset(w: World, cmd: map<string, Value>, path: Option<string>): World {
    if ResetRequested(cmd) then
      var os := w.os.(hostCommands := w.os.hostCommands + ResetCodes);
      if path.Some? && path.value != "" then
        w.(os := AtomicWrite(os, path.value, Json(Obj(Cleared(cmd)))))
      else w.(os := os)
    else w
  }

  /** `handle_input_data(cmd, path)`: a non-dict is ignored; a dict is applied
      group by group in the source's fixed order. */
  function HandleInputData(w: World, cmd: Value, path: Option<string>): World {
    match cmd
    case Obj(m) => Reset(InputEnable(InputTarget(TelemetryEnable(TelemetryTarget(w, m), m), m), m), m, path)
    case _ => w
  }

  // ---------------------------------------------------------------------------
  // check_input_file (AC_RL.py:329-400)

  /** The directory `ac.getDocumentsPath()` names, or the app's own. */
  function DocumentsDir(os: OsState): string {
    if os.documents.Some? then os.documents.value else os.appDir
  }

  /** The command file: in the documents directory if it exists there, else in
      the app directory if it exists there, else none. */
  function CommandFilePath(os: OsState): (path: Option<string>)
    ensures path.Some? ==> path.value in os.files
    ensures Join(DocumentsDir(os), InputFilename) in os.files ==>
              path == Some(Join(DocumentsDir(os), InputFilename))
    ensures Join(DocumentsDir(os), InputFilename) !in os.files && Join(os.appDir, InputFilename) in os.files ==>
              path == Some(Join(os.appDir, InputFilename))
    ensures path.None? <==>
              Join(DocumentsDir(os), InputFilename) !in os.files && Join(os.appDir, InputFilename) !in os.files
  {
    var primary := Join(DocumentsDir(os), InputFilename);
    var alt := Join(os.appDir, InputFilename);
    if primary in os.files then Some(primary)
    else if alt in os.files then Some(alt)
    else None
  }

  /** `json.load` of the command file; `None` when there is none or it does not parse. */
  function ReadCommandFile(os: OsState, path: Option<string>): Option<Value> {
    if path.Some? && path.value in os.files && os.files[path.value].Json?
    then Some(os.files[path.value].v) else None
  }

  /** The file step of a tick: the file's dict, if any, applied with its path. */
  function ProcessCommandFile(w: World): World {
    var path := CommandFilePath(w.os);
    var data := ReadCommandFile(w.os, path);
    if data.Some? && data.value.Obj? then HandleInputData(w, data.value, path) else w
  }

  /**
   * The UDP step of a tick: `recvfrom` on the (current) input socket until it
   * raises; a datagram that does not decode to JSON is skipped, every other one
   * is handled with no path. `parse` stands for `json.loads(pkt.decode("utf-8"))`.
   */
  function DrainInput(w: World, parse: seq<byte> -> Option<Value>): World
    requires Valid(w)
    decreases InputBacklog(w)
  {
    match w.g.inputSock
    case None => w
    case Some(h) =>
      var (item, os) := Recv(w.os, h);
      var w1 := w.(os := os);
      match item
      case RecvFailure => w1
      case Datagram(data, _) =>
        assert Valid(w1) && InputBacklog(w1) < InputBacklog(w);
        match parse(data)
        case None => DrainInput(w1, parse)
        case Some(cmd) =>
          var w2 := HandleInputData(w1, cmd, None);
          HandleInputDataKeepsBacklog(w1, cmd, None);
          DrainInput(w2, parse)
  }

  /** `check_input_file()`: the file first, then the socket. */
  function CheckInputFile(w: World, parse: seq<byte> -> Option<Value>): World
    requires Valid(w)
  {
    var w1 := ProcessCommandFile(w);
    HandleInputDataKeepsBacklog(w, ReadCommandFile(w.os, CommandFilePath(w.os)).GetOr(Null),
                                CommandFilePath(w.os));
    DrainInput(w1, parse)
  }

  // ---------------------------------------------------------------------------
  // The invariant is kept by every command group, and no group adds to the
  // input backlog: what DrainInput's termination rests on.

  lemma CreateKeepsWellFormed(os: OsState, bind: bool, host: Value, port: int, blocking: bool)
    requires WellFormed(os)
    ensures var (sock, os1) := CreateUdpSocket(os, bind, host, port, blocking);
      WellFormed(os1) && os1.queues == os.queues &&
      (sock.Some? ==> sock.value.id !in os.live && os1.live == os.live + {sock.value.id} &&
                      os1.bound == (if bind then os.bound[sock.value.id := Address(host, port)] else os.bound) &&
                      sock.value.id !in os1.queues && sock.value.blocking == blocking &&
                      sock.value.local == (if bind then Some(Address(host, port)) else None)) &&
      (sock.None? ==> os1 == os)
  {
  }

  lemma TelemetryTargetKeepsValid(w: World, m: map<string, Value>)
    requires Valid(w)
    ensures Valid(TelemetryTarget(w, m)) && InputBacklog(TelemetryTarget(w, m)) == InputBacklog(w)
  {
  }

  lemma TelemetryEnableKeepsValid(w: World, m: map<string, Value>)
    requires Valid(w)
    ensures Valid(TelemetryEnable(w, m)) && InputBacklog(TelemetryEnable(w, m)) == InputBacklog(w)
  {
    CreateKeepsWellFormed(w.os, false, w.g.telemetryHost, w.g.telemetryPort, true);
  }

  lemma InputTargetKeepsValid(w: World, m: map<string, Value>)
    requires Valid(w)
    ensures Valid(InputTarget(w, m)) && InputBacklog(InputTarget(w, m)) <= InputBacklog(w)
  {
    if "input_udp_host" in m || "input_udp_port" in m {
      var host := Get(m, "input_udp_host", w.g.inputHost);
      var port := PyInt(Get(m, "input_udp_port", Num(w.g.inputPort)));
      if port.Some? {
        var closed := CloseSocket(w.os, w.g.inputSock);
        assert WellFormed(closed);
        CreateKeepsWellFormed(closed, true, host, port.value, false);
      }
    }
  }

  lemma InputEnableKeepsValid(w: World, m: map<string, Value>)
    requires Valid(w)
    ensures Valid(InputEnable(w, m)) && InputBacklog(InputEnable(w, m)) <= InputBacklog(w)
  {
    CreateKeepsWellFormed(w.os, true, w.g.inputHost, w.g.inputPort, false);
  }

  lemma ResetKeepsValid(w: World, m: map<string, Value>, path: Option<string>)
    requires Valid(w)
    ensures Valid(Reset(w, m, path)) && InputBacklog(Reset(w, m, path)) == InputBacklog(w)
  {
  }

  /** Handling a command keeps the invariant and never lengthens the queue of
      the socket being drained. */
  lemma HandleInputDataKeepsBacklog(w: World, cmd: Value, path: Option<string>)
    requires Valid(w)
    ensures Valid(HandleInputData(w, cmd, path))
    ensures InputBacklog(HandleInputData(w, cmd, path)) <= InputBacklog(w)
  {
    if cmd.Obj? {
      var m := cmd.fields;
      var w1 := TelemetryTarget(w, m);
      TelemetryTargetKeepsValid(w, m);
      var w2 := TelemetryEnable(w1, m);
      TelemetryEnableKeepsValid(w1, m);
      var w3 := InputTarget(w2, m);
      InputTargetKeepsValid(w2, m);
      var w4 := InputEnable(w3, m);
      InputEnableKeepsValid(w3, m);
      ResetKeepsValid(w4, m, path);
    }
  }

  // ---------------------------------------------------------------------------
  // Endpoint lifecycle: the socket part of acMain (AC_RL.py:443-461) and
  // acShutdown (AC_RL.py:693-722)

  /** `acMain`'s sockets: an unbound blocking telemetry socket and a bound
      non-blocking input socket, each `None` if it could not be created. */
  function AcMain(w: World): World {
    var (tsock, os1) := CreateUdpSocket(w.os, false, w.g.telemetryHost, w.g.telemetryPort, true);
    var (isock, os2) := CreateUdpSocket(os1, true, w.g.inputHost, w.g.inputPort, false);
    World(w.g.(telemetrySock := tsock, telemetryAddr := Address(w.g.telemetryHost, w.g.telemetryPort),
               inputSock := isock, inputAddr := Address(w.g.inputHost, w.g.inputPort)), os2)
  }

  /** `acShutdown()`: close whichever sockets are held and drop them. */
  function AcShutdown(w: World): World {
    var os1 := CloseSocket(w.os, w.g.telemetrySock);
    var os2 := CloseSocket(os1, w.g.inputSock);
    World(w.g.(telemetrySock := None, inputSock := None), os2)
  }
}
