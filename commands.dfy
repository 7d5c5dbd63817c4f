/**
 * What `handle_input_data` (AC_RL.py:162-326) promises, one key group at a
 * time, stated about the functions of module Transport: which keys a group
 * reads, what it leaves alone, when it is a no-op, and the state it leaves
 * the sockets in.
 */
module Commands {
  import opened Wrappers
  import opened Json
  import opened Platform
  import opened Transport

  /** Every key `handle_input_data` looks at. */
  const CommandKeys: set<string> :=
    {"telemetry_udp_host", "telemetry_udp_port", "use_udp_telemetry",
     "input_udp_host", "input_udp_port", "use_input_udp", "reset"}

  /** `b` differs from `a` in socket bookkeeping only: ids are never handed
      out twice and no datagram queue appears. */
  predicate SocketsOnly(a: OsState, b: OsState) {
    b == a.(live := b.live, bound := b.bound, queues := b.queues, nextId := b.nextId) &&
    a.nextId <= b.nextId && b.queues.Keys <= a.queues.Keys
  }

  // ---------------------------------------------------------------------------
  // Socket helpers (AC_RL.py:87-119)

  /** `_create_udp_socket` yields a socket exactly when creating (and, if
      asked, binding) succeeds; on failure it returns `None` and leaves no
      trace, on success the socket is new, open, and as requested. */
  lemma CreateOrNothing(os: OsState, bind: bool, host: Value, port: int, blocking: bool)
    requires WellFormed(os)
    ensures var (sock, os1) := CreateUdpSocket(os, bind, host, port, blocking);
      (sock.Some? <==> os.socketsAvailable && (!bind || CanBind(os, Address(host, port)))) &&
      (sock.None? ==> os1 == os) && SocketsOnly(os, os1) &&
      (sock.Some? ==> sock.value.id == os.nextId && sock.value.id !in os.live && os1.live == os.live + {sock.value.id} &&
                      sock.value.blocking == blocking &&
                      (bind ==> sock.value.local == Some(Address(host, port)) &&
                                Address(host, port) in os1.bound.Values))
  {
    var (sock, os1) := CreateUdpSocket(os, bind, host, port, blocking);
    if sock.Some? && bind {
      assert os1.bound[sock.value.id] == Address(host, port);
    }
  }

  /** `_close_socket(None)` does nothing; closing a socket frees its id, its
      local address and its queue, and nothing else. */
  lemma CloseFrees(os: OsState, sock: Option<Handle>)
    ensures sock.None? ==> CloseSocket(os, sock) == os
    ensures sock.Some? ==> var os1 := CloseSocket(os, sock);
      sock.value.id !in os1.live && sock.value.id !in os1.bound && sock.value.id !in os1.queues &&
      os1.live == os.live - {sock.value.id} &&
      os1.(live := os.live, bound := os.bound, queues := os.queues) == os
    ensures SocketsOnly(os, CloseSocket(os, sock))
  {
  }

  // ---------------------------------------------------------------------------
  // The whole command

  /** A command that is not a dict changes nothing (AC_RL.py:167-168). */
  lemma NonDictIgnored(w: World, cmd: Value, path: Option<string>)
    requires !cmd.Obj?
    ensures HandleInputData(w, cmd, path) == w
  {
  }

  /** A dict none of whose keys the app knows changes nothing. */
  lemma UnknownKeysIgnored(w: World, m: map<string, Value>, path: Option<string>)
    requires m.Keys !! CommandKeys
    ensures HandleInputData(w, Obj(m), path) == w
  {
    assert "telemetry_udp_host" !in m && "telemetry_udp_port" !in m && "use_udp_telemetry" !in m;
    assert "input_udp_host" !in m && "input_udp_port" !in m && "use_input_udp" !in m && "reset" !in m;
  }

  // ---------------------------------------------------------------------------
  // telemetry_udp_host / telemetry_udp_port (AC_RL.py:176-195)

  /** A retarget reads the host and port it is not given from the current
      globals; when the port does not convert with `int()` neither host nor port
      changes; and the branch never touches the telemetry socket, the input
      side or the environment. */
  lemma TelemetryRetarget(w: World, m: map<string, Value>)
    requires "telemetry_udp_host" in m || "telemetry_udp_port" in m
    ensures var r := TelemetryTarget(w, m);
      var host := if "telemetry_udp_host" in m then m["telemetry_udp_host"] else w.g.telemetryHost;
      var port := if "telemetry_udp_port" in m then PyInt(m["telemetry_udp_port"]) else Some(w.g.telemetryPort);
      r.os == w.os && r.g.telemetrySock == w.g.telemetrySock &&
      r.g.(telemetryHost := w.g.telemetryHost, telemetryPort := w.g.telemetryPort,
           telemetryAddr := w.g.telemetryAddr) == w.g &&
      (port.None? ==> r == w) &&
      (port.Some? ==> r.g.telemetryHost == host && r.g.telemetryPort == port.value &&
                      r.g.telemetryAddr == Address(host, port.value))
  {
  }

  /** Without either key the group does nothing. */
  lemma TelemetryTargetNeedsKey(w: World, m: map<string, Value>)
    requires "telemetry_udp_host" !in m && "telemetry_udp_port" !in m
    ensures TelemetryTarget(w, m) == w
  {
  }

  // ---------------------------------------------------------------------------
  // use_udp_telemetry (AC_RL.py:197-225)

  /** Switching off closes a held socket and drops it; switching on creates an
      unbound blocking socket when none is held; switching off when none is held
      or on when one is held changes nothing. */
  lemma TelemetrySwitch(w: World, m: map<string, Value>)
    requires Valid(w) && "use_udp_telemetry" in m
    ensures var r := TelemetryEnable(w, m); var on := Truthy(m["use_udp_telemetry"]);
      r.g.(telemetrySock := w.g.telemetrySock) == w.g && SocketsOnly(w.os, r.os) &&
      (on == w.g.telemetrySock.Some? ==> r == w) &&
      (!on ==> r.g.telemetrySock.None? &&
               (w.g.telemetrySock.Some? ==> w.g.telemetrySock.value.id !in r.os.live)) &&
      (on && w.g.telemetrySock.None? ==>
         (r.g.telemetrySock.Some? <==> w.os.socketsAvailable) &&
         (r.g.telemetrySock.Some? ==> r.g.telemetrySock.value.local.None? &&
                                      r.g.telemetrySock.value.blocking &&
                                      r.g.telemetrySock.value.id !in w.os.live))
  {
    TelemetryEnableKeepsValid(w, m);
    CreateKeepsWellFormed(w.os, false, w.g.telemetryHost, w.g.telemetryPort, true);
  }

  /** Applying the same switch twice is applying it once. */
  lemma TelemetryEnableIdempotent(w: World, m: map<string, Value>)
    requires Valid(w)
    ensures TelemetryEnable(TelemetryEnable(w, m), m) == TelemetryEnable(w, m)
  {
    if "use_udp_telemetry" in m && Truthy(m["use_udp_telemetry"]) && w.g.telemetrySock.None? {
      CreateKeepsWellFormed(w.os, false, w.g.telemetryHost, w.g.telemetryPort, true);
    }
  }

  // ---------------------------------------------------------------------------
  // input_udp_host / input_udp_port (AC_RL.py:227-262)

  /** A retarget with a convertible port closes the old input socket before it
      binds the new address, whether or not input was switched on; afterwards
      the new socket, or `None` if binding failed, is the only input socket:
      the old one is no longer open. With an unconvertible port nothing changes. */
  lemma InputRetarget(w: World, m: map<string, Value>)
    requires Valid(w) && ("input_udp_host" in m || "input_udp_port" in m)
    ensures var r := InputTarget(w, m);
      var host := if "input_udp_host" in m then m["input_udp_host"] else w.g.inputHost;
      var port := if "input_udp_port" in m then PyInt(m["input_udp_port"]) else Some(w.g.inputPort);
      SocketsOnly(w.os, r.os) &&
      r.g.(inputHost := w.g.inputHost, inputPort := w.g.inputPort, inputAddr := w.g.inputAddr,
           inputSock := w.g.inputSock) == w.g &&
      (port.None? ==> r == w) &&
      (port.Some? ==>
        var closed := CloseSocket(w.os, w.g.inputSock);
        r.g.inputAddr == Address(host, port.value) &&
        r.g.telemetrySock == w.g.telemetrySock &&
        (r.g.inputSock.Some? <==> w.os.socketsAvailable && CanBind(closed, Address(host, port.value))) &&
        (w.g.inputSock.Some? ==> w.g.inputSock.value.id !in r.os.live) &&
        (r.g.inputSock.Some? ==> r.g.inputSock.value.local == Some(Address(host, port.value)) &&
                                 !r.g.inputSock.value.blocking &&
                                 r.g.inputSock.value.id == w.os.nextId) &&
        r.os.live == HeldIds(r.g))
  {
    InputTargetKeepsValid(w, m);
    var host := Get(m, "input_udp_host", w.g.inputHost);
    var port := PyInt(Get(m, "input_udp_port", Num(w.g.inputPort)));
    if port.Some? {
      var closed := CloseSocket(w.os, w.g.inputSock);
      assert WellFormed(closed);
      CreateKeepsWellFormed(closed, true, host, port.value, false);
    }
  }

  /** Rebinding the address the input socket already holds succeeds because
      the old socket is closed first: while it is open the address cannot be
      bound. */
  lemma RebindSameAddress(w: World, m: map<string, Value>)
    requires Valid(w) && w.g.inputSock.Some? && w.os.socketsAvailable
    requires w.g.inputAddr.host.Str? && ValidPort(w.g.inputAddr.port) && w.g.inputAddr in w.os.bindable
    requires m == map["input_udp_port" := Num(w.g.inputPort)]
    ensures !CanBind(w.os, w.g.inputAddr)
    ensures var r := InputTarget(w, m);
      r.g.inputSock.Some? && r.g.inputSock.value.local == Some(w.g.inputAddr) &&
      r.g.inputSock.value.id != w.g.inputSock.value.id
  {
    var id := w.g.inputSock.value.id;
    assert w.os.bound[id] == w.g.inputAddr;
    var closed := CloseSocket(w.os, w.g.inputSock);
    assert closed.bound == map[];
    InputRetarget(w, m);
  }

  /** Without either key the group does nothing. */
  lemma InputTargetNeedsKey(w: World, m: map<string, Value>)
    requires "input_udp_host" !in m && "input_udp_port" !in m
    ensures InputTarget(w, m) == w
  {
  }

  // ---------------------------------------------------------------------------
  // use_input_udp (AC_RL.py:264-292)

  /** Switching off closes a held input socket and drops it; switching on binds
      the configured input address when no socket is held; the other two cases
      change nothing. */
  lemma InputSwitch(w: World, m: map<string, Value>)
    requires Valid(w) && "use_input_udp" in m
    ensures var r := InputEnable(w, m); var on := Truthy(m["use_input_udp"]);
      r.g.(inputSock := w.g.inputSock) == w.g && SocketsOnly(w.os, r.os) &&
      (on == w.g.inputSock.Some? ==> r == w) &&
      (!on ==> r.g.inputSock.None? && r.os.bound == map[]) &&
      (on && w.g.inputSock.None? ==>
         (r.g.inputSock.Some? <==> w.os.socketsAvailable && CanBind(w.os, w.g.inputAddr)) &&
         (r.g.inputSock.Some? ==> r.g.inputSock.value.local == Some(w.g.inputAddr) &&
                                  !r.g.inputSock.value.blocking &&
                                  r.g.inputSock.value.id == w.os.nextId))
  {
    InputEnableKeepsValid(w, m);
    CreateKeepsWellFormed(w.os, true, w.g.inputHost, w.g.inputPort, false);
  }

  /** Applying the same switch twice is applying it once. */
  lemma InputEnableIdempotent(w: World, m: map<string, Value>)
    requires Valid(w)
    ensures InputEnable(InputEnable(w, m), m) == InputEnable(w, m)
  {
    if "use_input_udp" in m && Truthy(m["use_input_udp"]) && w.g.inputSock.None? {
      CreateKeepsWellFormed(w.os, true, w.g.inputHost, w.g.inputPort, false);
    }
  }

  // ---------------------------------------------------------------------------
  // reset (AC_RL.py:294-319)

  /** The written-back command has every key of the original, with the same
      value except `reset`, which is false; it does not request a reset. */
  lemma ClearedKeepsOtherKeys(m: map<string, Value>)
    requires "reset" in m
    ensures Cleared(m).Keys == m.Keys
    ensures Cleared(m)["reset"] == Bool(false) && !ResetRequested(Cleared(m))
    ensures forall k :: k in m && k != "reset" ==> Cleared(m)[k] == m[k]
  {
  }

  /** Only `reset` exactly `true` resets: then the host receives 68 and then 69;
      the globals never change; without a path (or with an empty one) no file
      is written; with a path the cleared command is written through the
      temporary file. */
  lemma ResetEffects(w: World, m: map<string, Value>, path: Option<string>)
    ensures var r := Reset(w, m, path);
      r.g == w.g &&
      (!ResetRequested(m) ==> r == w) &&
      (ResetRequested(m) ==>
        r.os.hostCommands == w.os.hostCommands + [68, 69] &&
        (path.None? || path.value == "" ==> r.os.files == w.os.files) &&
        (path.Some? && path.value != "" ==>
           r.os.files == AtomicWrite(w.os, path.value, Json(Obj(Cleared(m)))).files)) &&
      r.os.(hostCommands := w.os.hostCommands, files := w.os.files) == w.os
  {
  }

  /** Writing through a temporary file is all or nothing for the target: it
      ends up holding the data exactly when the temporary file could be written
      and one of the two renames went through; otherwise it is as it was. Only
      the target and its temporary sibling change. */
  lemma AtomicWriteAllOrNothing(os: OsState, path: string, data: FileData)
    ensures var os1 := AtomicWrite(os, path, data); var tmp := path + ".tmp";
      var moved := tmp !in os.readOnly && (path !in os.replaceFails || path !in os.renameFails);
      os1.(files := os.files) == os &&
      (moved ==> path in os1.files && os1.files[path] == data && tmp !in os1.files) &&
      (!moved && path in os.files ==> path in os1.files && os1.files[path] == os.files[path]) &&
      (!moved && path !in os.files ==> path !in os1.files) &&
      (forall f :: f != path && f != tmp ==>
         (f in os1.files <==> f in os.files) && (f in os.files ==> os1.files[f] == os.files[f]))
  {
    var tmp := path + ".tmp";
    assert tmp != path by {
      assert |tmp| == |path| + 4;
    }
  }
}
