/**
 * The telemetry app (AC_RL.py) as it runs: its module globals live in one
 * `TransportState` object, the environment in a `Platform.Os` object, and each
 * entry point is a method that updates them step by step, as the source does.
 * Every method is proved to end in the state that the corresponding function
 * of modules Transport and Publisher prescribes.
 */
module AcRl {
  import opened Wrappers
  import opened Json
  import opened Platform
  import Transport
  import Publisher

  // ---------------------------------------------------------------------------
  // Socket, file and host helpers (AC_RL.py:87-137)

  /** `_create_udp_socket(bind, host, port, blocking)` */
  method CreateUdpSocket(os: Os, bind: bool, host: Value, port: int, blocking: bool)
    returns (sock: Option<Handle>)
    modifies os
    ensures (sock, os.state) == Transport.CreateUdpSocket(old(os.state), bind, host, port, blocking)
  {
    var st := os.state;
    if !st.socketsAvailable {
      return None;
    }
    if bind && !CanBind(st, Address(host, port)) {
      return None;
    }
    var h := Handle(st.nextId, if bind then Some(Address(host, port)) else None, blocking);
    var bound := if bind then st.bound[h.id := Address(host, port)] else st.bound;
    os.state := st.(live := st.live + {h.id}, bound := bound, nextId := st.nextId + 1);
    sock := Some(h);
  }

  /** `_close_socket(sock)`, and the inline closes of AC_RL.py:236-241 and 697-716. */
  method CloseSocket(os: Os, sock: Option<Handle>)
    modifies os
    ensures os.state == Transport.CloseSocket(old(os.state), sock)
  {
    if sock.Some? {
      var id := sock.value.id;
      os.state := os.state.(live := os.state.live - {id}, bound := os.state.bound - {id},
                            queues := os.state.queues - {id});
    }
  }

  /** `sock.recvfrom(65536)` on a non-blocking socket. */
  method RecvFrom(os: Os, h: Handle) returns (item: RecvItem)
    modifies os
    ensures (item, os.state) == Transport.Recv(old(os.state), h)
  {
    item := RecvFailure;
    if h.id in os.state.queues && os.state.queues[h.id] != [] {
      var q := os.state.queues[h.id];
      item := q[0];
      os.state := os.state.(queues := os.state.queues[h.id := q[1..]]);
    }
  }

  /** `call_sendcmd(code)`: the code is handed to the host. */
  method CallSendCmd(os: Os, code: int)
    modifies os
    ensures os.state == old(os.state).(hostCommands := old(os.state).hostCommands + [code])
  {
    os.state := os.state.(hostCommands := os.state.hostCommands + [code]);
  }

  /** Write to `path + ".tmp"`, then `os.replace`, else `os.rename`. */
  method WriteThroughTemp(os: Os, path: string, data: FileData)
    modifies os
    ensures os.state == Transport.AtomicWrite(old(os.state), path, data)
  {
    var tmp := path + ".tmp";
    if tmp in os.state.readOnly {
      return;
    }
    os.state := os.state.(files := os.state.files[tmp := data]);
    var moved := path !in os.state.replaceFails;
    if !moved {
      moved := path !in os.state.renameFails;
    }
    if moved {
      os.state := os.state.(files := (os.state.files - {tmp})[path := data]);
    }
  }

  /** `sock.sendto(payload, addr)`; `ok` is false where it raises. */
  method SendTo(os: Os, addr: Address, payload: Value) returns (ok: bool)
    modifies os
    ensures ok == CanSend(old(os.state), addr)
    ensures os.state == if ok then old(os.state).(sent := old(os.state).sent + [(addr, payload)])
                        else old(os.state)
  {
    ok := CanSend(os.state, addr);
    if ok {
      os.state := os.state.(sent := os.state.sent + [(addr, payload)]);
    }
  }

  /** The tyre list of AC_RL.py:528-565, built by appending one record per tyre. */
  method BuildTyres(ti: Option<Publisher.HostModule>) returns (tyres: seq<Value>)
    ensures tyres == Publisher.TyresUpTo(ti, 4)
    ensures |tyres| == 4 && forall t :: 0 <= t < 4 ==> tyres[t].Obj? && tyres[t].fields["index"] == Num(t)
  {
    tyres := [];
    for t := 0 to 4
      invariant tyres == Publisher.TyresUpTo(ti, t)
    {
      tyres := tyres + [Obj(Publisher.TyreRecord(ti, t))];
    }
  }

  // ---------------------------------------------------------------------------
  // The module globals

  class TransportState {
    var telemetryHost: Value
    var telemetryPort: int
    var telemetryAddr: Address
    var telemetrySock: Option<Handle>
    var inputHost: Value
    var inputPort: int
    var inputAddr: Address
    var inputSock: Option<Handle>

    /** The globals as a value. */
    function Snapshot(): Transport.Globals
      reads this
    {
      Transport.Globals(telemetryHost, telemetryPort, telemetryAddr, telemetrySock,
              inputHost, inputPort, inputAddr, inputSock)
    }

    /** Globals and environment together, as a value. */
    function Current(os: Os): Transport.World
      reads this, os
    {
      Transport.World(Snapshot(), os.state)
    }

    /** Globals and environment together satisfy the transport invariant. */
    predicate Valid(os: Os)
      reads this, os
    {
      Transport.Valid(Current(os))
    }

    /** The module being loaded (AC_RL.py:150-159). */
    constructor ()
      ensures Snapshot() == Transport.InitialGlobals
    {
      telemetryHost, telemetryPort := Transport.DefaultHost, Transport.DefaultTelemetryPort;
      telemetryAddr := Address(Transport.DefaultHost, Transport.DefaultTelemetryPort);
      telemetrySock := None;
      inputHost, inputPort := Transport.DefaultHost, Transport.DefaultInputPort;
      inputAddr := Address(Transport.DefaultHost, Transport.DefaultInputPort);
      inputSock := None;
    }

    /** The socket set-up of `acMain` (AC_RL.py:443-461). */
    method AcMain(os: Os)
      modifies this, os
      ensures Current(os) == Transport.AcMain(old(Current(os)))
    {
      telemetrySock := CreateUdpSocket(os, false, telemetryHost, telemetryPort, true);
      telemetryAddr := Address(telemetryHost, telemetryPort);
      inputSock := CreateUdpSocket(os, true, inputHost, inputPort, false);
      inputAddr := Address(inputHost, inputPort);
    }

    /** AC_RL.py:176-195: retarget the telemetry destination. */
    method ApplyTelemetryTarget(m: map<string, Value>, os: Os)
      modifies this
      ensures Current(os) == Transport.TelemetryTarget(old(Current(os)), m)
    {
      if "telemetry_udp_host" in m || "telemetry_udp_port" in m {
        var host := Get(m, "telemetry_udp_host", telemetryHost);
        var port := PyInt(Get(m, "telemetry_udp_port", Num(telemetryPort)));
        if port.Some? {
          telemetryHost, telemetryPort := host, port.value;
          telemetryAddr := Address(telemetryHost, telemetryPort);
        }
      }
    }

    /** AC_RL.py:197-225: switch the telemetry socket off or on. */
    method ApplyTelemetryEnable(m: map<string, Value>, os: Os)
      modifies this, os
      ensures Current(os) == Transport.TelemetryEnable(old(Current(os)), m)
    {
      if "use_udp_telemetry" in m {
        var on := Truthy(m["use_udp_telemetry"]);
        if !on && telemetrySock.Some? {
          CloseSocket(os, telemetrySock);
          telemetrySock := None;
        } else if on && telemetrySock.None? {
          telemetrySock := CreateUdpSocket(os, false, telemetryHost, telemetryPort, true);
          telemetryAddr := Address(telemetryHost, telemetryPort);
        }
      }
    }

    /** AC_RL.py:227-262: retarget the input address and rebind. */
    method ApplyInputTarget(m: map<string, Value>, os: Os)
      modifies this, os
      ensures Current(os) == Transport.InputTarget(old(Current(os)), m)
    {
      if "input_udp_host" in m || "input_udp_port" in m {
        var host := Get(m, "input_udp_host", inputHost);
        var port := PyInt(Get(m, "input_udp_port", Num(inputPort)));
        if port.Some? {
          inputHost, inputPort := host, port.value;
          inputAddr := Address(inputHost, inputPort);
          if inputSock.Some? {
            CloseSocket(os, inputSock);
            inputSock := None;
          }
          inputSock := CreateUdpSocket(os, true, inputHost, inputPort, false);
        }
      }
    }

    /** AC_RL.py:264-292: switch the input socket off or on. */
    method ApplyInputEnable(m: map<string, Value>, os: Os)
      modifies this, os
      ensures Current(os) == Transport.InputEnable(old(Current(os)), m)
    {
      if "use_input_udp" in m {
        var on := Truthy(m["use_input_udp"]);
        if !on && inputSock.Some? {
          CloseSocket(os, inputSock);
          inputSock := None;
        } else if on && inputSock.None? {
          inputSock := CreateUdpSocket(os, true, inputHost, inputPort, false);
        }
      }
    }

    /** AC_RL.py:294-319: the reset commands and the write-back. */
    method ApplyReset(m: map<string, Value>, path: Option<string>, os: Os)
      modifies os
      ensures Current(os) == Transport.Reset(old(Current(os)), m, path)
    {
      if Transport.ResetRequested(m) {
        ghost var before := os.state;
        CallSendCmd(os, Transport.ResetCodes[0]);
        CallSendCmd(os, Transport.ResetCodes[1]);
        assert os.state == before.(hostCommands := before.hostCommands + Transport.ResetCodes);
        if path.Some? && path.value != "" {
          WriteThroughTemp(os, path.value, Json(Obj(Transport.Cleared(m))));
        }
      }
    }

    /** `handle_input_data(cmd, path)` (AC_RL.py:162-326). */
    method HandleInputData(cmd: Value, path: Option<string>, os: Os)
      modifies this, os
      ensures Current(os) == Transport.HandleInputData(old(Current(os)), cmd, path)
    {
      if !cmd.Obj? {
        return;
      }
      var m := cmd.fields;
      ApplyTelemetryTarget(m, os);
      ApplyTelemetryEnable(m, os);
      ApplyInputTarget(m, os);
      ApplyInputEnable(m, os);
      ApplyReset(m, path, os);
    }

    /** `check_input_file()` (AC_RL.py:329-400): the command file, then every
        datagram queued on the input socket. */
    method CheckInputFile(os: Os, parse: seq<byte> -> Option<Value>)
      requires Valid(os)
      modifies this, os
      ensures Valid(os)
      ensures Current(os)
              == Transport.CheckInputFile(old(Current(os)), parse)
    {
      var path := Transport.CommandFilePath(os.state);
      var data := Transport.ReadCommandFile(os.state, path);
      if data.Some? && data.value.Obj? {
        Transport.HandleInputDataKeepsBacklog(Current(os), data.value, path);
        HandleInputData(data.value, path, os);
      }
      DrainInput(os, parse);
    }

    /** AC_RL.py:374-400: read datagrams until the socket reports that none is
        waiting (or fails); a datagram that is not JSON is skipped. */
    method DrainInput(os: Os, parse: seq<byte> -> Option<Value>)
      requires Valid(os)
      modifies this, os
      ensures Valid(os)
      ensures Current(os) == Transport.DrainInput(old(Current(os)), parse)
    {
      ghost var target := Transport.DrainInput(Current(os), parse);
      while true
        invariant Valid(os)
        invariant Transport.DrainInput(Current(os), parse) == target
        decreases Transport.InputBacklog(Current(os))
      {
        if inputSock.None? {
          break;  // `None.recvfrom` raises and ends the loop
        }
        var item := RecvFrom(os, inputSock.value);
        if item.RecvFailure? {
          break;
        }
        var cmd := parse(item.data);
        if cmd.None? {
          continue;
        }
        Transport.HandleInputDataKeepsBacklog(Current(os), cmd.value, None);
        HandleInputData(cmd.value, None, os);
      }
    }

    /** `acUpdate(deltaT)` (AC_RL.py:490-690). */
    method AcUpdate(os: Os, parse: seq<byte> -> Option<Value>, tick: Publisher.Tick)
      requires Valid(os)
      modifies this, os
      ensures Valid(os)
      ensures Current(os)
              == Publisher.AcUpdate(old(Current(os)), parse, tick)
    {
      CheckInputFile(os, parse);
      PublishTick(os, tick);
    }

    /** The rest of the tick after the commands (AC_RL.py:502-672): nothing
        when the tyre module is missing or the label loop raised, otherwise the
        payload built and delivered. */
    method PublishTick(os: Os, tick: Publisher.Tick)
      requires Valid(os)
      modifies os
      ensures Valid(os)
      ensures Current(os) == (if Publisher.Publishes(tick) then Publisher.Publish(old(Current(os)),
                                Publisher.Payload(tick.modules, tick.timestamp,
                                                  Publisher.TyresUpTo(tick.modules.tyreInfo, 4)))
                              else old(Current(os)))
    {
      if tick.modules.tyreInfo.None? {
        return;
      }
      if !tick.labelsOk {
        return;  // the label loop raised; the handler at AC_RL.py:685 ends the tick
      }
      var tyres := BuildTyres(tick.modules.tyreInfo);
      var payload := Publisher.Payload(tick.modules, tick.timestamp, tyres);
      Publisher.PublishKeepsValid(Current(os), payload);
      Deliver(payload, os);
    }

    /** AC_RL.py:644-672: UDP if a telemetry socket is held and the send returns,
        the fallback file otherwise. */
    method Deliver(payload: Value, os: Os)
      modifies os
      ensures Current(os) == Publisher.Publish(old(Current(os)), payload)
    {
      var sent := false;
      if telemetrySock.Some? {
        sent := SendTo(os, telemetryAddr, payload);
      }
      if !sent {
        WriteThroughTemp(os, Publisher.TelemetryPath(os.state), Json(payload));
      }
    }

    /** `acShutdown()` (AC_RL.py:693-722). */
    method AcShutdown(os: Os)
      modifies this, os
      ensures Current(os) == Transport.AcShutdown(old(Current(os)))
    {
      if telemetrySock.Some? {
        CloseSocket(os, telemetrySock);
        telemetrySock := None;
      }
      if inputSock.Some? {
        CloseSocket(os, inputSock);
        inputSock := None;
      }
    }
  }
}
