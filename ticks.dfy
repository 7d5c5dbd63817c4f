/**
 * What one tick of the app promises as a whole (AC_RL.py:329-400 and 490-690):
 * the order in which commands arrive, how the input socket is drained, what a
 * reset leaves in the command file, how the payload is delivered, and what the
 * endpoint lifecycle (AC_RL.py:443-461, 693-722) leaves behind.
 */
module Ticks {
  import opened Wrappers
  import opened Json
  import opened Platform
  import opened Transport
  import opened Publisher
  import Commands

  /** Everything of the environment that commands can change only through
      sockets and host commands: the files, the sent log and the failure
      oracles stay, and host commands are only appended. */
  predicate FilesKept(a: OsState, b: OsState) {
    b.files == a.files && b.sent == a.sent && b.documents == a.documents && b.appDir == a.appDir &&
    b.readOnly == a.readOnly && b.replaceFails == a.replaceFails && b.renameFails == a.renameFails &&
    b.reachable == a.reachable && a.hostCommands <= b.hostCommands && a.nextId <= b.nextId
  }

  // ---------------------------------------------------------------------------
  // Commands arriving by UDP

  /** A command handled without a path (every UDP command, AC_RL.py:393)
      never writes a file. */
  lemma UdpCommandKeepsFiles(w: World, cmd: Value)
    requires Valid(w)
    ensures FilesKept(w.os, HandleInputData(w, cmd, None).os)
  {
    if cmd.Obj? {
      GroupsKeepFiles(w, cmd.fields);
    }
  }

  /** The whole drain keeps the files: UDP commands cannot write the command
      file back, even when they ask for a reset. */
  lemma {:induction false} DrainKeepsFiles(w: World, parse: seq<byte> -> Option<Value>)
    requires Valid(w)
    ensures FilesKept(w.os, DrainInput(w, parse).os)
    decreases InputBacklog(w)
  {
    match w.g.inputSock
    case None =>
    case Some(h) =>
      var (item, os) := Recv(w.os, h);
      var w1 := w.(os := os);
      match item
      case RecvFailure =>
      case Datagram(data, _) =>
        assert Valid(w1) && InputBacklog(w1) < InputBacklog(w);
        match parse(data)
        case None =>
          DrainKeepsFiles(w1, parse);
        case Some(cmd) =>
          var w2 := HandleInputData(w1, cmd, None);
          HandleInputDataKeepsBacklog(w1, cmd, None);
          UdpCommandKeepsFiles(w1, cmd);
          DrainKeepsFiles(w2, parse);
  }

  /** The input queue with its head replaced by `rest`. */
  function WithQueue(w: World, id: nat, rest: seq<RecvItem>): World {
    w.(os := w.os.(queues := w.os.queues[id := rest]))
  }

  /** Datagrams that do not decode are skipped and the drain goes on with what
      follows them (AC_RL.py:386-390): when the first `n` queued items are
      such datagrams, draining is draining what is queued behind them. */
  lemma {:induction false} SkipsMalformed(w: World, parse: seq<byte> -> Option<Value>, n: nat)
    requires Valid(w) && w.g.inputSock.Some? && w.g.inputSock.value.id in w.os.queues
    requires n <= |w.os.queues[w.g.inputSock.value.id]|
    requires forall i :: 0 <= i < n ==> Malformed(w.os.queues[w.g.inputSock.value.id][i], parse)
    ensures var id := w.g.inputSock.value.id;
      Valid(WithQueue(w, id, w.os.queues[id][n..])) &&
      DrainInput(w, parse) == DrainInput(WithQueue(w, id, w.os.queues[id][n..]), parse)
    decreases n
  {
    var id := w.g.inputSock.value.id;
    var q := w.os.queues[id];
    QueueSwap(w, q[n..], q[n..]);
    if n > 0 {
      SkipOne(w, parse);
      var w1 := WithQueue(w, id, q[1..]);
      QueueSwap(w, q[1..], q[n..]);
      SkipsMalformed(w1, parse, n - 1);
      assert q[1..][n - 1..] == q[n..];
    } else {
      assert q[0..] == q;
    }
  }

  /** Replacing the input queue keeps the invariant; replacing it twice is
      replacing it once, and replacing it by itself changes nothing. */
  lemma QueueSwap(w: World, a: seq<RecvItem>, b: seq<RecvItem>)
    requires Valid(w) && w.g.inputSock.Some? && w.g.inputSock.value.id in w.os.queues
    ensures var id := w.g.inputSock.value.id;
      Valid(WithQueue(w, id, a)) && WithQueue(w, id, a).g == w.g &&
      WithQueue(WithQueue(w, id, a), id, b) == WithQueue(w, id, b) &&
      WithQueue(w, id, w.os.queues[id]) == w
  {
    var id := w.g.inputSock.value.id;
    assert w.os.queues[id := w.os.queues[id]] == w.os.queues;
  }

  /** A queued item the drain skips: a datagram that does not decode. */
  predicate Malformed(item: RecvItem, parse: seq<byte> -> Option<Value>) {
    item.Datagram? && parse(item.data).None?
  }

  /** One malformed datagram at the head of the queue is dropped. */
  lemma SkipOne(w: World, parse: seq<byte> -> Option<Value>)
    requires Valid(w) && w.g.inputSock.Some? && w.g.inputSock.value.id in w.os.queues
    requires var q := w.os.queues[w.g.inputSock.value.id];
      q != [] && Malformed(q[0], parse)
    ensures var id := w.g.inputSock.value.id;
      Valid(WithQueue(w, id, w.os.queues[id][1..])) &&
      DrainInput(w, parse) == DrainInput(WithQueue(w, id, w.os.queues[id][1..]), parse)
  {
  }

  /** The drain stops at the first failing `recvfrom` (AC_RL.py:381-385): what
      is queued behind it stays queued, and nothing else changes when every
      datagram before it was malformed. */
  lemma DrainStopsAtFailure(w: World, parse: seq<byte> -> Option<Value>,
                            pre: seq<RecvItem>, post: seq<RecvItem>)
    requires Valid(w) && w.g.inputSock.Some? && w.g.inputSock.value.id in w.os.queues
    requires w.os.queues[w.g.inputSock.value.id] == pre + [RecvFailure] + post
    requires forall i :: 0 <= i < |pre| ==> Malformed(pre[i], parse)
    ensures DrainInput(w, parse) == WithQueue(w, w.g.inputSock.value.id, post)
  {
    var id := w.g.inputSock.value.id;
    var q := pre + [RecvFailure] + post;
    assert forall i :: 0 <= i < |pre| ==> q[i] == pre[i];
    SkipsMalformed(w, parse, |pre|);
    assert q[|pre|..] == [RecvFailure] + post;
    QueueSwap(w, [RecvFailure] + post, post);
    var w1 := WithQueue(w, id, [RecvFailure] + post);
    assert Recv(w1.os, w1.g.inputSock.value).1 == WithQueue(w1, id, post).os;
  }

  /** A queue of nothing but malformed datagrams is emptied and nothing else
      changes. */
  lemma DrainSkipsAllMalformed(w: World, parse: seq<byte> -> Option<Value>)
    requires Valid(w) && w.g.inputSock.Some? && w.g.inputSock.value.id in w.os.queues
    requires var q := w.os.queues[w.g.inputSock.value.id];
      forall i :: 0 <= i < |q| ==> Malformed(q[i], parse)
    ensures DrainInput(w, parse) == WithQueue(w, w.g.inputSock.value.id, [])
  {
    var q := w.os.queues[w.g.inputSock.value.id];
    SkipsMalformed(w, parse, |q|);
    assert q[|q|..] == [];
  }

  // ---------------------------------------------------------------------------
  // The command file

  /** The four key groups before `reset`. */
  function Groups(w: World, m: map<string, Value>): World {
    InputEnable(InputTarget(TelemetryEnable(TelemetryTarget(w, m), m), m), m)
  }

  /** The two telemetry groups leave the input side alone and only touch
      sockets. */
  lemma TelemetryGroupsKeepInput(w: World, m: map<string, Value>)
    requires Valid(w)
    ensures var w2 := TelemetryEnable(TelemetryTarget(w, m), m);
      Valid(w2) && w2.g.inputSock == w.g.inputSock && Commands.SocketsOnly(w.os, w2.os)
  {
    var w1 := TelemetryTarget(w, m);
    TelemetryTargetKeepsValid(w, m);
    TelemetryEnableKeepsValid(w1, m);
    if "use_udp_telemetry" in m {
      Commands.TelemetrySwitch(w1, m);
    }
  }

  /** The key groups before `reset` only touch sockets. */
  lemma GroupsKeepFiles(w: World, m: map<string, Value>)
    requires Valid(w)
    ensures Valid(Groups(w, m)) && Commands.SocketsOnly(w.os, Groups(w, m).os)
  {
    var w2 := TelemetryEnable(TelemetryTarget(w, m), m);
    TelemetryGroupsKeepInput(w, m);
    var w3 := InputTarget(w2, m);
    InputTargetKeepsValid(w2, m);
    if "input_udp_host" in m || "input_udp_port" in m {
      Commands.InputRetarget(w2, m);
    }
    InputEnableKeepsValid(w3, m);
    if "use_input_udp" in m {
      Commands.InputSwitch(w3, m);
    }
  }

  /** Only unfolds `HandleInputData`'s definition in terms of `Groups`, for the
      solver; it states no property of its own. */
  lemma HandleIsGroupsThenReset(w: World, m: map<string, Value>, path: Option<string>)
    ensures HandleInputData(w, Obj(m), path) == Reset(Groups(w, m), m, path)
  {
  }

  /** The telemetry target is applied before the switch: a command that sets
      the port and switches telemetry on creates the socket for the new
      destination, whenever a socket can be created. */
  lemma RetargetThenEnable(w: World, p: int, path: Option<string>)
    requires Valid(w) && w.g.telemetrySock.None?
    ensures var r := HandleInputData(w, Obj(map["telemetry_udp_port" := Num(p), "use_udp_telemetry" := Bool(true)]), path);
      Valid(r) && r.g.telemetryAddr == Address(w.g.telemetryHost, p) &&
      (r.g.telemetrySock.Some? <==> w.os.socketsAvailable) &&
      (r.g.telemetrySock.Some? ==> r.g.telemetrySock.value.id !in w.os.live &&
                                   r.g.telemetrySock.value.id in r.os.live) &&
      r.g.inputSock == w.g.inputSock
  {
    var m := map["telemetry_udp_port" := Num(p), "use_udp_telemetry" := Bool(true)];
    var w1 := TelemetryTarget(w, m);
    Commands.TelemetryRetarget(w, m);
    TelemetryTargetKeepsValid(w, m);
    var w2 := TelemetryEnable(w1, m);
    Commands.TelemetrySwitch(w1, m);
    TelemetryEnableKeepsValid(w1, m);
    Commands.InputTargetNeedsKey(w2, m);
    assert InputEnable(w2, m) == w2;
    assert Reset(w2, m, path) == w2;
  }

  /** The input target is applied before the switch: a command that moves the
      input port and switches input off ends with no input socket and no bound
      address, even though the retarget bound a new socket first. */
  lemma RetargetThenDisable(w: World, port: Value, path: Option<string>)
    requires Valid(w)
    ensures var r := HandleInputData(w, Obj(map["input_udp_port" := port, "use_input_udp" := Bool(false)]), path);
      Valid(r) && r.g.inputSock.None? && r.os.bound == map[] &&
      r.g.telemetrySock == w.g.telemetrySock && r.os.live == HeldIds(w.g.(inputSock := None)) &&
      (port.Num? ==> r.g.inputAddr == Address(w.g.inputHost, port.n))
  {
    var m := map["input_udp_port" := port, "use_input_udp" := Bool(false)];
    Commands.TelemetryTargetNeedsKey(w, m);
    assert TelemetryEnable(w, m) == w;
    var w3 := InputTarget(w, m);
    Commands.InputRetarget(w, m);
    InputTargetKeepsValid(w, m);
    var w4 := InputEnable(w3, m);
    Commands.InputSwitch(w3, m);
    InputEnableKeepsValid(w3, m);
    assert Reset(w4, m, path) == w4;
  }

  /** The temporary sibling of a file is never the command file itself. */
  lemma TmpIsNotCommandFile(dir: string, path: string)
    ensures Join(dir, InputFilename) != path + ".tmp"
  {
    var p := Join(dir, InputFilename);
    var t := path + ".tmp";
    assert p[|p| - 1] == InputFilename[|InputFilename| - 1] == 'n';
    assert t[|t| - 1] == 'p';
  }

  /** The command file is found again as long as the directories stay and only
      the file itself and its temporary sibling changed. */
  lemma CommandFileStays(os: OsState, os1: OsState, path: string)
    requires CommandFilePath(os) == Some(path)
    requires os1.documents == os.documents && os1.appDir == os.appDir && path in os1.files
    requires forall f :: f != path && f != path + ".tmp" ==> (f in os1.files <==> f in os.files)
    ensures CommandFilePath(os1) == Some(path)
  {
    TmpIsNotCommandFile(DocumentsDir(os), path);
    TmpIsNotCommandFile(os.appDir, path);
  }

  /** A reset requested by the command file fires once: the host receives 68
      and 69, the file is written back through its temporary sibling with the
      flag cleared, and the next tick reads a command that no longer requests a
      reset (AC_RL.py:294-319, 497). */
  lemma ResetIsOneShot(w: World, parse: seq<byte> -> Option<Value>, m: map<string, Value>)
    requires Valid(w)
    requires CommandFilePath(w.os).Some?
    requires w.os.files[CommandFilePath(w.os).value] == Json(Obj(m)) && ResetRequested(m)
    requires CommandFilePath(w.os).value + ".tmp" !in w.os.readOnly
    requires CommandFilePath(w.os).value !in w.os.replaceFails ||
             CommandFilePath(w.os).value !in w.os.renameFails
    ensures var w1 := CheckInputFile(w, parse);
      w.os.hostCommands + ResetCodes <= w1.os.hostCommands &&
      CommandFilePath(w1.os) == CommandFilePath(w.os) &&
      ReadCommandFile(w1.os, CommandFilePath(w1.os)) == Some(Obj(Cleared(m))) &&
      !ResetRequested(Cleared(m))
  {
    var path := CommandFilePath(w.os).value;
    var data := Json(Obj(Cleared(m)));
    var w4 := Groups(w, m);
    GroupsKeepFiles(w, m);
    var os4 := w4.os.(hostCommands := w4.os.hostCommands + ResetCodes);
    Commands.AtomicWriteAllOrNothing(os4, path, data);
    var w5 := ProcessCommandFile(w);
    HandleIsGroupsThenReset(w, m, Some(path));
    assert w5 == w4.(os := AtomicWrite(os4, path, data));
    HandleInputDataKeepsBacklog(w, Obj(m), Some(path));
    DrainKeepsFiles(w5, parse);
    var w1 := DrainInput(w5, parse);
    assert w1 == CheckInputFile(w, parse);
    CommandFileStays(w.os, w1.os, path);
    Commands.ClearedKeepsOtherKeys(m);
  }

  /** A command file that keeps an `input_udp_port` rebinds the input socket
      on every tick: the socket held before the tick is closed, and any input
      socket held after the file step is a fresh one (AC_RL.py:227-262, 497). */
  lemma PersistedPortRebinds(w: World, m: map<string, Value>)
    requires Valid(w) && w.g.inputSock.Some?
    requires CommandFilePath(w.os).Some?
    requires w.os.files[CommandFilePath(w.os).value] == Json(Obj(m))
    requires "input_udp_port" in m && PyInt(m["input_udp_port"]).Some?
    ensures var w1 := ProcessCommandFile(w);
      w.g.inputSock.value.id !in w1.os.live &&
      (w1.g.inputSock.Some? ==> w1.g.inputSock.value.id >= w.os.nextId)
  {
    var path := CommandFilePath(w.os);
    FileCommand(w, m);
    var w2 := TelemetryEnable(TelemetryTarget(w, m), m);
    TelemetryGroupsKeepInput(w, m);
    InputGroupsRebind(w2, m, w.g.inputSock.value.id, w.os.nextId);
    HandleIsGroupsThenReset(w, m, path);
    Commands.ResetEffects(Groups(w, m), m, path);
  }

  /** The file step applies the dict the command file holds, with its path. */
  lemma FileCommand(w: World, m: map<string, Value>)
    requires CommandFilePath(w.os).Some?
    requires w.os.files[CommandFilePath(w.os).value] == Json(Obj(m))
    ensures ProcessCommandFile(w) == HandleInputData(w, Obj(m), CommandFilePath(w.os))
  {
  }

  /** Consequence of the rebind: when the command file keeps an
      `input_udp_port`, the socket that is drained is always the one just
      bound, so every datagram queued before the tick is discarded unread
      (AC_RL.py:236-248, 374-393). Datagrams arriving on the new socket during
      the tick are outside the model, whose queues are fixed when the tick starts. */
  lemma PersistedPortDropsQueue(w: World, parse: seq<byte> -> Option<Value>, m: map<string, Value>)
    requires Valid(w) && w.g.inputSock.Some?
    requires CommandFilePath(w.os).Some?
    requires w.os.files[CommandFilePath(w.os).value] == Json(Obj(m))
    requires "input_udp_port" in m && PyInt(m["input_udp_port"]).Some?
    ensures CheckInputFile(w, parse) == ProcessCommandFile(w)
  {
    var path := CommandFilePath(w.os);
    PersistedPortRebinds(w, m);
    GroupsKeepFiles(w, m);
    HandleIsGroupsThenReset(w, m, path);
    Commands.ResetEffects(Groups(w, m), m, path);
    var w1 := ProcessCommandFile(w);
    assert w1.os.queues == Groups(w, m).os.queues;
    HandleInputDataKeepsBacklog(w, Obj(m), path);
    if w1.g.inputSock.Some? {
      assert w1.g.inputSock.value.id !in w.os.live;
    }
    assert InputBacklog(w1) == 0;
    DrainIdle(w1, parse);
  }

  /** The input groups with a convertible port: the socket held before is
      closed and any socket held after is fresh. */
  lemma InputGroupsRebind(w: World, m: map<string, Value>, held: nat, first: nat)
    requires Valid(w) && w.g.inputSock.Some? && w.g.inputSock.value.id == held
    requires first <= w.os.nextId
    requires "input_udp_port" in m && PyInt(m["input_udp_port"]).Some?
    ensures var w4 := InputEnable(InputTarget(w, m), m);
      held !in w4.os.live && (w4.g.inputSock.Some? ==> w4.g.inputSock.value.id >= first)
  {
    var w3 := InputTarget(w, m);
    Commands.InputRetarget(w, m);
    InputTargetKeepsValid(w, m);
    assert held !in w3.os.live && w3.os.nextId >= first;
    if "use_input_udp" in m {
      Commands.InputSwitch(w3, m);
    }
  }

  /** With nothing queued on the input socket the drain changes nothing. */
  lemma DrainIdle(w: World, parse: seq<byte> -> Option<Value>)
    requires Valid(w) && InputBacklog(w) == 0
    ensures DrainInput(w, parse) == w
  {
    if w.g.inputSock.Some? {
      var id := w.g.inputSock.value.id;
      assert id in w.os.queues ==> w.os.queues[id] == [];
    }
  }

  /** A single queued datagram that decodes is handled, without a path, and
      the drain stops after it. */
  lemma DrainOneCommand(w: World, parse: seq<byte> -> Option<Value>, d: seq<byte>, from: Address,
                        cmd: Value)
    requires Valid(w) && w.g.inputSock.Some? && w.g.inputSock.value.id in w.os.queues
    requires w.os.queues[w.g.inputSock.value.id] == [Datagram(d, from)]
    requires parse(d) == Some(cmd)
    ensures Valid(WithQueue(w, w.g.inputSock.value.id, []))
    ensures DrainInput(w, parse) == HandleInputData(WithQueue(w, w.g.inputSock.value.id, []), cmd, None)
  {
    var w1 := WithQueue(w, w.g.inputSock.value.id, []);
    var (item, os) := Recv(w.os, w.g.inputSock.value);
    assert [Datagram(d, from)][1..] == [];
    assert item == Datagram(d, from) && os == w1.os;
    assert InputBacklog(w1) == 0;
    HandleInputDataKeepsBacklog(w1, cmd, None);
    DrainIdle(HandleInputData(w1, cmd, None), parse);
  }

  /** A command holding only a telemetry port retargets the telemetry
      destination and does nothing else. */
  lemma PortOnlyCommand(w: World, p: int, path: Option<string>)
    ensures HandleInputData(w, Obj(map["telemetry_udp_port" := Num(p)]), path) ==
            w.(g := w.g.(telemetryPort := p, telemetryAddr := Address(w.g.telemetryHost, p)))
  {
    var m := map["telemetry_udp_port" := Num(p)];
    var w1 := TelemetryTarget(w, m);
    assert w1 == w.(g := w.g.(telemetryPort := p, telemetryAddr := Address(w.g.telemetryHost, p)));
    assert "use_udp_telemetry" !in m && "input_udp_host" !in m && "input_udp_port" !in m;
    assert "use_input_udp" !in m && "reset" !in m;
  }

  /** The command file is handled before any datagram (AC_RL.py:329-400): when
      the file and a datagram both set the telemetry port, the datagram wins. */
  lemma FileBeforeUdp(w: World, parse: seq<byte> -> Option<Value>, a: int, b: int,
                      d: seq<byte>, from: Address)
    requires Valid(w) && w.g.inputSock.Some? && w.g.inputSock.value.id in w.os.queues
    requires CommandFilePath(w.os).Some?
    requires w.os.files[CommandFilePath(w.os).value] == Json(Obj(map["telemetry_udp_port" := Num(a)]))
    requires w.os.queues[w.g.inputSock.value.id] == [Datagram(d, from)]
    requires parse(d) == Some(Obj(map["telemetry_udp_port" := Num(b)]))
    ensures CheckInputFile(w, parse).g.telemetryPort == b
  {
    var path := CommandFilePath(w.os);
    PortOnlyCommand(w, a, path);
    var w1 := ProcessCommandFile(w);
    assert w1 == w.(g := w.g.(telemetryPort := a, telemetryAddr := Address(w.g.telemetryHost, a)));
    DrainOneCommand(w1, parse, d, from, Obj(map["telemetry_udp_port" := Num(b)]));
    PortOnlyCommand(WithQueue(w1, w.g.inputSock.value.id, []), b, None);
  }

  // ---------------------------------------------------------------------------
  // Delivery (AC_RL.py:644-672)

  /** One datagram to the telemetry address when a socket is held and the send
      returns; otherwise the sent log is untouched and the payload goes to the
      fallback file, which afterwards holds it when the temporary file could be
      written and moved. The globals never change. */
  lemma DeliveryPolicy(w: World, payload: Value)
    ensures var r := Publish(w, payload);
      r.g == w.g &&
      (SendSucceeds(w) ==> r.os == w.os.(sent := w.os.sent + [(w.g.telemetryAddr, payload)])) &&
      (!SendSucceeds(w) ==> r.os.sent == w.os.sent) &&
      (w.g.telemetrySock.None? ==> !SendSucceeds(w)) &&
      (!SendSucceeds(w) && TelemetryPath(w.os) + ".tmp" !in w.os.readOnly &&
       (TelemetryPath(w.os) !in w.os.replaceFails || TelemetryPath(w.os) !in w.os.renameFails) ==>
         r.os.files[TelemetryPath(w.os)] == Json(payload))
  {
    if !SendSucceeds(w) {
      Commands.AtomicWriteAllOrNothing(w.os, TelemetryPath(w.os), Json(payload));
    }
  }

  /** The file step keeps the sent log: only delivery appends to it. */
  lemma CommandsKeepSent(w: World, parse: seq<byte> -> Option<Value>)
    requires Valid(w)
    ensures CheckInputFile(w, parse).os.sent == w.os.sent
    ensures CheckInputFile(w, parse).os.documents == w.os.documents
  {
    var path := CommandFilePath(w.os);
    var data := ReadCommandFile(w.os, path);
    var w5 := ProcessCommandFile(w);
    if data.Some? && data.value.Obj? {
      var m := data.value.fields;
      GroupsKeepFiles(w, m);
      HandleIsGroupsThenReset(w, m, path);
      Commands.ResetEffects(Groups(w, m), m, path);
      assert w5.os.sent == w.os.sent && w5.os.documents == w.os.documents;
    }
    HandleInputDataKeepsBacklog(w, data.GetOr(Null), path);
    DrainKeepsFiles(w5, parse);
  }

  /** A tick sends at most one datagram: exactly one, carrying this tick's
      payload to the address the commands left in place, when the tyre module
      is loaded, the labels updated, and the send went through; none otherwise. */
  lemma TickSendsAtMostOnce(w: World, parse: seq<byte> -> Option<Value>, tick: Tick)
    requires Valid(w)
    ensures var w1 := CheckInputFile(w, parse);
      var payload := Payload(tick.modules, tick.timestamp, TyresUpTo(tick.modules.tyreInfo, 4));
      AcUpdate(w, parse, tick).os.sent ==
        w.os.sent + (if Publishes(tick) && SendSucceeds(w1) then [(w1.g.telemetryAddr, payload)] else [])
  {
    var w1 := CheckInputFile(w, parse);
    var payload := Payload(tick.modules, tick.timestamp, TyresUpTo(tick.modules.tyreInfo, 4));
    assert AcUpdate(w, parse, tick) == if Publishes(tick) then Publish(w1, payload) else w1;
    CommandsKeepSent(w, parse);
    PublishSends(w1, payload);
  }

  /** Delivery appends to the sent log exactly when the send goes through. */
  lemma PublishSends(w: World, payload: Value)
    ensures Publish(w, payload).os.sent ==
            w.os.sent + (if SendSucceeds(w) then [(w.g.telemetryAddr, payload)] else [])
  {
  }

  /** The end-to-end retarget: with a telemetry socket held and no command
      file, a datagram `{"telemetry_udp_port": 9999}` makes the same tick's
      payload go to port 9999 of the current telemetry host. */
  lemma RetargetReachesNextSend(w: World, parse: seq<byte> -> Option<Value>, tick: Tick,
                                d: seq<byte>, from: Address)
    requires Valid(w) && w.g.telemetrySock.Some? && CommandFilePath(w.os).None?
    requires w.g.inputSock.Some? && w.g.inputSock.value.id in w.os.queues
    requires w.os.queues[w.g.inputSock.value.id] == [Datagram(d, from)]
    requires parse(d) == Some(Obj(map["telemetry_udp_port" := Num(9999)]))
    requires Publishes(tick) && CanSend(w.os, Address(w.g.telemetryHost, 9999))
    ensures AcUpdate(w, parse, tick).os.sent ==
            w.os.sent + [(Address(w.g.telemetryHost, 9999),
                          Payload(tick.modules, tick.timestamp, TyresUpTo(tick.modules.tyreInfo, 4)))]
  {
    assert ProcessCommandFile(w) == w;
    DrainOneCommand(w, parse, d, from, Obj(map["telemetry_udp_port" := Num(9999)]));
    var w0 := WithQueue(w, w.g.inputSock.value.id, []);
    PortOnlyCommand(w0, 9999, None);
    var w1 := CheckInputFile(w, parse);
    assert w1.g.telemetryAddr == Address(w.g.telemetryHost, 9999) && w1.g.telemetrySock.Some?;
    assert w1.os.reachable == w.os.reachable;
    assert SendSucceeds(w1);
    TickSendsAtMostOnce(w, parse, tick);
  }

  // ---------------------------------------------------------------------------
  // Payload (AC_RL.py:528-642) and safe_call (AC_RL.py:67-83)

  /** The payload has exactly the eight top-level keys and four tyre records,
      the `t`-th carrying `index` `t` and the same eleven keys. */
  lemma PayloadShape(mods: Modules, timestamp: real)
    ensures var p := Payload(mods, timestamp, TyresUpTo(mods.tyreInfo, 4));
      p.Obj? && p.fields.Keys == PayloadKeys &&
      p.fields["app"] == Str(AppName) && p.fields["timestamp"] == Frac(timestamp) &&
      p.fields["tyres"].Arr? && |p.fields["tyres"].items| == 4 &&
      forall t :: 0 <= t < 4 ==>
        p.fields["tyres"].items[t].Obj? && p.fields["tyres"].items[t].fields.Keys == TyreKeys &&
        p.fields["tyres"].items[t].fields["index"] == Num(t)
  {
    var tyres := TyresUpTo(mods.tyreInfo, 4);
    PayloadTop(mods, timestamp, tyres);
    forall t | 0 <= t < 4
      ensures tyres[t].Obj? && tyres[t].fields.Keys == TyreKeys && tyres[t].fields["index"] == Num(t)
    {
      TyreRecordShape(mods.tyreInfo, t);
    }
  }

  /** The payload's eight top-level keys, with the tyre list it was given. */
  lemma PayloadTop(mods: Modules, timestamp: real, tyres: seq<Value>)
    ensures var p := Payload(mods, timestamp, tyres);
      p.Obj? && p.fields.Keys == PayloadKeys && p.fields["tyres"] == Arr(tyres) &&
      p.fields["app"] == Str(AppName) && p.fields["timestamp"] == Frac(timestamp)
  {
    DocumentKeys(timestamp, Session(mods.sessionInfo), Car(mods.carInfo), Inputs(mods.inputInfo),
                 Lap(mods.lapInfo), tyres, Stats(mods.carStats));
  }

  lemma DocumentKeys(timestamp: real, session: map<string, Value>, car: map<string, Value>,
                     inputs: map<string, Value>, lap: map<string, Value>, tyres: seq<Value>,
                     stats: map<string, Value>)
    ensures var p := Document(timestamp, session, car, inputs, lap, tyres, stats);
      p.Obj? && p.fields.Keys == PayloadKeys && p.fields["tyres"] == Arr(tyres) &&
      p.fields["app"] == Str(AppName) && p.fields["timestamp"] == Frac(timestamp)
  {
  }

  /** One tyre record: the eleven keys, `index` first among them. */
  lemma TyreRecordShape(ti: Option<HostModule>, t: int)
    ensures TyreRecord(ti, t).Keys == TyreKeys && TyreRecord(ti, t)["index"] == Num(t)
  {
    TyreFieldKeys(Num(t),
                  Sample(ti, "get_tyre_wear_value", [Num(t)]),
                  Sample(ti, "get_tyre_dirty", [Num(t)]),
                  Sample(ti, "get_tyre_pressure", [Num(t)]),
                  Sample(ti, "get_tyre_temp", [Num(t), Str("i")]),
                  Sample(ti, "get_tyre_temp", [Num(t), Str("m")]),
                  Sample(ti, "get_tyre_temp", [Num(t), Str("o")]),
                  Sample(ti, "get_slip_ratio", [Num(t)]),
                  Sample(ti, "get_slip_angle", [Num(t)]),
                  Sample(ti, "get_tyre_heading_vector", [Num(t)]),
                  Sample(ti, "get_angular_speed", [Num(t)]));
  }

  /** The keys of a tyre record do not depend on the values sampled. */
  lemma TyreFieldKeys(index: Value, wear: Value, dirty: Value, pressure: Value, tempI: Value, tempM: Value,
                 tempO: Value, slipRatio: Value, slipAngle: Value, heading: Value, angular: Value)
    ensures var r := Tyre(index, wear, dirty, pressure, tempI, tempM, tempO, slipRatio, slipAngle, heading, angular);
      r.Keys == TyreKeys && r["index"] == index
  {
  }

  /** `safe_call` passes a returned value through and turns a raising call, a
      missing or uncallable attribute and a missing module into the default. */
  lemma SafeCallOutcomes(mod: Option<HostModule>, name: string, args: seq<Value>, default: Value)
    ensures var ok := mod.Some? && name in mod.value.attrs && mod.value.attrs[name].Callable?;
      (ok && mod.value.attrs[name].call(args).Returned? ==>
         SafeCall(mod, name, args, default) == mod.value.attrs[name].call(args).v) &&
      (ok && mod.value.attrs[name].call(args).Raised? ==> SafeCall(mod, name, args, default) == default) &&
      (!ok ==> SafeCall(mod, name, args, default) == default)
  {
  }

  // ---------------------------------------------------------------------------
  // Lifecycle

  /** From the module as loaded and a process holding no socket, `acMain`
      establishes the transport invariant: the telemetry socket exists when
      sockets can be created, the input socket when the default input address
      can also be bound. */
  lemma MainEstablishesValid(os: OsState)
    requires WellFormed(os) && os.live == {}
    ensures var r := AcMain(World(InitialGlobals, os));
      Valid(r) &&
      (r.g.telemetrySock.Some? <==> os.socketsAvailable) &&
      (r.g.inputSock.Some? <==> os.socketsAvailable && CanBind(os, Address(DefaultHost, DefaultInputPort)))
  {
    var w := World(InitialGlobals, os);
    CreateKeepsWellFormed(os, false, DefaultHost, DefaultTelemetryPort, true);
    var (t, os1) := CreateUdpSocket(os, false, DefaultHost, DefaultTelemetryPort, true);
    CreateKeepsWellFormed(os1, true, DefaultHost, DefaultInputPort, false);
    assert os.bound == map[];
  }

  /** `acShutdown` leaves no socket open and both globals `None`; it keeps the
      invariant, does nothing when no socket is held, and a second call changes
      nothing. */
  lemma ShutdownClosesAll(w: World)
    requires Valid(w)
    ensures var r := AcShutdown(w);
      Valid(r) && r.g.telemetrySock.None? && r.g.inputSock.None? &&
      r.os.live == {} && r.os.bound == map[] && AcShutdown(r) == r &&
      (w.g.telemetrySock.None? && w.g.inputSock.None? ==> r == w)
  {
  }
}
