# AC_RL telemetry app and receiver, modelled in Dafny

The model covers the two programs that make up the Assetto Corsa telemetry bridge:

- **The in-game app (`AC_RL.py`).** It keeps two UDP endpoints in module globals.
  - The *telemetry* socket is unbound and blocking. Each tick's payload is sent through it to `telemetry_addr`.
  - The *input* socket is bound and non-blocking. It receives JSON commands.
- **The stand-alone receiver (`telemetry.py`).** It aggregates incoming datagrams and prints at most one summary per second.

Each game tick (`acUpdate`) does the following, in this order:

1. It reads the command file `AC_RL_input.json`. The file is looked for in the documents directory first, then in the app's own directory.
2. It applies the file's dict with `handle_input_data`. The key groups are applied in a fixed order: telemetry target, telemetry enable, input target, input enable, reset.
3. It drains the input socket until `recvfrom` raises. Datagrams that do not decode are skipped.
4. If the tyre module is loaded and the label update succeeded, it builds the payload through `safe_call`.
5. It sends the payload by UDP. If no socket is held or the send raises, it writes the payload to `AC_RL_telemetry.json` through a temporary file.

The files are laid out as follows:

- **`json.dfy` (module `Json`).** Decoded JSON values, with the two Python coercions the app applies to them:
  - `bool(v)`;
  - `int(v)`, which covers strings with surrounding whitespace, a sign and underscores.
- **`platform.dfy` (module `Platform`).** The environment as a value `OsState`:
  - open sockets and their local addresses;
  - per-socket receive queues;
  - the sent-datagram log;
  - the files;
  - failure oracles for `open`, `os.replace` and `os.rename`;
  - the log of host commands.

  The `Os` class holds that value as mutable state.
- **`transport.dfy` (module `Transport`).** Every operation of the app as a function from one `World` (globals plus environment) to the next. It also has the invariant `Valid`, which every command group keeps. `Valid` says:
  - each address matches its host and port;
  - no socket is leaked;
  - there is at most one socket per endpoint;
  - only the input socket is bound.
- **`publisher.dfy` (module `Publisher`).** `safe_call`, the payload, the delivery policy and `acUpdate` as functions.
- **`acrl.dfy` (module `AcRl`).** The app as it runs. The globals are the fields of the class `TransportState`. Each entry point is a method that updates them and the `Os` object step by step, including the `while True` drain loop and the tyre-building loop. Each method is proved to end in the state the corresponding function prescribes.
- **`commands.dfy` (module `Commands`).** What each key group of `handle_input_data` promises.
- **`ticks.dfy` (module `Ticks`).** What a tick promises as a whole:
  - command order;
  - drain behaviour;
  - reset being one-shot;
  - delivery;
  - payload shape;
  - the endpoint lifecycle.
- **`hexdump.dfy` (module `HexDump`).** `hexdump` as a function returning the printed lines, with the proof that every byte is shown in its place.
- **`receiver.dfy` (module `Receiver`).** The receiver's loop:
  - one pass as the function `Step`;
  - a run over a finite trace of receive events as `Run`;
  - the script's own loop as the class `Aggregator`, whose fields are `last_pkt`, `pkt_count` and `last_print`.

Some of the code's behaviour is easy to get wrong, or differs from earlier documentation of the app; the model follows the code:

- An `input_udp_host`/`input_udp_port` command binds a new input socket even when input was switched off (AC_RL.py:242-248).
- The command file is re-read on every tick. If it keeps an `input_udp_port`, the input socket is closed and rebound every tick, before the drain runs. As a consequence, datagrams queued on the old socket are never read (`Ticks.PersistedPortDropsQueue`).
- A retarget received by UDP takes effect in the same tick's send, not the next one. Commands are processed before the payload is delivered.
- The tyre records use the keys `temp_i`, `temp_m` and `temp_o`, not the `temp_inner`, `temp_middle` and `temp_outer` of earlier documentation.

## Model

| member | source | states |
|---|---|---|
| Json.Get | AC_RL.py:177-178 | `dict.get`: the stored value when the key is present, the default otherwise |
| Json.Truncate | AC_RL.py:180 | `int()` of a float truncates toward zero: the result lies within 1 of the argument, on the side of zero |
| Json.PyInt | AC_RL.py:180 | `int(v)` of a JSON integer is that integer; of `null`, a list or a dict it raises (`None`) |
| Json.ParseIntShowInt | AC_RL.py:180 | `int(str(n)) == n` for every integer, both on the string and on a JSON string value |
| Json.ParseIntIgnoresSpaces | AC_RL.py:180 | `int()` of a string ignores leading and trailing whitespace |
| Json.NoDigitNoInt | AC_RL.py:180 | a string with no digit does not convert with `int()` |
| Platform.Join | AC_RL.py:341-343 | `os.path.join(dir, name)` as on Windows: `dir`, then a backslash unless `dir` is empty, a bare drive or already ends in a separator, then `name` |
| Transport.CommandFilePath | AC_RL.py:336-349 | the file in the documents directory when it exists; otherwise the one in the app directory when that exists; `None` exactly when neither exists |
| Transport.CreateKeepsWellFormed | AC_RL.py:87-104 | socket creation yields a new open id that holds no queue, bound exactly when asked and blocking as asked, or `None` with nothing changed |
| Transport.TelemetryTarget | AC_RL.py:176-195 | specification of the telemetry target group; its properties are `Commands.TelemetryRetarget`, `Commands.TelemetryTargetNeedsKey` and `Transport.TelemetryTargetKeepsValid` |
| Transport.TelemetryEnable | AC_RL.py:197-225 | specification of `use_udp_telemetry`; its properties are `Commands.TelemetrySwitch`, `Commands.TelemetryEnableIdempotent` and `Transport.TelemetryEnableKeepsValid` |
| Transport.InputTarget | AC_RL.py:227-262 | specification of the input target group; its properties are `Commands.InputRetarget`, `Commands.RebindSameAddress`, `Commands.InputTargetNeedsKey` and `Transport.InputTargetKeepsValid` |
| Transport.InputEnable | AC_RL.py:264-292 | specification of `use_input_udp`; its properties are `Commands.InputSwitch`, `Commands.InputEnableIdempotent` and `Transport.InputEnableKeepsValid` |
| Transport.Reset | AC_RL.py:294-319 | specification of the reset group; its properties are `Commands.ResetEffects`, `Commands.ClearedKeepsOtherKeys` and `Ticks.ResetIsOneShot` |
| Transport.HandleInputData | AC_RL.py:162-326 | specification of `handle_input_data`; its properties are `Commands.NonDictIgnored`, `Commands.UnknownKeysIgnored`, `Ticks.RetargetThenEnable`, `Ticks.RetargetThenDisable` and `Transport.HandleInputDataKeepsBacklog` |
| Transport.ProcessCommandFile | AC_RL.py:350-372 | specification of the file step; its properties are `Ticks.ResetIsOneShot`, `Ticks.PersistedPortRebinds` and `Ticks.CommandsKeepSent` |
| Transport.DrainInput | AC_RL.py:374-400 | specification of the drain loop; its properties are `Ticks.DrainKeepsFiles`, `Ticks.SkipsMalformed`, `Ticks.DrainStopsAtFailure`, `Ticks.DrainSkipsAllMalformed`, `Ticks.DrainIdle` and `Ticks.DrainOneCommand` |
| Transport.CheckInputFile | AC_RL.py:329-400 | specification of `check_input_file`; its properties are `Ticks.FileBeforeUdp`, `Ticks.PersistedPortDropsQueue` and `Ticks.CommandsKeepSent` |
| Transport.AcMain | AC_RL.py:443-461 | specification of the socket part of `acMain`; its property is `Ticks.MainEstablishesValid` |
| Transport.AcShutdown | AC_RL.py:693-722 | specification of `acShutdown`; its property is `Ticks.ShutdownClosesAll` |
| Transport.TelemetryTargetKeepsValid | AC_RL.py:176-195 | the telemetry retarget keeps the transport invariant and the input backlog |
| Transport.TelemetryEnableKeepsValid | AC_RL.py:197-225 | `use_udp_telemetry` keeps the invariant: never two telemetry sockets, none leaked |
| Transport.InputTargetKeepsValid | AC_RL.py:227-262 | the input rebind keeps the invariant (at most one input socket) and never lengthens the input backlog |
| Transport.InputEnableKeepsValid | AC_RL.py:264-292 | `use_input_udp` keeps the invariant and never lengthens the input backlog |
| Transport.ResetKeepsValid | AC_RL.py:294-319 | a reset keeps the invariant and the input backlog |
| Transport.HandleInputDataKeepsBacklog | AC_RL.py:162-326 | a whole command keeps the invariant and never lengthens the queue being drained, so the drain ends |
| Publisher.SafeCall | AC_RL.py:67-83 | the default for a missing module or attribute; any other result is what a callable attribute returned for these arguments |
| Publisher.TyresUpTo | AC_RL.py:528-565 | `n` records in index order, the `t`-th being tyre `t`'s record |
| Publisher.PublishKeepsValid | AC_RL.py:644-672 | delivery changes no global and keeps the invariant |
| Publisher.Payload | AC_RL.py:567-642 | specification of the payload dict; its properties are `Ticks.PayloadShape`, `Ticks.PayloadTop` and `Ticks.TyreRecordShape` |
| Publisher.Publish | AC_RL.py:644-672 | specification of delivery; its properties are `Ticks.DeliveryPolicy`, `Ticks.PublishSends` and `Publisher.PublishKeepsValid` |
| Publisher.AcUpdate | AC_RL.py:490-690 | specification of `acUpdate`; its properties are `Ticks.TickSendsAtMostOnce` and `Ticks.RetargetReachesNextSend` |
| Ticks.PublishSends | AC_RL.py:644-656 | delivery appends one datagram to the sent log exactly when a socket is held and the send goes through |
| AcRl.CreateUdpSocket | AC_RL.py:87-104 | returns the handle and leaves the environment exactly as `Transport.CreateUdpSocket` prescribes |
| AcRl.CloseSocket | AC_RL.py:107-119 | closing `None` does nothing; closing a socket releases its id, address and queue |
| AcRl.RecvFrom | AC_RL.py:379-382 | returns and removes the next queued datagram, or fails when none is queued |
| AcRl.CallSendCmd | AC_RL.py:122-137 | the code is appended to the host-command log and nothing else changes |
| AcRl.WriteThroughTemp | AC_RL.py:310-319 | the environment afterwards is `Transport.AtomicWrite`'s: write the `.tmp` sibling, then replace, else rename |
| AcRl.SendTo | AC_RL.py:644-656 | succeeds exactly when the send can go through, and only then appends `(addr, payload)` to the sent log |
| AcRl.BuildTyres | AC_RL.py:528-565 | the loop builds four records, the `t`-th with `index` `t`, equal to `TyresUpTo(ti, 4)` |
| AcRl.TransportState.constructor | AC_RL.py:150-159 | the globals as the module defines them on load |
| AcRl.TransportState.AcMain | AC_RL.py:443-461 | the globals and environment afterwards are `Transport.AcMain`'s |
| AcRl.TransportState.ApplyTelemetryTarget | AC_RL.py:176-195 | the new state is `Transport.TelemetryTarget` of the old one |
| AcRl.TransportState.ApplyTelemetryEnable | AC_RL.py:197-225 | the new state is `Transport.TelemetryEnable` of the old one |
| AcRl.TransportState.ApplyInputTarget | AC_RL.py:227-262 | the new state is `Transport.InputTarget` of the old one: close, then bind |
| AcRl.TransportState.ApplyInputEnable | AC_RL.py:264-292 | the new state is `Transport.InputEnable` of the old one |
| AcRl.TransportState.ApplyReset | AC_RL.py:294-319 | sends 68 then 69, then writes back; the new state is `Transport.Reset` of the old one |
| AcRl.TransportState.HandleInputData | AC_RL.py:162-326 | the groups in their fixed order; the new state is `Transport.HandleInputData` of the old one |
| AcRl.TransportState.CheckInputFile | AC_RL.py:329-400 | keeps the invariant and ends in `Transport.CheckInputFile`'s state |
| AcRl.TransportState.DrainInput | AC_RL.py:374-400 | the `while True` loop terminates, keeps the invariant and ends in `Transport.DrainInput`'s state |
| AcRl.TransportState.AcUpdate | AC_RL.py:490-690 | keeps the invariant and ends in `Publisher.AcUpdate`'s state |
| AcRl.TransportState.PublishTick | AC_RL.py:502-672 | nothing without the tyre module or after the label loop raised; otherwise the state `Publisher.Publish` prescribes for this tick's payload |
| AcRl.TransportState.Deliver | AC_RL.py:644-672 | the new state is `Publisher.Publish` of the old one |
| AcRl.TransportState.AcShutdown | AC_RL.py:693-722 | the new state is `Transport.AcShutdown` of the old one |
| Commands.CreateOrNothing | AC_RL.py:87-104 | a socket exactly when creation and, if asked, binding succeed; `None` and no change otherwise; the new socket takes the next unused id and holds its address |
| Commands.CloseFrees | AC_RL.py:107-119 | closing `None` is a no-op; closing frees the id, address and queue and nothing else |
| Commands.NonDictIgnored | AC_RL.py:166-170 | a command that is not a dict changes nothing |
| Commands.UnknownKeysIgnored | AC_RL.py:172-326 | a dict with none of the seven known keys changes nothing |
| Commands.TelemetryRetarget | AC_RL.py:176-195 | a missing host or port defaults to the current one; an unconvertible port changes nothing; the socket, the input side and the environment are never touched |
| Commands.TelemetryTargetNeedsKey | AC_RL.py:176 | without either telemetry target key the group does nothing |
| Commands.TelemetrySwitch | AC_RL.py:197-225 | off with a socket closes it and drops it; on without one creates an unbound blocking socket; off without one or on with one changes nothing |
| Commands.TelemetryEnableIdempotent | AC_RL.py:197-225 | applying `use_udp_telemetry` twice is applying it once |
| Commands.InputRetarget | AC_RL.py:227-262 | with a convertible port the old socket is closed before the bind, even when input was off; only the new socket (or `None`) is held afterwards; an unconvertible port changes nothing |
| Commands.RebindSameAddress | AC_RL.py:235-248 | rebinding the address already held succeeds only because the old socket is closed first |
| Commands.InputTargetNeedsKey | AC_RL.py:227 | without either input target key the group does nothing |
| Commands.InputSwitch | AC_RL.py:264-292 | off with a socket closes it and drops it; on without one binds the input address; the other two cases change nothing |
| Commands.InputEnableIdempotent | AC_RL.py:264-292 | applying `use_input_udp` twice is applying it once |
| Commands.ClearedKeepsOtherKeys | AC_RL.py:312-315 | the written-back dict has the same keys and values except `reset`, which is false |
| Commands.ResetEffects | AC_RL.py:294-319 | only `reset` exactly `true` resets: host commands 68 then 69; no file written without a path; the cleared dict written through the temporary file with one |
| Commands.AtomicWriteAllOrNothing | AC_RL.py:313-319 | the target holds the new data exactly when the temporary file was written and a rename went through, and is as before otherwise; no other file changes |
| Ticks.UdpCommandKeepsFiles | AC_RL.py:392-393 | a command handled without a path never writes a file |
| Ticks.DrainKeepsFiles | AC_RL.py:374-400 | the whole drain writes no file, sends nothing and only appends host commands |
| Ticks.SkipsMalformed | AC_RL.py:383-390 | undecodable datagrams are skipped and the drain continues with what follows them |
| Ticks.DrainStopsAtFailure | AC_RL.py:377-382 | the drain stops at the first failing `recvfrom`; what is queued behind it stays queued |
| Ticks.DrainSkipsAllMalformed | AC_RL.py:377-390 | a queue of undecodable datagrams is emptied and nothing else changes |
| Ticks.DrainIdle | AC_RL.py:375-382 | with nothing queued the drain changes nothing |
| Ticks.DrainOneCommand | AC_RL.py:377-393 | a single decodable datagram is handled without a path, and the drain stops after it |
| Ticks.GroupsKeepFiles | AC_RL.py:176-292 | the four groups before `reset` keep the invariant and touch only socket bookkeeping |
| Ticks.RetargetThenEnable | AC_RL.py:176-225 | the target group runs before the switch: `{"telemetry_udp_port": p, "use_udp_telemetry": true}` with no socket held creates one (exactly when sockets can be created) for port `p` |
| Ticks.RetargetThenDisable | AC_RL.py:227-292 | the input target runs before the switch: `{"input_udp_port": p, "use_input_udp": false}` ends with no input socket and nothing bound, though the retarget bound one first |
| Ticks.CommandFileStays | AC_RL.py:336-349 | writing the command file back keeps it the chosen command file |
| Ticks.ResetIsOneShot | AC_RL.py:294-319 | a reset from the file sends 68 and 69, and the next tick reads the same file holding a command that no longer resets |
| Ticks.PersistedPortRebinds | AC_RL.py:227-262 | a file that keeps `input_udp_port` closes the held input socket on every tick; any socket held afterwards is a new one |
| Ticks.PersistedPortDropsQueue | AC_RL.py:236-248 | with such a file the drain reads only the freshly bound socket, so datagrams queued before the tick are never handled |
| Ticks.PortOnlyCommand | AC_RL.py:176-195 | `{"telemetry_udp_port": p}` retargets to port `p` on the current host and does nothing else |
| Ticks.FileBeforeUdp | AC_RL.py:367-393 | the file command is applied before UDP commands: when both set the port, the datagram's value holds afterwards |
| Ticks.DeliveryPolicy | AC_RL.py:644-672 | one datagram to the telemetry address when a socket is held and the send returns; otherwise the sent log is untouched and the fallback file receives the payload when the write goes through |
| Ticks.CommandsKeepSent | AC_RL.py:329-400 | command processing sends nothing and keeps the documents directory |
| Ticks.TickSendsAtMostOnce | AC_RL.py:490-672 | a tick sends exactly one datagram with its payload when the tyre module is loaded, the labels updated and the send went through, and none otherwise |
| Ticks.RetargetReachesNextSend | AC_RL.py:496-656 | after `{"telemetry_udp_port": 9999}` arrives by UDP, the payload is sent to port 9999 |
| Ticks.PayloadShape | AC_RL.py:528-642 | the payload has exactly its eight keys and four tyre records, the `t`-th with `index` `t` and the eleven tyre keys |
| Ticks.PayloadTop | AC_RL.py:633-642 | the payload's eight keys, with `app` the app name and the timestamp |
| Ticks.TyreRecordShape | AC_RL.py:530-564 | a tyre record has exactly the eleven keys, `index` being the tyre number |
| Ticks.SafeCallOutcomes | AC_RL.py:67-83 | `safe_call` returns the call's value when it returns, and the default when it raises or the module or callable is missing |
| Ticks.MainEstablishesValid | AC_RL.py:443-461 | from load with no socket open, `acMain` establishes the invariant; each socket exists exactly when it could be created (and bound) |
| Ticks.ShutdownClosesAll | AC_RL.py:693-722 | no socket open, both globals `None`, invariant kept; a no-op when nothing is held; a second call changes nothing |
| HexDump.HexNumberOfHex | telemetry.py:11 | hex rendering reads back as the number |
| HexDump.OffsetReadsBack | telemetry.py:11 | an offset below 16^8 is printed as exactly eight lowercase hex digits that read back as the offset |
| HexDump.ByteHex | telemetry.py:9 | each byte is shown as two lowercase hex digits, high nibble first, that read back as the byte |
| HexDump.HexBytes | telemetry.py:9 | the hex column is `3n - 1` characters for `n` bytes |
| HexDump.HexBytesAt | telemetry.py:9 | byte `j` is at columns `3j` and `3j + 1` of the hex column as two lowercase hex digits, followed by a single space unless it is last |
| HexDump.PadRight | telemetry.py:11 | the hex column is kept as it is and filled with spaces on the right up to `width * 3` |
| HexDump.AsciiPart | telemetry.py:10 | one character per byte: the byte itself when it is printable ASCII (32 to 126), `.` otherwise |
| HexDump.Chunk | telemetry.py:8 | the slice holds `width` bytes, or the rest of the input when fewer remain, or none past the end; each is the input byte at its offset |
| HexDump.LineCount | telemetry.py:7 | `ceil(len / width)` lines, every one starting inside the input |
| HexDump.LineLayout | telemetry.py:8-11 | a line shows its offset in eight lowercase hex digits, then byte `j` of its chunk in hex at column `10 + 3j` and in ASCII at column `12 + 3 * width + j` |
| HexDump.ByteShown | telemetry.py:6-11 | every input byte `p` appears on line `p / width`, whose offset field reads `(p / width) * width`, in hex and in ASCII |
| HexDump.HexDump | telemetry.py:6-11 | specification of `hexdump`; its properties are `HexDump.LineCount` and `HexDump.ByteShown` |
| HexDump.DumpLine | telemetry.py:8-11 | specification of one printed line; its property is `HexDump.LineLayout` |
| Receiver.Truncated | telemetry.py:26 | `recvfrom(65536)` yields a prefix of at most 65536 bytes, the whole datagram when it fits |
| Receiver.Classify | telemetry.py:37-61 | binary exactly when UTF-8 decoding fails; the `inputs` field exactly when the JSON is an object holding it; the loop is escaped exactly when other JSON parses; raw text exactly when unparsable and printable; the marker otherwise |
| Receiver.ListensOnTelemetryDefault | telemetry.py:15 | the address the receiver binds (`Aggregator.constructor`) is the app's default telemetry address |
| Receiver.StepSummary | telemetry.py:32-65 | a pass prints exactly when a datagram is pending and a second has passed; the header carries the count, size and sender; after a summary the count is zero, nothing is pending and `last_print` is now |
| Receiver.ReceiveCounts | telemetry.py:25-30 | a datagram becomes the pending one and is counted; a timeout changes nothing; another error escapes the loop |
| Receiver.QuietWindow | telemetry.py:24-35 | within a second of the last summary nothing is printed; every datagram is counted and the last one is pending |
| Receiver.SummariesSpaced | telemetry.py:33-65 | after a summary at time `now`, nothing more is printed before `now + 1.0`; that second's datagrams are counted from zero |
| Receiver.BinaryShowsEveryByte | telemetry.py:37-45 | a non-UTF-8 datagram is hex-dumped with every byte shown on its line |
| Receiver.Step | telemetry.py:24-65 | specification of one pass of the loop; its properties are `Receiver.StepSummary` and `Receiver.ReceiveCounts` |
| Receiver.Summarise | telemetry.py:32-65 | specification of the once-a-second summary; its properties are `Receiver.StepSummary` and `Receiver.BinaryShowsEveryByte` |
| Receiver.Run | telemetry.py:23-67 | specification of the loop over a trace; its properties are `Receiver.QuietWindow` and `Receiver.SummariesSpaced` |
| Receiver.Aggregator.constructor | telemetry.py:14-22 | starts with nothing pending, no count, `last_print` 0 and the socket open and bound to 127.0.0.1:9876 |
| Receiver.Aggregator.Poll | telemetry.py:24-65 | one pass updates the fields and prints as `Step` prescribes, and reports whether the loop goes on |
| Receiver.Aggregator.Serve | telemetry.py:23-67 | the loop prints what `Run` prescribes, and the socket is closed afterwards whether or not an exception escaped |

## Left out

- `file_log` and `ac.log` are left out. `file_log` never raises: its own body catches every `Exception` (AC_RL.py:35-43, and the fallback defined at AC_RL.py:421-427), so even its unguarded call at AC_RL.py:429 cannot end `acMain`.
- The three `ac.log` calls in the handlers of `acUpdate` (AC_RL.py:674, 680, 686) are not wrapped. If one raises, control moves to the next outer handler, and from the outermost the exception escapes `acUpdate`. The model takes `ac.log` as never raising. None of these paths changes a socket, a file or the sent log.
- The window, the labels and their float formatting (AC_RL.py:403-441, 463-478, 510-523) are left out. The only trace of them is the oracle `labelsOk`, which says whether the label loop raised.
- The `sys.path` setup and the imports of `_socket` and `ac_api` (AC_RL.py:11-64) are left out. They are environment glue. A failed import appears as a module that is `None`.
- The internals of `call_sendcmd` (AC_RL.py:122-137) are not modelled. The code is recorded in the host-command log even when the host offers no function to call.
- JSON text and UTF-8 are not modelled; both are abstract.
  - `json.load(s)` on the command file is the stored `FileData`.
  - `json.loads(pkt.decode("utf-8"))` is the parameter `parse`.
  - In the receiver, `decode` and `parse` are separate parameters.
  - Objects are maps, so key order is not kept.
  - NaN and Infinity are not distinguished from other floats.
- `int()` of a string: only ASCII whitespace and ASCII digits are modelled, not Unicode spaces or digits.
- Sampled host values (speeds, temperatures, vectors) are opaque JSON values, returned by abstract host functions.
- The real socket, file system and clock calls are replaced by oracle fields of `OsState` and by parameters:
  - `time.time()` is `Tick.timestamp` and the receiver trace's times.
  - `os.path.exists` is membership in the file map.
  - Whether `sendto` reaches an address (the name resolves, a route exists) is the set `reachable`.
- A socket whose `bind` fails inside `_create_udp_socket` is not modelled as briefly open. CPython reclaims it when the function returns.
- `close()` is modelled as never failing. The source ignores its failure anyway.
- `HexDump.HexDump` requires `width > 0`. `range` with a zero step raises, so no output exists to model.
- `HexDump.ByteShown` and `Receiver.BinaryShowsEveryByte` assume inputs of at most 16^8 bytes. Beyond that, offsets take more than eight digits.
- `Join` covers a relative file name joined to a directory. The UNC share roots (`\\server\share`) that `ntpath.join` also treats as a drive are not singled out.
- CanSend ignores the payload's size: a payload too large for one datagram (over 65507 bytes), for which `sendto` raises at AC_RL.py:649 and the tick falls back to the file, is modelled as sent. The JSON text of the payload, and so its length, is not modelled.
- Receive queues are fixed when a tick starts. A datagram that arrives during the tick, for example on an input socket bound by this tick's command file, is not modelled. `Ticks.PersistedPortDropsQueue` is about the datagrams queued before the tick.
- The receiver's `s.bind(("127.0.0.1", 9876))` failing at start-up (telemetry.py:15) is not modelled.
- The receiver's `while True` runs over a finite trace of receive events. The end of the trace stands for the interrupt that ends the script, after which `finally` closes the socket.
