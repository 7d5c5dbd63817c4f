/**
 * The aggregating receiver of telemetry.py:14-67: a UDP socket bound to
 * 127.0.0.1:9876 with a 0.1 s timeout, read in a loop that counts the
 * datagrams of each one-second window and prints one summary of the last of
 * them.
 *
 * The loop's state is `Loop`; `Step` is one pass of the `while True` body and
 * `Run` a finite run of passes. `Aggregator` is the same loop written as the
 * script writes it, over the fields `last_pkt`, `pkt_count` and `last_print`.
 */
module Receiver {
  import opened Wrappers
  import opened Json
  import opened Platform
  import H = HexDump
  import Transport

  /** `s.bind(("127.0.0.1", 9876))` */
  const ListenAddress: Address := Address(Str("127.0.0.1"), 9876)

  /** `s.recvfrom(65536)`: a longer datagram is cut to this many bytes. */
  const BufferSize: nat := 65536

  /** The width `hexdump(data)` uses. */
  const DumpWidth: nat := 16

  datatype Packet = Packet(data: seq<byte>, from: Address)

  /** What one `s.recvfrom(65536)` does: a datagram arrives, the 0.1 s timeout
      expires (`socket.timeout`), or some other error is raised. */
  datatype RecvEvent = Arrived(p: Packet) | TimedOut | Failed

  /** What a summary prints: its header line, then one of four bodies. */
  datatype Report =
    | Header(count: nat, size: nat, from: Address)  // "got N packets, last S bytes from A"
    | Binary(lines: seq<string>)                     // "binary data:" and the hex dump
    | Inputs(v: Value)                               // `json.dumps(obj, indent=2)`
    | Text(text: string)                             // the text as it came
    | Garbled                                        // the fixed marker line

  /** `last_pkt`, `pkt_count`, `last_print` */
  datatype Loop = Loop(lastPkt: Option<Packet>, pktCount: nat, lastPrint: real)

  const Start: Loop := Loop(None, 0, 0.0)

  /** After some passes: the loop goes on from `st`, or an exception has
      escaped it; `out` is what was printed. */
  datatype Outcome = Running(st: Loop, out: seq<Report>) | Stopped(out: seq<Report>)

  /** Events of a run, each with the `time.time()` read after it. */
  type Trace = seq<(RecvEvent, real)>

  /** The bytes `recvfrom` hands back for a datagram. */
  function Truncated(p: Packet): (q: Packet)
    ensures |q.data| <= BufferSize && |q.data| <= |p.data| && q.from == p.from
    ensures q.data == p.data[..|q.data|]
    ensures |p.data| <= BufferSize ==> q == p
  {
    if |p.data| <= BufferSize then p else p.(data := p.data[..BufferSize])
  }

  /** telemetry.py:25-30: a datagram replaces the pending one and is counted;
      a timeout is ignored; any other error escapes (`None`). */
  function Receive(st: Loop, ev: RecvEvent): Option<Loop> {
    match ev
    case Arrived(p) => Some(st.(lastPkt := Some(Truncated(p)), pktCount := st.pktCount + 1))
    case TimedOut => Some(st)
    case Failed => None
  }

  /** telemetry.py:58: every character is printable ASCII or one of `\r\n\t`. */
  predicate Printable(text: string) {
    forall i :: 0 <= i < |text| ==> (32 <= text[i] as int < 127 || text[i] in "\r\n\t")
  }

  /**
   * telemetry.py:37-61: the body printed for a datagram. `decode` stands for
   * `data.decode("utf-8")` and `parse` for `json.loads`, each `None` where it
   * raises (a `UnicodeDecodeError`, a `ValueError`). The result is `None` where
   * `json.loads(text)["inputs"]` raises anything else: a `KeyError` for an
   * object without "inputs", a `TypeError` for any other JSON value.
   */
  function Classify(data: seq<byte>, decode: seq<byte> -> Option<string>,
                    parse: string -> Option<Value>): (r: Option<Report>)
    ensures r == Some(Binary(H.HexDump(data, DumpWidth))) <==> decode(data).None?
    ensures r.Some? && r.value.Inputs? <==>
            decode(data).Some? && parse(decode(data).value).Some? &&
            parse(decode(data).value).value.Obj? && "inputs" in parse(decode(data).value).value.fields
    ensures r.Some? && r.value.Inputs? ==> r.value.v == parse(decode(data).value).value.fields["inputs"]
    ensures r.None? <==>
            decode(data).Some? && parse(decode(data).value).Some? &&
            !(parse(decode(data).value).value.Obj? && "inputs" in parse(decode(data).value).value.fields)
    ensures r.Some? && r.value.Text? <==>
            decode(data).Some? && parse(decode(data).value).None? && Printable(decode(data).value)
    ensures r.Some? && r.value.Text? ==> r.value.text == decode(data).value
    ensures r == Some(Garbled) <==>
            decode(data).Some? && parse(decode(data).value).None? && !Printable(decode(data).value)
  {
    match decode(data)
    case None => Some(Binary(H.HexDump(data, DumpWidth)))
    case Some(text) =>
      match parse(text)
      case Some(v) => if v.Obj? && "inputs" in v.fields then Some(Inputs(v.fields["inputs"])) else None
      case None => Some(if Printable(text) then Text(text) else Garbled)
  }

  /** telemetry.py:33-65: the summary of the pending datagram, printed when one
      is pending and a second has passed since the last summary. */
  function Summarise(st: Loop, now: real, decode: seq<byte> -> Option<string>,
                     parse: string -> Option<Value>): Outcome
  {
    if st.lastPkt.Some? && now - st.lastPrint >= 1.0 then
      var p := st.lastPkt.value;
      var header := Header(st.pktCount, |p.data|, p.from);
      match Classify(p.data, decode, parse)
      case None => Stopped([header])
      case Some(body) => Running(Loop(None, 0, now), [header, body])
    else
      Running(st, [])
  }

  /** One pass of the `while True` body. */
  function Step(st: Loop, ev: RecvEvent, now: real, decode: seq<byte> -> Option<string>,
                parse: string -> Option<Value>): Outcome
  {
    match Receive(st, ev)
    case None => Stopped([])
    case Some(st1) => Summarise(st1, now, decode, parse)
  }

  /** `out` printed before the outcome `o`. */
  function Then(out: seq<Report>, o: Outcome): (r: Outcome)
    ensures r.Running? == o.Running? && r.out == out + o.out
    ensures o.Running? ==> r.st == o.st
  {
    match o
    case Running(st, more) => Running(st, out + more)
    case Stopped(more) => Stopped(out + more)
  }

  /** The passes over `trace`, up to the first one an exception escapes. */
  function Run(st: Loop, trace: Trace, decode: seq<byte> -> Option<string>,
               parse: string -> Option<Value>): Outcome
    decreases |trace|
  {
    if trace == [] then Running(st, [])
    else
      match Step(st, trace[0].0, trace[0].1, decode, parse)
      case Stopped(out) => Stopped(out)
      case Running(st1, out) => Then(out, Run(st1, trace[1..], decode, parse))
  }

  /** The datagrams among the events. */
  function Arrivals(trace: Trace): nat {
    if trace == [] then 0 else (if trace[0].0.Arrived? then 1 else 0) + Arrivals(trace[1..])
  }

  /** The last datagram among the events, `last` when there is none. */
  function LastArrival(last: Option<Packet>, trace: Trace): Option<Packet>
    decreases |trace|
  {
    if trace == [] then last
    else LastArrival(if trace[0].0.Arrived? then Some(Truncated(trace[0].0.p)) else last, trace[1..])
  }

  // ---------------------------------------------------------------------------
  // What the loop promises

  /** The receiver listens where AC_RL sends telemetry by default. */
  lemma ListensOnTelemetryDefault()
    ensures ListenAddress == Address(Transport.DefaultHost, Transport.DefaultTelemetryPort)
  {
  }

  /**
   * A pass that raises nothing prints either nothing, leaving the received
   * state as it is, or one summary: the header with the window's count and the
   * pending datagram's size and sender, then a body, after which the count is
   * zero, nothing is pending and `last_print` is the current time. It prints
   * exactly when a datagram is pending and a second has passed.
   */
  lemma StepSummary(st: Loop, ev: RecvEvent, now: real, decode: seq<byte> -> Option<string>,
                    parse: string -> Option<Value>)
    requires !ev.Failed?
    ensures var st1 := Receive(st, ev).value;
            var r := Step(st, ev, now, decode, parse);
            st1.lastPrint == st.lastPrint &&
            (r.out != [] <==> st1.lastPkt.Some? && now - st.lastPrint >= 1.0) &&
            (r.out == [] ==> r == Running(st1, [])) &&
            (r.out != [] ==>
               r.out[0] == Header(st1.pktCount, |st1.lastPkt.value.data|, st1.lastPkt.value.from) &&
               (r.Stopped? <==> Classify(st1.lastPkt.value.data, decode, parse).None?) &&
               (r.Stopped? ==> |r.out| == 1) &&
               (r.Running? ==> |r.out| == 2 && r.st == Loop(None, 0, now)))
  {
  }

  /** A datagram is counted and becomes the pending one; a timeout changes
      nothing; any other receive error ends the loop with nothing printed. */
  lemma ReceiveCounts(st: Loop, ev: RecvEvent, now: real, decode: seq<byte> -> Option<string>,
                      parse: string -> Option<Value>)
    requires now - st.lastPrint < 1.0
    ensures ev.Arrived? ==>
              Step(st, ev, now, decode, parse)
              == Running(Loop(Some(Truncated(ev.p)), st.pktCount + 1, st.lastPrint), [])
    ensures ev.TimedOut? ==> Step(st, ev, now, decode, parse) == Running(st, [])
    ensures ev.Failed? ==> Step(st, ev, now, decode, parse) == Stopped([])
  {
  }

  /**
   * Within a second of the last summary nothing is printed: every datagram is
   * counted, the last one is pending, and `last_print` stays.
   */
  lemma {:induction false} QuietWindow(st: Loop, trace: Trace, decode: seq<byte> -> Option<string>,
                                       parse: string -> Option<Value>)
    requires forall k :: 0 <= k < |trace| ==> !trace[k].0.Failed? && trace[k].1 - st.lastPrint < 1.0
    ensures Run(st, trace, decode, parse)
            == Running(Loop(LastArrival(st.lastPkt, trace), st.pktCount + Arrivals(trace), st.lastPrint), [])
    decreases |trace|
  {
    if trace != [] {
      var st1 := Receive(st, trace[0].0).value;
      assert Step(st, trace[0].0, trace[0].1, decode, parse) == Running(st1, []);
      assert forall k :: 0 <= k < |trace[1..]| ==> trace[1..][k] == trace[k + 1];
      QuietWindow(st1, trace[1..], decode, parse);
    }
  }

  /** The pass prints a summary and the loop goes on. */
  predicate Summarised(st: Loop, ev: RecvEvent, now: real, decode: seq<byte> -> Option<string>,
                       parse: string -> Option<Value>)
  {
    !ev.Failed? && now - st.lastPrint >= 1.0 &&
    var st1 := Receive(st, ev).value;
    st1.lastPkt.Some? && Classify(st1.lastPkt.value.data, decode, parse).Some?
  }

  /** After a summary printed at time `now`, nothing more is printed until the
      clock reaches `now + 1.0`: at most one summary per second. The datagrams
      of that second are counted from zero. */
  lemma SummariesSpaced(st: Loop, ev: RecvEvent, now: real, trace: Trace,
                        decode: seq<byte> -> Option<string>, parse: string -> Option<Value>)
    requires Summarised(st, ev, now, decode, parse)
    requires forall k :: 0 <= k < |trace| ==> !trace[k].0.Failed? && trace[k].1 < now + 1.0
    ensures Run(st, [(ev, now)] + trace, decode, parse)
            == Running(Loop(LastArrival(None, trace), Arrivals(trace), now),
                       Step(st, ev, now, decode, parse).out)
  {
    var whole := [(ev, now)] + trace;
    assert whole[0] == (ev, now) && whole[1..] == trace;
    StepSummary(st, ev, now, decode, parse);
    QuietWindow(Loop(None, 0, now), trace, decode, parse);
  }

  /** A datagram that is not UTF-8 is dumped in full: byte `p` is on line
      `p / 16`, in hex and as ASCII, under the offset of that line. */
  lemma BinaryShowsEveryByte(data: seq<byte>, decode: seq<byte> -> Option<string>,
                             parse: string -> Option<Value>, p: nat)
    requires decode(data).None? && p < |data| <= BufferSize
    ensures Classify(data, decode, parse).Some? && Classify(data, decode, parse).value.Binary?
    ensures var lines := Classify(data, decode, parse).value.lines;
            p / DumpWidth < |lines| &&
            H.ShowsByte(lines[p / DumpWidth], (p / DumpWidth) * DumpWidth, DumpWidth, p % DumpWidth, data[p])
  {
    H.ByteShown(data, DumpWidth, p);
  }

  /** What a run prints is what its first pass prints, then what the rest prints. */
  lemma ThenThen(a: seq<Report>, b: seq<Report>, o: Outcome)
    ensures Then(a, Then(b, o)) == Then(a + b, o)
  {
    assert a + (b + o.out) == (a + b) + o.out;
  }

  // ---------------------------------------------------------------------------
  // The loop as the script writes it

  class Aggregator {
    var lastPkt: Option<Packet>
    var pktCount: nat
    var lastPrint: real
    /** The lines printed so far. */
    var printed: seq<Report>
    /** Whether the socket `s` is still open. */
    var open: bool
    /** The address `s` is bound to. */
    var local: Address

    function State(): Loop
      reads this
    {
      Loop(lastPkt, pktCount, lastPrint)
    }

    /** telemetry.py:14-22 */
    constructor ()
      ensures State() == Start && printed == [] && open
      ensures local == ListenAddress
    {
      local := ListenAddress;
      lastPkt, pktCount, lastPrint := None, 0, 0.0;
      printed := [];
      open := true;
    }

    /** One pass of the `while True` body; `false` when an exception escapes. */
    method Poll(ev: RecvEvent, now: real, decode: seq<byte> -> Option<string>,
                parse: string -> Option<Value>) returns (running: bool)
      modifies this
      ensures var r := Step(old(State()), ev, now, decode, parse);
              printed == old(printed) + r.out && running == r.Running? &&
              (running ==> State() == r.st) && open == old(open) && local == old(local)
    {
      match ev {
        case Failed =>
          return false;
        case TimedOut =>
        case Arrived(p) =>
          lastPkt := Some(Truncated(p));
          pktCount := pktCount + 1;
      }
      if lastPkt.Some? && now - lastPrint >= 1.0 {
        var data, addr := lastPkt.value.data, lastPkt.value.from;
        printed := printed + [Header(pktCount, |data|, addr)];
        var text := decode(data);
        if text.None? {
          printed := printed + [Binary(H.HexDump(data, DumpWidth))];
          lastPrint, lastPkt, pktCount := now, None, 0;
          return true;
        }
        var obj := parse(text.value);
        if obj.Some? {
          if !(obj.value.Obj? && "inputs" in obj.value.fields) {
            return false;  // KeyError or TypeError: not caught
          }
          printed := printed + [Inputs(obj.value.fields["inputs"])];
          lastPrint, lastPkt, pktCount := now, None, 0;
          return true;
        }
        if Printable(text.value) {
          printed := printed + [Text(text.value)];
        } else {
          printed := printed + [Garbled];
        }
        lastPrint, lastPkt, pktCount := now, None, 0;
      }
      return true;
    }

    /** `try: while True: ... finally: s.close()` over the events that come
        before the loop is interrupted or an exception escapes it. */
    method Serve(trace: Trace, decode: seq<byte> -> Option<string>, parse: string -> Option<Value>)
      modifies this
      ensures !open && local == old(local)
      ensures var r := Run(old(State()), trace, decode, parse);
              printed == old(printed) + r.out && (r.Running? ==> State() == r.st)
    {
      ghost var st0 := State();
      ghost var out0 := printed;
      ghost var emitted: seq<Report> := [];
      var i := 0;
      while i < |trace|
        invariant 0 <= i <= |trace|
        invariant printed == out0 + emitted && local == old(local)
        invariant Then(emitted, Run(State(), trace[i..], decode, parse)) == Run(st0, trace, decode, parse)
      {
        ghost var before := State();
        assert trace[i..][0] == trace[i] && trace[i..][1..] == trace[i + 1..];
        var running := Poll(trace[i].0, trace[i].1, decode, parse);
        ghost var r := Step(before, trace[i].0, trace[i].1, decode, parse);
        ThenThen(emitted, r.out, if running then Run(State(), trace[i + 1..], decode, parse) else Stopped([]));
        emitted := emitted + r.out;
        if !running {
          open := false;
          return;
        }
        i := i + 1;
      }
      open := false;
    }
  }
}
