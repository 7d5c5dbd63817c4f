/**
 * The operating system and the game host as seen by the telemetry app: the
 * process's UDP sockets, the files it reads and writes, and the host commands it
 * issues. None of this is the app's own code; it is the environment whose
 * behaviour the app's control logic is stated against. Each fallible call is
 * decided by a field of the state (an oracle), so every operation is a function.
 */
module Platform {
  import opened Wrappers
  import opened Json

  newtype byte = x: int | 0 <= x < 256

  /** A `(host, port)` tuple. The host is whatever value a command supplied. */
  datatype Address = Address(host: Value, port: int)

  /** One UDP socket of this process: its identity, the local address it is
      bound to (if it was bound) and whether it blocks. */
  datatype Handle = Handle(id: nat, local: Option<Address>, blocking: bool)

  /** What `recvfrom` on a socket yields: a datagram, or an `OSError`. */
  datatype RecvItem = Datagram(data: seq<byte>, from: Address) | RecvFailure

  /** The content of a file as `json.load` sees it. */
  datatype FileData = Json(v: Value) | Unparseable

  datatype OsState = OsState(
    socketsAvailable: bool,            // socket.socket() succeeds
    bindable: set<Address>,            // addresses a bind may take
    live: set<nat>,                    // ids of this process's open sockets
    bound: map<nat, Address>,          // local address of each bound open socket
    nextId: nat,                       // id of the next socket created
    queues: map<nat, seq<RecvItem>>,   // what recvfrom will yield, per open socket
    reachable: set<Address>,           // addresses sendto delivers to: the name resolves, a route exists
    sent: seq<(Address, Value)>,       // datagrams sent, oldest first
    files: map<string, FileData>,
    readOnly: set<string>,             // open(path, "w") raises
    replaceFails: set<string>,         // os.replace(_, path) raises
    renameFails: set<string>,          // os.rename(_, path) raises
    documents: Option<string>,         // ac.getDocumentsPath(); None when it raises
    appDir: string,                    // the directory of the app's own source
    hostCommands: seq<int>             // codes handed to the host, oldest first
  )

  /** Ports a socket address can carry; Python raises `OverflowError` outside. */
  predicate ValidPort(p: int) { 0 <= p < 0x1_0000 }

  /** `s.bind(a)` succeeds: the host must be a string, the port in range, and
      no open socket of this process may hold the address already. */
  predicate CanBind(os: OsState, a: Address) {
    a.host.Str? && ValidPort(a.port) && a in os.bindable && a !in os.bound.Values
  }

  /** `s.sendto(data, a)` returns instead of raising: the host must be a
      string, the port in range, and the address one the environment can reach
      (an unresolvable name raises `gaierror`, a missing route `OSError`). */
  predicate CanSend(os: OsState, a: Address) {
    a.host.Str? && ValidPort(a.port) && a in os.reachable
  }

  /** A path separator on Windows, where the host game runs. */
  predicate IsSep(c: char) { c == '\\' || c == '/' }

  /** `os.path.join(dir, name)` (`ntpath.join`) for a relative `name` without a
      drive: a backslash goes between the two unless `dir` is empty, a bare
      drive such as `C:`, or already ends in a separator. */
  function Join(dir: string, name: string): (p: string)
    ensures |dir| + |name| <= |p| <= |dir| + 1 + |name|
    ensures p[..|dir|] == dir && p[|p| - |name|..] == name
    ensures dir == "" ==> p == name
    ensures dir != "" && !IsSep(dir[|dir| - 1]) && !(|dir| == 2 && dir[1] == ':') ==>
              p == dir + "\\" + name
  {
    if dir == "" || IsSep(dir[|dir| - 1]) || (|dir| == 2 && dir[1] == ':') then dir + name
    else dir + "\\" + name
  }

  /** Every datagram queue and every bound address belongs to an open socket, and every open socket's
      id was handed out before `nextId`. */
  predicate WellFormed(os: OsState) {
    os.queues.Keys <= os.live && os.bound.Keys <= os.live &&
    forall id :: id in os.live ==> id < os.nextId
  }

  /** The mutable environment, one object shared by every operation. */
  class Os {
    var state: OsState

    constructor (s: OsState)
      ensures state == s
    {
      state := s;
    }
  }
}
