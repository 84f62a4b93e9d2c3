/**
 * The per-connection tail registry of the log tailer's socket service: one
 * in-memory map `activeTails` from the string `socket.id + filePath` to a
 * tail handle, changed by the `startTail`, `stopTail` and `disconnect`
 * socket events, plus the events the handles and the priming command later
 * produce. Every transition is a pure function from registry to registry.
 */
module TailRegistry {
  import opened Basics
  import opened Priming

  type SocketId = string

  /**
   * One `Tail` instance of the tail library, as an opaque handle: a fresh id
   * plus the socket and file path its `line`/`error` listeners captured.
   */
  datatype Tail = Tail(id: nat, socket: SocketId, filePath: string)

  /**
   * The map key exactly as the handlers build it: plain concatenation, the
   * socket id followed by the path with no separator.
   */
  function Key(socket: SocketId, filePath: string): (r: string)
    ensures |r| == |socket| + |filePath|
    ensures r[..|socket|] == socket && r[|socket|..] == filePath
  {
    socket + filePath
  }

  function KeyOf(t: Tail): (r: string)
  {
    Key(t.socket, t.filePath)
  }

  /** The two outbound socket events, `data` and `error`. */
  datatype EventKind = Data | Error

  /**
   * One `socket.emit` to connection `socket`; `filePath` is the payload's
   * `filePath` field when it has one.
   */
  datatype Emit = Emit(socket: SocketId, kind: EventKind, filePath: Option<string>, payload: string)

  /** A `tail -n <count> <filePath>` command whose callback has not yet run. */
  datatype PrimeRequest = PrimeRequest(socket: SocketId, filePath: string, count: int)

  /** What the command's callback receives: the file's lines, or an error. */
  datatype ExecOutcome = Stdout(fileLines: seq<Line>) | ExecFailed(message: string)

  /**
   * `tails` is `activeTails`; `live` holds the handles not yet unwatched and
   * `retired` those that were; `nextId` is the id the next handle gets;
   * `pending` the outstanding priming commands; `log` every emit so far.
   */
  datatype Registry = Registry(
    tails: map<string, Tail>,
    live: set<Tail>,
    retired: set<Tail>,
    nextId: nat,
    pending: multiset<PrimeRequest>,
    log: seq<Emit>)

  /** The registry when the service starts. */
  function Empty(): (r: Registry)
  {
    Registry(map[], {}, {}, 0, multiset{}, [])
  }

  function NotFoundError(socket: SocketId, filePath: string): (e: Emit)
  {
    Emit(socket, Error, None, "File not found: " + filePath)
  }

  /** The handle currently stored under `key`, as a set of zero or one. */
  function StoredAt(st: Registry, key: string): (r: set<Tail>)
  {
    if key in st.tails then {st.tails[key]} else {}
  }

  /** `tail.unwatch()` followed by `activeTails.delete(key)`. */
  function Unwatch(st: Registry, key: string): (r: Registry)
    requires key in st.tails
    ensures r.tails == st.tails - {key}
    ensures r.live == st.live - {st.tails[key]}
    ensures r.retired == st.retired + {st.tails[key]}
    ensures r.nextId == st.nextId && r.pending == st.pending && r.log == st.log
  {
    var t := st.tails[key];
    st.(tails := st.tails - {key}, live := st.live - {t}, retired := st.retired + {t})
  }

  /**
   * The `startTail` handler. A missing file only emits "File not found";
   * otherwise the handle under the key is unwatched and removed, the priming
   * command is issued with `lines || 10`, and a fresh handle is stored.
   */
  function StartTail(st: Registry, socket: SocketId, filePath: string, lines: LinesArg, fileExists: bool): (r: Registry)
    ensures !fileExists ==>
      && r.tails == st.tails && r.live == st.live && r.retired == st.retired
      && r.nextId == st.nextId && r.pending == st.pending
      && |r.log| == |st.log| + 1 && r.log[..|st.log|] == st.log
      && r.log[|st.log|] == NotFoundError(socket, filePath)
    ensures fileExists ==>
      var key := Key(socket, filePath);
      var created := Tail(st.nextId, socket, filePath);
      && key in r.tails && r.tails[key] == created
      && r.live == st.live - StoredAt(st, key) + {created}
      && r.retired == st.retired + StoredAt(st, key)
      && r.nextId == st.nextId + 1
      && r.pending == st.pending + multiset{PrimeRequest(socket, filePath, PrimingCount(lines))}
      && r.log == st.log
    ensures forall k | k != Key(socket, filePath) ::
      (k in r.tails <==> k in st.tails) && (k in r.tails ==> r.tails[k] == st.tails[k])
  {
    if !fileExists then
      st.(log := st.log + [NotFoundError(socket, filePath)])
    else
      var key := Key(socket, filePath);
      var cleared := if key in st.tails then Unwatch(st, key) else st;
      var t := Tail(cleared.nextId, socket, filePath);
      cleared.(
        tails := cleared.tails[key := t],
        live := cleared.live + {t},
        nextId := cleared.nextId + 1,
        pending := cleared.pending + multiset{PrimeRequest(socket, filePath, PrimingCount(lines))})
  }

  /** The `stopTail` handler: unwatch and remove the handle if there is one. */
  function StopTail(st: Registry, socket: SocketId, filePath: string): (r: Registry)
    ensures Key(socket, filePath) !in r.tails
    ensures Key(socket, filePath) !in st.tails ==> r == st
    ensures Key(socket, filePath) in st.tails ==>
      && st.tails[Key(socket, filePath)] in r.retired
      && r.live == st.live - {st.tails[Key(socket, filePath)]}
    ensures st.retired <= r.retired
    ensures r.nextId == st.nextId && r.pending == st.pending && r.log == st.log
    ensures forall k | k != Key(socket, filePath) ::
      (k in r.tails <==> k in st.tails) && (k in r.tails ==> r.tails[k] == st.tails[k])
  {
    var key := Key(socket, filePath);
    if key in st.tails then Unwatch(st, key) else st
  }

  /** The keys of `tails` that start with `socket`. */
  function Prefixed(tails: map<string, Tail>, socket: SocketId): (r: set<string>)
  {
    set k | k in tails && socket <= k
  }

  /** The handles stored under the keys `ks`. */
  function HandlesAt(tails: map<string, Tail>, ks: set<string>): (r: set<Tail>)
    requires ks <= tails.Keys
  {
    set k | k in ks :: tails[k]
  }

  /**
   * The `disconnect` handler: every entry whose key starts with the socket
   * id is unwatched and removed; every other entry stays as it was.
   */
  function Disconnect(st: Registry, socket: SocketId): (r: Registry)
    ensures forall k | k in r.tails :: !(socket <= k)
    ensures forall k | k in st.tails && socket <= k ::
      st.tails[k] in r.retired && st.tails[k] !in r.live
    ensures forall k | !(socket <= k) ::
      (k in r.tails <==> k in st.tails) && (k in r.tails ==> r.tails[k] == st.tails[k])
    ensures r.live <= st.live && st.retired <= r.retired
    ensures st.live + st.retired <= r.live + r.retired
    ensures r.nextId == st.nextId && r.pending == st.pending && r.log == st.log
  {
    var gone := Prefixed(st.tails, socket);
    var handles := HandlesAt(st.tails, gone);
    st.(tails := st.tails - gone, live := st.live - handles, retired := st.retired + handles)
  }

  /**
   * The `disconnect` handler as it is written: a loop over the map's
   * entries that unwatches and deletes each entry whose key matches.
   */
  method DisconnectSweep(st: Registry, socket: SocketId) returns (r: Registry)
    ensures r == Disconnect(st, socket)
  {
    var all := Prefixed(st.tails, socket);
    var unvisited := st.tails.Keys;
    r := st;
    while unvisited != {}
      invariant unvisited <= st.tails.Keys
      invariant r.tails == st.tails - (all - unvisited)
      invariant r.live == st.live - HandlesAt(st.tails, all - unvisited)
      invariant r.retired == st.retired + HandlesAt(st.tails, all - unvisited)
      invariant r.nextId == st.nextId && r.pending == st.pending && r.log == st.log
      decreases unvisited
    {
      var key :| key in unvisited;
      ghost var before := all - unvisited;
      unvisited := unvisited - {key};
      if socket <= key {
        assert key in r.tails;
        var t := r.tails[key];
        assert all - unvisited == before + {key};
        assert HandlesAt(st.tails, before + {key}) == HandlesAt(st.tails, before) + {t};
        r := r.(tails := r.tails - {key}, live := r.live - {t}, retired := r.retired + {t});
      } else {
        assert all - unvisited == before;
      }
    }
    assert all - unvisited == all;
  }

  /**
   * A `line` event of handle `t`: a live handle's listener emits `data` to
   * the socket it was started by, tagged with its path; an unwatched
   * handle produces nothing.
   */
  function TailLine(st: Registry, t: Tail, line: string): (r: Registry)
    ensures r.tails == st.tails && r.live == st.live && r.retired == st.retired
    ensures r.nextId == st.nextId && r.pending == st.pending
    ensures t !in st.live ==> r.log == st.log
    ensures t in st.live ==>
      && |r.log| == |st.log| + 1 && r.log[..|st.log|] == st.log
      && r.log[|st.log|].socket == t.socket && r.log[|st.log|].kind == Data
      && r.log[|st.log|].filePath == Some(t.filePath) && r.log[|st.log|].payload == line
  {
    if t in st.live then st.(log := st.log + [Emit(t.socket, Data, Some(t.filePath), line)]) else st
  }

  /**
   * An `error` event of handle `t`: emitted to its socket, tagged with its
   * path. The handle stays registered and live.
   */
  function TailFailure(st: Registry, t: Tail, message: string): (r: Registry)
    ensures r.tails == st.tails && r.live == st.live && r.retired == st.retired
    ensures r.nextId == st.nextId && r.pending == st.pending
    ensures t !in st.live ==> r.log == st.log
    ensures t in st.live ==>
      && |r.log| == |st.log| + 1 && r.log[..|st.log|] == st.log
      && r.log[|st.log|].socket == t.socket && r.log[|st.log|].kind == Error
      && r.log[|st.log|].filePath == Some(t.filePath) && r.log[|st.log|].payload == message
  {
    if t in st.live then st.(log := st.log + [Emit(t.socket, Error, Some(t.filePath), message)]) else st
  }

  /** The emit the priming command's callback makes for `outcome`. */
  function PrimingEmit(request: PrimeRequest, outcome: ExecOutcome): (e: Emit)
    ensures e.socket == request.socket
    ensures outcome.Stdout? ==>
      e.kind == Data && e.filePath == Some(request.filePath) && IsSuffix(e.payload, JoinLines(outcome.fileLines))
    ensures outcome.Stdout? ==> e.payload == JoinLines(LastLines(outcome.fileLines, request.count))
    ensures outcome.Stdout? ==>
      multiset(e.payload)['\n'] == if Abs(request.count) < |outcome.fileLines| then Abs(request.count) else |outcome.fileLines|
    ensures outcome.ExecFailed? ==> e.kind == Error && e.filePath == None
  {
    match outcome
    case Stdout(fileLines) =>
      PrimingIsFileSuffix(fileLines, request.count);
      JoinLinesNewlines(LastLines(fileLines, request.count));
      Emit(request.socket, Data, Some(request.filePath), JoinLines(LastLines(fileLines, request.count)))
    case ExecFailed(message) =>
      Emit(request.socket, Error, None, "Error reading file: " + message)
  }

  /**
   * The priming command's callback: its standard output goes to the
   * requesting socket as one `data` event tagged with the path, or a failure
   * as an untagged `error`. It runs whether or not the tail is still active.
   */
  function CompletePriming(st: Registry, request: PrimeRequest, outcome: ExecOutcome): (r: Registry)
    requires request in st.pending
    ensures r.tails == st.tails && r.live == st.live && r.retired == st.retired && r.nextId == st.nextId
    ensures r.pending + multiset{request} == st.pending
    ensures |r.log| == |st.log| + 1 && r.log[..|st.log|] == st.log
    ensures r.log[|st.log|].socket == request.socket
    ensures outcome.Stdout? ==>
      && r.log[|st.log|].kind == Data
      && r.log[|st.log|].filePath == Some(request.filePath)
      && IsSuffix(r.log[|st.log|].payload, JoinLines(outcome.fileLines))
      && r.log[|st.log|].payload == JoinLines(LastLines(outcome.fileLines, request.count))
      && multiset(r.log[|st.log|].payload)['\n'] ==
           (if Abs(request.count) < |outcome.fileLines| then Abs(request.count) else |outcome.fileLines|)
    ensures outcome.ExecFailed? ==>
      && r.log[|st.log|].kind == Error && r.log[|st.log|].filePath == None
  {
    var emit := PrimingEmit(request, outcome);
    st.(pending := st.pending - multiset{request}, log := st.log + [emit])
  }

  /** One event the service reacts to, from a socket, a handle or a command. */
  datatype Step =
    | StartTailStep(socket: SocketId, filePath: string, lines: LinesArg, fileExists: bool)
    | StopTailStep(socket: SocketId, filePath: string)
    | DisconnectStep(socket: SocketId)
    | LineStep(tail: Tail, line: string)
    | TailErrorStep(tail: Tail, message: string)
    | PrimingDoneStep(request: PrimeRequest, outcome: ExecOutcome)

  /**
   * Dispatch one event to its handler. A priming callback can only run for a
   * command that was issued and has not yet called back; any other is a
   * no-op.
   */
  function Apply(st: Registry, step: Step): (r: Registry)
  {
    match step
    case StartTailStep(socket, filePath, lines, fileExists) => StartTail(st, socket, filePath, lines, fileExists)
    case StopTailStep(socket, filePath) => StopTail(st, socket, filePath)
    case DisconnectStep(socket) => Disconnect(st, socket)
    case LineStep(t, line) => TailLine(st, t, line)
    case TailErrorStep(t, message) => TailFailure(st, t, message)
    case PrimingDoneStep(request, outcome) =>
      if request in st.pending then CompletePriming(st, request, outcome) else st
  }

  /** The registry after a sequence of events, one at a time. */
  function Run(st: Registry, steps: seq<Step>): (r: Registry)
    decreases |steps|
  {
    if |steps| == 0 then st else Run(Apply(st, steps[0]), steps[1..])
  }
}
