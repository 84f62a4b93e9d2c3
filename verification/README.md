# LogTailerApp tail registry, in Dafny

This project models the core of a log-tailing web service. The service lets a
client follow several server files at once over one Socket.IO connection.

Two parts of the service are modelled.

1. **The socket service's tail registry** (`src/services/fileTailHandlers.js`).
   One map, `activeTails`, goes from the string `socket.id + filePath` to a
   tail handle. Three socket events change it: `startTail`, `stopTail` and
   `disconnect`. The model is an immutable `Registry`. It holds that map, the
   set of handles not yet unwatched (`live`), those already unwatched
   (`retired`), the priming `tail -n` commands still outstanding, and a log of
   every `socket.emit`. Each handler is a pure function from one registry to
   the next. So are the events the handles and the priming command produce
   later. `Step`/`Apply`/`Run` replay any sequence of such events.
2. **The test log producer** (`test-log-generator.js`). This covers the line
   format of one entry and the write decision: which file, whether to
   truncate (`"w"`) or append (`"a"`), or not to write at all. It also covers
   the file contents that result. This producer-side truncation is what a
   tailer has to survive.

Modules:

- `Basics` holds `Option`, `Abs`, `IsSuffix` and `IndexOf`.
- `Priming` holds `lines || 10` and the last-lines output of the POSIX `tail`
  utility.
- `TailRegistry` holds the state and the handlers.
- `RegistryProperties` holds the invariant and the lemmas about the registry.
- `LogGenerator` holds the producer.

Inputs the source reads from the environment are parameters of the model:

- whether the file exists (`fs.existsSync`);
- the command's output;
- the `stat` result;
- the level index that `Math.random` picks;
- the timestamp from `new Date()`;
- the message.

### Behaviour of the handlers worth knowing

- **The key is a plain concatenation**, not a composite key. Two different
  pairs can therefore share one entry: socket `"ab"` tailing `"c"` replaces
  the tail that socket `"a"` started on `"bc"`. `disconnect` of `"a"` also
  unwatches the tails of every socket whose id starts with `"a"`. Both
  behaviours are proved (`ConcatenatedKeysCollide`, `CollisionWitness`,
  `DisconnectReachesLongerIds`).
- **Socket.IO issues ids of one fixed length.** Under that assumption the key
  is injective and `disconnect` is exact (`EqualLengthIdsKeyInjective`,
  `EqualLengthIdsDisconnectExact`).
- **A handle's `error` event does not remove its entry.** The handle stays
  stored and live; it is only reported to the socket.
- **The priming output is not cancelled by `stopTail`.** If the `tail -n`
  callback runs after the stop, its output still reaches the socket
  (`PrimingOutlivesStop`).
- **The existence check is `fs.existsSync` only.** A path that exists but is
  not a regular file passes it.
- **The "File not found" error carries no `filePath` field.** The path
  appears only inside the message text.
- **`MAX_LOG_SIZE` is 2 × 1024 = 2048 bytes**, although the comment beside it
  says 20MB.

## Model

| member | source | states |
|---|---|---|
| `Priming.PrimingCount` | src/services/fileTailHandlers.js:27 | the priming count is `lines` when it is a non-zero number and 10 when it is absent or 0, so it is never 0 |
| `Priming.LastLines` | src/services/fileTailHandlers.js:27 | `tail -n k` selects exactly the last min(abs(k), M) of the file's M lines, in file order (a suffix of the lines) |
| `Priming.PrimingIsFileSuffix` | src/services/fileTailHandlers.js:27-34 | the priming text sent to the client is a suffix of the file's contents |
| `Priming.JoinLinesNewlines` | src/services/fileTailHandlers.js:27-34 | complete lines joined with their newlines hold exactly one newline per line, so k joined lines are k lines of text |
| `TailRegistry.Key` | src/services/fileTailHandlers.js:19 | the key is the socket id followed directly by the path: its length is the sum, its first \|socket\| characters are the id and the rest is the path |
| `TailRegistry.Unwatch` | src/services/fileTailHandlers.js:20-22 | unwatching a stored key removes exactly that key, moves its handle from live to unwatched, and changes nothing else |
| `TailRegistry.StartTail` | src/services/fileTailHandlers.js:11-54 | missing file: exactly one "File not found" error to the caller and registry, handles and commands unchanged; existing file: the handle under `socket.id + filePath` is unwatched, a new handle for that socket and path is stored and live, one priming command with `lines \|\| 10` is issued; every other key keeps its handle |
| `TailRegistry.StopTail` | src/services/fileTailHandlers.js:63-69 | the key is gone afterwards, its handle is unwatched, an absent key leaves the registry unchanged, no other key changes, nothing is emitted |
| `TailRegistry.Disconnect` | src/services/fileTailHandlers.js:71-78 | no key starting with the socket id remains, every removed handle is unwatched, keys not starting with it keep their handles, nothing is emitted |
| `TailRegistry.DisconnectSweep` | src/services/fileTailHandlers.js:73-78 | the entry-by-entry loop that unwatches and deletes matching keys ends in exactly the registry `Disconnect` describes |
| `TailRegistry.TailLine` | src/services/fileTailHandlers.js:46-48 | a live handle's line becomes one `data` emit to the handle's socket tagged with its path; an unwatched handle emits nothing; the registry is unchanged |
| `TailRegistry.TailFailure` | src/services/fileTailHandlers.js:50-52 | a live handle's error becomes one `error` emit to its socket tagged with its path; the handle stays stored and live |
| `TailRegistry.PrimingEmit` | src/services/fileTailHandlers.js:28-34 | a command's output becomes a `data` emit to the requesting socket, tagged with its path, whose text is exactly the file's last min(abs(count), M) of its M newline-free lines, each with its newline, so it holds exactly that many newlines and is a suffix of the file; a failure becomes an untagged `error` |
| `TailRegistry.CompletePriming` | src/services/fileTailHandlers.js:27-35 | the callback runs once: the request leaves the outstanding set, one emit goes to the requesting socket carrying exactly the file's last min(abs(count), M) lines and exactly that many newlines (or an untagged `error` on failure), and tails and handles are untouched |
| `RegistryProperties.StartTailPreservesValid` | src/services/fileTailHandlers.js:19-54 | `startTail` keeps the invariant: one handle per key, stored under its own socket + path, stored handles are exactly the live ones, ids below the counter |
| `RegistryProperties.StartTailReplacesHandle` | src/services/fileTailHandlers.js:19-54 | restarting a key unwatches the old handle and stores a new live handle that was never live or unwatched before |
| `RegistryProperties.StopTailPreservesValid` | src/services/fileTailHandlers.js:63-69 | `stopTail` keeps the invariant |
| `RegistryProperties.StopTailIdempotent` | src/services/fileTailHandlers.js:63-69 | stopping twice gives the same registry as stopping once |
| `RegistryProperties.DisconnectPreservesValid` | src/services/fileTailHandlers.js:71-78 | `disconnect` keeps the invariant |
| `RegistryProperties.DisconnectRemovesExactlyPrefixed` | src/services/fileTailHandlers.js:73-77 | a live handle survives a disconnect exactly when its key does not start with the socket id; the others are unwatched |
| `RegistryProperties.ApplyPreservesValid` | src/services/fileTailHandlers.js:8-80 | every socket, handle and command event keeps the invariant |
| `RegistryProperties.RunPreservesValid` | src/services/fileTailHandlers.js:6-80 | over any event sequence the invariant holds, and an unwatched handle is never live or stored again |
| `RegistryProperties.ReachableIsValid` | src/services/fileTailHandlers.js:6-80 | from the empty map, every reachable registry has no leaked and no stale handle |
| `RegistryProperties.RetiredHandleIsSilent` | src/services/fileTailHandlers.js:46-52 | an unwatched handle's line and error events change nothing |
| `RegistryProperties.ApplyPreservesRouted` | src/services/fileTailHandlers.js:34-52 | each event keeps the routing property: every emit tagged with a path went to a socket that started a tail on that path |
| `RegistryProperties.RunPreservesRouted` | src/services/fileTailHandlers.js:34-52 | the routing property holds over any event sequence |
| `RegistryProperties.ReachableIsRouted` | src/services/fileTailHandlers.js:34-52 | from service start, every `data`/`error` emit naming a file reached a socket that started a tail on that file |
| `RegistryProperties.StartedHandleReportsToStarter` | src/services/fileTailHandlers.js:38-54 | the handle `startTail` stores sends its lines to the starting socket, tagged with the requested path |
| `RegistryProperties.ConcatenatedKeysCollide` | src/services/fileTailHandlers.js:19-23 | any two (socket, path) pairs with equal concatenations share one entry: the second `startTail` unwatches the first socket's handle |
| `RegistryProperties.CollisionWitness` | src/services/fileTailHandlers.js:19-54 | socket "ab" starting "c" unwatches the tail socket "a" started on "bc" |
| `RegistryProperties.DisconnectReachesLongerIds` | src/services/fileTailHandlers.js:74 | disconnecting socket s unwatches the live tails of any socket whose id starts with s |
| `RegistryProperties.EqualLengthIdsKeyInjective` | src/services/fileTailHandlers.js:19 | for socket ids of equal length, equal keys mean equal socket and equal path, and conversely |
| `RegistryProperties.EqualLengthIdsDisconnectExact` | src/services/fileTailHandlers.js:73-77 | with equal-length ids, disconnect unwatches exactly the handles of the disconnecting socket |
| `RegistryProperties.PrimingOutlivesStop` | src/services/fileTailHandlers.js:27-35 | after start then stop, the pending command's output still reaches the socket as a `data` emit with the path |
| `LogGenerator.FormatEntry` | test-log-generator.js:31 | the line is the timestamp, ` [`, the level, `] `, the message and one final newline: five characters longer than its three fields |
| `LogGenerator.GenerateLogEntry` | test-log-generator.js:24-33 | the entry's level is the one the drawn index picks from INFO, WARNING, ERROR, DEBUG (so each of the four can be produced), the entry is that level's formatted line, it ends in a newline, and it parses back to its timestamp, level and message |
| `LogGenerator.FormatThenParse` | test-log-generator.js:31 | `<timestamp> [<LEVEL>] <message>\n` parses back to its fields when the timestamp has no space or newline and the message no newline |
| `LogGenerator.ParseThenFormat` | test-log-generator.js:31 | every line that parses is exactly the format of its fields, with a known level and one newline, at the end |
| `LogGenerator.ToLower` | test-log-generator.js:37 | lower-casing keeps length and maps each ASCII capital to its lower-case letter, leaving other characters alone |
| `LogGenerator.LogPath` | test-log-generator.js:37 | the path is the log directory, a separator, the lower-cased level and `.log` |
| `LogGenerator.DistinctLevelsDistinctFiles` | test-log-generator.js:5-37 | two different levels without lower-case letters write two different files `LOG_DIR/<level>.log` |
| `LogGenerator.LogLevelFilesDistinct` | test-log-generator.js:5-37 | the four levels write four different files |
| `LogGenerator.WriteMode` | test-log-generator.js:4-44 | the flag is `"w"` exactly when the size is at least 2048, and `"a"` otherwise |
| `LogGenerator.WriteLog` | test-log-generator.js:36-51 | nothing is written exactly when stat fails with a code other than ENOENT; ENOENT appends as size 0; otherwise the entry goes to the level's file, truncating exactly when the size is at least 2048 |
| `LogGenerator.AfterWrite` | test-log-generator.js:46 | `"w"` replaces the file with the entry; `"a"` keeps the old contents as a prefix and adds the entry after it |
| `LogGenerator.RotationShrinksFile` | test-log-generator.js:43-46 | at or above the limit, a shorter entry truncates: the file becomes just the entry and shrinks |
| `LogGenerator.BelowLimitAppends` | test-log-generator.js:43-46 | below the limit the file only grows; the old contents remain a prefix |
| `LogGenerator.Produce` | test-log-generator.js:36-51 | after `writeLog` runs once per entry on an existing file, no entries leave the file as it was and otherwise the file ends with the last entry written, whether that write truncated or appended |
| `LogGenerator.ProducedSizeBounded` | test-log-generator.js:4-46 | with entries of at most B characters, the file stays below 2048 + B characters however many are written |

## Left out

- The tail library's internals are not modelled. This covers `watchFile` polling, offsets, rotation handling and line splitting. A handle is an opaque id with a live flag. An unwatched handle is taken to emit nothing more.
- The `tail -n` command is not modelled as a process. Its output is abstracted as the last abs(count) complete lines, following the POSIX `tail` utility. A file is modelled as a sequence of lines that contain no newline, each ending in one. A final line without a newline is not modelled, nor is the shell quoting of the path.
- `Priming.PrimingCount`: `lines` is modelled as absent or an integer. Other JavaScript values (strings, fractions, `NaN`, `null`) are not modelled.
- Asynchronous ordering is not modelled, and the `try`/`catch` around the handler is left out. The priming callback may run at any later step. A throwing `Tail` constructor and the "Error starting tail" emit are not modelled.
- Console logging is left out.
- `server.js` (Express, Socket.IO wiring, session and passport gate, glob file search) is not part of this model. Neither are `src/authentication/authenticationSetup.js`, `src/Config/DataBaseConnections.js` and `public/app.js`. They are framework wiring and user interface.
- The log producer's `setInterval`, `Math.random`, `new Date()`, the message table and the `fs` calls are parameters. This includes the start-up `mkdirSync`. A failed `writeFile` is only logged by the source and is not modelled.
- `LogGenerator.ToLower`: lower-cases ASCII letters only. JavaScript's `toLowerCase` also maps other Unicode letters, and the levels are ASCII.
- `LogGenerator.LogPath`: `path.join` is modelled as `LOG_DIR + "/" + name`, assuming a normalised directory without a trailing separator.
- `LogGenerator.ProducedSizeBounded`: sizes are counted in characters. This equals bytes only for ASCII entries, which the producer's messages are.
