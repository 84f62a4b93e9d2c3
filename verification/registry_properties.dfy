/**
 * Properties of the tail registry: the invariant every handler preserves,
 * what replacement, stop and disconnect do to handles, where the handles'
 * events go, and what the concatenated key means for sockets whose ids are
 * prefixes of one another.
 */
module RegistryProperties {
  import opened Basics
  import opened Priming
  import opened TailRegistry

  /**
   * Each key holds one handle, stored under its own socket + path; the stored
   * handles are exactly the live ones (none leaked, none unwatched); every
   * handle ever created has an id below `nextId`.
   */
  ghost predicate Valid(st: Registry)
  {
    && (forall k | k in st.tails :: st.tails[k] in st.live && KeyOf(st.tails[k]) == k)
    && (forall t | t in st.live :: KeyOf(t) in st.tails && st.tails[KeyOf(t)] == t)
    && st.live !! st.retired
    && (forall t | t in st.live :: t.id < st.nextId)
    && (forall t | t in st.retired :: t.id < st.nextId)
  }

  lemma StartTailPreservesValid(st: Registry, socket: SocketId, filePath: string, lines: LinesArg, fileExists: bool)
    requires Valid(st)
    ensures Valid(StartTail(st, socket, filePath, lines, fileExists))
  {
  }

  /**
   * Restarting a tail on an existing file replaces the handle: the old one
   * is unwatched and gone, the key holds a new live handle that was never
   * seen before.
   */
  lemma StartTailReplacesHandle(st: Registry, socket: SocketId, filePath: string, lines: LinesArg)
    requires Valid(st)
    requires Key(socket, filePath) in st.tails
    ensures var r := StartTail(st, socket, filePath, lines, true);
            var prior := st.tails[Key(socket, filePath)];
            && prior in r.retired && prior !in r.live
            && r.tails[Key(socket, filePath)] in r.live
            && r.tails[Key(socket, filePath)] != prior
            && r.tails[Key(socket, filePath)] !in st.live + st.retired
  {
  }

  lemma StopTailPreservesValid(st: Registry, socket: SocketId, filePath: string)
    requires Valid(st)
    ensures Valid(StopTail(st, socket, filePath))
  {
  }

  /** Stopping twice is stopping once. */
  lemma StopTailIdempotent(st: Registry, socket: SocketId, filePath: string)
    ensures StopTail(StopTail(st, socket, filePath), socket, filePath) == StopTail(st, socket, filePath)
  {
  }

  lemma DisconnectPreservesValid(st: Registry, socket: SocketId)
    requires Valid(st)
    ensures Valid(Disconnect(st, socket))
  {
  }

  /** A live handle survives a disconnect exactly when its key does not start with the id. */
  lemma DisconnectRemovesExactlyPrefixed(st: Registry, socket: SocketId)
    requires Valid(st)
    ensures var r := Disconnect(st, socket);
            forall t | t in st.live :: (t in r.live <==> !(socket <= KeyOf(t)))
    ensures var r := Disconnect(st, socket);
            forall t | t in st.live && socket <= KeyOf(t) :: t in r.retired
  {
  }

  lemma ApplyPreservesValid(st: Registry, step: Step)
    requires Valid(st)
    ensures Valid(Apply(st, step))
  {
  }

  /** Handles only ever move from live to retired, never back. */
  lemma ApplyKeepsRetired(st: Registry, step: Step)
    requires Valid(st)
    ensures st.retired <= Apply(st, step).retired
    ensures st.live + st.retired <= Apply(st, step).live + Apply(st, step).retired
  {
  }

  /**
   * Over any sequence of events the invariant holds, and a handle that was
   * unwatched stays unwatched: it is never live or stored again.
   */
  lemma {:induction false} RunPreservesValid(st: Registry, steps: seq<Step>)
    requires Valid(st)
    ensures Valid(Run(st, steps))
    ensures st.retired <= Run(st, steps).retired
    ensures forall t | t in st.retired :: t !in Run(st, steps).live
    decreases |steps|
  {
    if |steps| > 0 {
      ApplyPreservesValid(st, steps[0]);
      ApplyKeepsRetired(st, steps[0]);
      RunPreservesValid(Apply(st, steps[0]), steps[1..]);
    }
  }

  /**
   * The service starts valid, so every reachable registry is valid. The
   * second clause follows from `Valid`; it is spelled out because it is the
   * fact `stopTail` and `disconnect` rely on when they call `unwatch`: no
   * handle still stored in the map was unwatched before.
   */
  lemma ReachableIsValid(steps: seq<Step>)
    ensures Valid(Run(Empty(), steps))
    ensures forall k | k in Run(Empty(), steps).tails ::
      Run(Empty(), steps).tails[k] !in Run(Empty(), steps).retired
  {
    RunPreservesValid(Empty(), steps);
  }

  /** An unwatched handle produces no events. */
  lemma RetiredHandleIsSilent(st: Registry, t: Tail, line: string, message: string)
    requires Valid(st)
    requires t in st.retired
    ensures TailLine(st, t, line) == st
    ensures TailFailure(st, t, message) == st
  {
  }

  /** Some handle created by `socket` for `filePath`, live or already unwatched. */
  ghost predicate StartedBy(st: Registry, socket: SocketId, filePath: string)
  {
    exists t | t in st.live + st.retired :: t.socket == socket && t.filePath == filePath
  }

  /**
   * Every emit tagged with a path goes to a socket that started a tail on
   * that path, and every outstanding priming command belongs to one.
   */
  ghost predicate Routed(st: Registry)
  {
    && (forall i | 0 <= i < |st.log| && st.log[i].filePath.Some? ::
          StartedBy(st, st.log[i].socket, st.log[i].filePath.value))
    && (forall request | request in st.pending :: StartedBy(st, request.socket, request.filePath))
  }

  lemma StartedByGrows(st: Registry, r: Registry, socket: SocketId, filePath: string)
    requires st.live + st.retired <= r.live + r.retired
    requires StartedBy(st, socket, filePath)
    ensures StartedBy(r, socket, filePath)
  {
  }

  lemma ApplyPreservesRouted(st: Registry, step: Step)
    requires Routed(st)
    ensures Routed(Apply(st, step))
  {
    var r := Apply(st, step);
    assert st.live + st.retired <= r.live + r.retired by {
      if step.StartTailStep? && step.fileExists {
        assert StoredAt(st, Key(step.socket, step.filePath)) <= r.retired;
      }
    }
    assert r.log[..|st.log|] == st.log;
    forall i | 0 <= i < |r.log| && r.log[i].filePath.Some?
      ensures StartedBy(r, r.log[i].socket, r.log[i].filePath.value)
    {
      if i < |st.log| {
        assert r.log[i] == st.log[i];
        StartedByGrows(st, r, st.log[i].socket, st.log[i].filePath.value);
      } else {
        match step
        case LineStep(t, line) =>
          assert t in r.live;
        case TailErrorStep(t, message) =>
          assert t in r.live;
        case PrimingDoneStep(request, outcome) =>
          StartedByGrows(st, r, request.socket, request.filePath);
      }
    }
    forall request | request in r.pending
      ensures StartedBy(r, request.socket, request.filePath)
    {
      if request in st.pending {
        StartedByGrows(st, r, request.socket, request.filePath);
      } else {
        assert step.StartTailStep?;
        assert Tail(st.nextId, request.socket, request.filePath) in r.live;
      }
    }
  }

  /**
   * From service start, over any events, every `data` or `error` emit that
   * names a file reaches a socket that started a tail on that very file.
   */
  lemma {:induction false} RunPreservesRouted(st: Registry, steps: seq<Step>)
    requires Routed(st)
    ensures Routed(Run(st, steps))
    decreases |steps|
  {
    if |steps| > 0 {
      ApplyPreservesRouted(st, steps[0]);
      RunPreservesRouted(Apply(st, steps[0]), steps[1..]);
    }
  }

  /** From service start, every emit naming a file went to a socket that tailed it. */
  lemma ReachableIsRouted(steps: seq<Step>)
    ensures Routed(Run(Empty(), steps))
  {
    RunPreservesRouted(Empty(), steps);
  }

  /**
   * A handle's events carry the socket and path of the `startTail` that
   * created it, even after other events have run.
   */
  lemma StartedHandleReportsToStarter(st: Registry, socket: SocketId, filePath: string, lines: LinesArg, line: string)
    ensures var st1 := StartTail(st, socket, filePath, lines, true);
            var t := st1.tails[Key(socket, filePath)];
            var st2 := TailLine(st1, t, line);
            && st2.log == st.log + [Emit(socket, Data, Some(filePath), line)]
  {
  }

  /**
   * The key is a plain concatenation, so two different (socket, path) pairs
   * can share an entry: socket "ab" starting "c" replaces the tail socket
   * "a" started on "bc".
   */
  lemma ConcatenatedKeysCollide(st: Registry, s1: SocketId, p1: string, s2: SocketId, p2: string, lines: LinesArg)
    requires Valid(st)
    requires Key(s1, p1) in st.tails
    requires s1 + p1 == s2 + p2
    ensures var prior := st.tails[Key(s1, p1)];
            var r := StartTail(st, s2, p2, lines, true);
            prior in r.retired && prior !in r.live && r.tails[Key(s1, p1)].socket == s2
  {
  }

  lemma CollisionWitness()
    ensures var st1 := StartTail(Empty(), "a", "bc", None, true);
            var st2 := StartTail(st1, "ab", "c", None, true);
            && Tail(0, "a", "bc") in st1.live
            && Tail(0, "a", "bc") in st2.retired && Tail(0, "a", "bc") !in st2.live
  {
    assert Key("a", "bc") == Key("ab", "c");
  }

  /**
   * Disconnect matches on key prefixes, so it also unwatches the tails of
   * every socket whose id starts with the disconnecting one.
   */
  lemma DisconnectReachesLongerIds(st: Registry, socket: SocketId, t: Tail)
    requires Valid(st)
    requires t in st.live
    requires socket <= t.socket
    ensures t in Disconnect(st, socket).retired && t !in Disconnect(st, socket).live
  {
  }

  /**
   * Socket ids of one fixed length (as Socket.IO issues them) make the
   * concatenated key injective.
   */
  lemma EqualLengthIdsKeyInjective(s1: SocketId, p1: string, s2: SocketId, p2: string)
    requires |s1| == |s2|
    ensures Key(s1, p1) == Key(s2, p2) <==> s1 == s2 && p1 == p2
  {
  }

  /**
   * With ids of one fixed length, disconnect unwatches exactly the handles
   * the disconnecting socket started.
   */
  lemma EqualLengthIdsDisconnectExact(st: Registry, socket: SocketId)
    requires Valid(st)
    requires forall t | t in st.live :: |t.socket| == |socket|
    ensures forall t | t in st.live :: (t in Disconnect(st, socket).live <==> t.socket != socket)
  {
  }

  /**
   * The priming command is not cancelled by `stopTail`: its output still
   * reaches the socket, tagged with the path, after the tail was stopped.
   */
  lemma PrimingOutlivesStop(st: Registry, socket: SocketId, filePath: string, lines: LinesArg, fileLines: seq<Line>)
    ensures var st1 := StopTail(StartTail(st, socket, filePath, lines, true), socket, filePath);
            var request := PrimeRequest(socket, filePath, PrimingCount(lines));
            && Key(socket, filePath) !in st1.tails
            && request in st1.pending
            && var st2 := CompletePriming(st1, request, Stdout(fileLines));
               st2.log == st.log + [Emit(socket, Data, Some(filePath), JoinLines(LastLines(fileLines, PrimingCount(lines))))]
  {
  }
}
