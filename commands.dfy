/**
 * The command-line side (src/commands.rs): the daemon supervisor (`start`,
 * `stop`, `status`) and the log reader (`latest`, `clear`).
 */
module Commands {
  import opened Wrappers
  import opened Text
  import opened Config
  import opened Server

  /** How often `start` reads the descriptor before giving up (100 ms apart, 5 s in all). */
  const MAX_POLLS: nat := 50

  // ---- status ----

  /** What `status` reports about the daemon. */
  datatype ServerState = Running(info: ServerInfo) | Stale(info: ServerInfo) | NotRunning

  /** Classifies the descriptor against the process table. */
  function Classify(descriptor: Option<ServerInfo>, live: set<Pid>): (s: ServerState)
    ensures s.Running? <==> descriptor.Some? && descriptor.value.pid in live
    ensures s.Stale? <==> descriptor.Some? && descriptor.value.pid !in live
    ensures s.NotRunning? <==> descriptor.None?
    ensures !s.NotRunning? ==> s.info == descriptor.value
  {
    match descriptor
    case None => NotRunning
    case Some(info) => if info.pid in live then Running(info) else Stale(info)
  }

  datatype StatusReport = StatusReport(server: ServerState, logFile: Path, logExists: bool)

  /** `status`: the daemon's state, with pid and port when a descriptor is present, and whether the log file exists. */
  function Status(h: Host): (r: StatusReport)
    reads h
    requires h.Valid()
    ensures r.server == Classify(h.ReadServerInfo(), h.live)
    ensures r.logFile == LogFile(h.env) && (r.logExists <==> h.log.Some?)
  {
    StatusReport(Classify(h.ReadServerInfo(), h.live), LogFile(h.env), h.log.Some?)
  }

  // ---- latest ----

  /** The line filter: every line without a query, the lines containing it with one. */
  predicate Matches(line: string, query: Option<string>) {
    match query
    case None => true
    case Some(q) => Contains(line, q)
  }

  /** The matching lines, in file order. */
  function Filter(lines: seq<string>, query: Option<string>): (r: seq<string>)
    ensures |r| <= |lines|
    ensures forall k :: 0 <= k < |r| ==> Matches(r[k], query)
  {
    if |lines| == 0 then []
    else
      var last := lines[|lines| - 1];
      Filter(lines[..|lines| - 1], query) + (if Matches(last, query) then [last] else [])
  }

  /** Where in the file each line Filter keeps comes from: exactly the matching positions, ascending. */
  ghost function FilterIndices(lines: seq<string>, query: Option<string>): (r: seq<nat>)
    ensures |r| == |Filter(lines, query)|
    ensures forall k :: 0 <= k < |r| ==> r[k] < |lines| && lines[r[k]] == Filter(lines, query)[k]
    ensures forall j, k :: 0 <= j < k < |r| ==> r[j] < r[k]
    ensures forall i :: 0 <= i < |lines| && Matches(lines[i], query) ==> i in r
  {
    if |lines| == 0 then []
    else
      var last := |lines| - 1;
      var init := lines[..last];
      assert forall i :: 0 <= i < last ==> init[i] == lines[i];
      FilterIndices(init, query) + (if Matches(lines[last], query) then [last] else [])
  }

  /** `usize::saturating_sub`. */
  function SaturatingSub(a: nat, b: nat): nat {
    if a >= b then a - b else 0
  }

  /** `latest(n, query)`: the last `n` matching lines, or all of them when fewer match. */
  function Latest(lines: seq<string>, n: nat, query: Option<string>): (r: seq<string>)
    ensures |r| <= n
    ensures |r| == if n <= |Filter(lines, query)| then n else |Filter(lines, query)|
    ensures forall k :: 0 <= k < |r| ==> Matches(r[k], query)
    ensures r == Filter(lines, query)[|Filter(lines, query)| - |r|..]
  {
    var filtered := Filter(lines, query);
    filtered[SaturatingSub(|filtered|, n)..]
  }

  /** The file positions of the lines Latest returns. */
  ghost function LatestIndices(lines: seq<string>, n: nat, query: Option<string>): seq<nat> {
    var all := FilterIndices(lines, query);
    all[SaturatingSub(|all|, n)..]
  }

  /** A selection of lines by ascending positions stays one when only its tail is kept. */
  lemma TailOfSelection(lines: seq<string>, picked: seq<string>, at: seq<nat>, start: nat)
    requires |at| == |picked| && start <= |at|
    requires forall k :: 0 <= k < |at| ==> at[k] < |lines| && lines[at[k]] == picked[k]
    requires forall j, k :: 0 <= j < k < |at| ==> at[j] < at[k]
    ensures var r, idx := picked[start..], at[start..];
      |idx| == |r|
      && (forall k :: 0 <= k < |idx| ==> idx[k] < |lines| && lines[idx[k]] == r[k])
      && (forall j, k :: 0 <= j < k < |idx| ==> idx[j] < idx[k])
  {
    var r, idx := picked[start..], at[start..];
    forall k | 0 <= k < |idx|
      ensures idx[k] < |lines| && lines[idx[k]] == r[k]
    {
      assert idx[k] == at[start + k] && r[k] == picked[start + k];
    }
    forall j, k | 0 <= j < k < |idx|
      ensures idx[j] < idx[k]
    {
      assert idx[j] == at[start + j] && idx[k] == at[start + k];
    }
  }

  /** Latest returns lines of the file, in the file's order. */
  lemma LatestKeepsFileOrder(lines: seq<string>, n: nat, query: Option<string>)
    ensures var r, idx := Latest(lines, n, query), LatestIndices(lines, n, query);
      |idx| == |r|
      && (forall k :: 0 <= k < |idx| ==> idx[k] < |lines| && lines[idx[k]] == r[k])
      && (forall j, k :: 0 <= j < k < |idx| ==> idx[j] < idx[k])
  {
    var all, filtered := FilterIndices(lines, query), Filter(lines, query);
    var start := SaturatingSub(|all|, n);
    TailOfSelection(lines, filtered, all, start);
  }

  /** In an ascending sequence, a position in it at or after the tail's first element lies in the tail. */
  lemma InAscendingTail(all: seq<nat>, start: nat, i: nat)
    requires start <= |all|
    requires forall j, k :: 0 <= j < k < |all| ==> all[j] < all[k]
    requires i in all
    requires start == 0 || (start < |all| && all[start] <= i)
    ensures i in all[start..]
  {
    var p :| 0 <= p < |all| && all[p] == i;
    assert start <= p;
    assert all[start..][p - start] == i;
  }

  /**
   * Latest leaves out no matching line that comes after the first one it
   * returns, and none at all when it returns fewer than `n`: it is the tail
   * of the matches.
   */
  lemma LatestIsTailOfMatches(lines: seq<string>, n: nat, query: Option<string>, i: nat)
    requires i < |lines| && Matches(lines[i], query)
    requires var idx := LatestIndices(lines, n, query); |idx| < n || (|idx| > 0 && idx[0] <= i)
    ensures i in LatestIndices(lines, n, query)
  {
    var all := FilterIndices(lines, query);
    var start := SaturatingSub(|all|, n);
    assert i in all;
    if start > 0 {
      assert LatestIndices(lines, n, query)[0] == all[start];
    }
    InAscendingTail(all, start, i);
  }

  /** Without a query every line passes the filter. */
  lemma {:induction false} FilterWithoutQuery(lines: seq<string>)
    ensures Filter(lines, None) == lines
  {
    if |lines| > 0 {
      FilterWithoutQuery(lines[..|lines| - 1]);
      assert lines == lines[..|lines| - 1] + [lines[|lines| - 1]];
    }
  }

  /** Without a query `latest` is the plain tail of the file. */
  lemma LatestWithoutQuery(lines: seq<string>, n: nat)
    ensures Latest(lines, n, None) == lines[SaturatingSub(|lines|, n)..]
  {
    FilterWithoutQuery(lines);
  }

  /** The edge cases of `saturating_sub`: a large `n` returns every match, `n = 0` nothing. */
  lemma LatestBounds(lines: seq<string>, n: nat, query: Option<string>)
    ensures n >= |Filter(lines, query)| ==> Latest(lines, n, query) == Filter(lines, query)
    ensures n == 0 ==> Latest(lines, n, query) == []
  {
  }

  /** Appending a line extends the matches by that line exactly when it matches. */
  lemma FilterAppend(lines: seq<string>, line: string, query: Option<string>)
    ensures Filter(lines + [line], query) == Filter(lines, query) + (if Matches(line, query) then [line] else [])
  {
    assert (lines + [line])[..|lines|] == lines;
  }

  /** After an append, `latest(1)` returns the new record, and it decodes to the body that was posted. */
  lemma NewestRecordIsLatest(lines: seq<string>, ts: string, body: string)
    requires TimestampText(ts)
    ensures Latest(lines + [RecordLine(ts, body)], 1, None) == [RecordLine(ts, body)]
    ensures DecodeRecord(Latest(lines + [RecordLine(ts, body)], 1, None)[0]) == Some(Record(ts, body))
  {
    FilterAppend(lines, RecordLine(ts, body), None);
    DecodeRecordLine(ts, body);
  }

  /** The reader's answer: the missing file is reported, otherwise the selected lines. */
  datatype QueryResult = NoLogFile(path: Path) | Found(lines: seq<string>)

  /** `latest` against the log file. */
  function Query(h: Host, n: nat, query: Option<string>): (r: QueryResult)
    reads h
    requires h.Valid()
    ensures r.NoLogFile? <==> h.log.None?
    ensures r.NoLogFile? ==> r.path == LogFile(h.env)
    ensures r.Found? ==> r.lines == Latest(h.log.value, n, query)
  {
    match h.log
    case None => NoLogFile(LogFile(h.env))
    case Some(lines) => Found(Latest(lines, n, query))
  }

  // ---- clear ----

  /** `clear`: truncates the log file, creating it when absent; fails when its directory is missing or the OS refuses. */
  method Clear(h: Host, fault: Option<string>) returns (r: Result<(), IoError>)
    requires h.Valid()
    modifies h`log
    ensures h.Valid()
    ensures r.Ok? <==> LogsDir(h.env) in h.dirs && fault.None?
    ensures r.Ok? ==> h.log == Some([])
    ensures r.Ok? ==> forall n: nat, q :: Query(h, n, q) == Found([])
    ensures r.Err? ==> h.log == old(h.log)
    ensures r.Err? ==> r.error == if LogsDir(h.env) !in h.dirs then NotFound else OsError(fault.value)
  {
    if LogsDir(h.env) !in h.dirs {
      return Err(NotFound);
    }
    if fault.Some? {
      return Err(OsError(fault.value));
    }
    h.log := Some([]);
    r := Ok(());
  }

  // ---- stop ----

  datatype StopOutcome = NoServer | SignalSent(pid: Pid) | StaleDescriptor(pid: Pid)

  /**
   * `stop`: SIGTERM to a live daemon, then the descriptor is removed whatever
   * the probe said. A refused removal is ignored and the file stays.
   */
  method Stop(h: Host, removeFault: Option<string>) returns (out: StopOutcome)
    requires h.Valid()
    modifies h`descriptor, h`signals
    ensures h.Valid()
    ensures old(h.ReadServerInfo()).None? ==> out == NoServer && unchanged(h)
    ensures old(h.ReadServerInfo()).Some? ==> h.descriptor == AfterRemoval(old(h.descriptor), removeFault)
    ensures out.SignalSent? <==> old(h.ReadServerInfo()).Some? && old(h.ReadServerInfo()).value.pid in h.live
    ensures out.StaleDescriptor? <==> old(h.ReadServerInfo()).Some? && old(h.ReadServerInfo()).value.pid !in h.live
    ensures !out.NoServer? ==> out.pid == old(h.ReadServerInfo()).value.pid
    ensures h.signals == if out.SignalSent? then old(h.signals) + [out.pid] else old(h.signals)
    ensures old(h.Sound()) ==> h.Sound()
  {
    var d := h.ReadServerInfo();
    if d.None? {
      return NoServer;
    }
    var info := d.value;
    if h.ProcessAlive(info.pid) {
      h.signals := h.signals + [info.pid];
      out := SignalSent(info.pid);
    } else {
      out := StaleDescriptor(info.pid);
    }
    var _ := h.RemoveServerInfo(removeFault);
  }

  // ---- start ----

  /** The descriptor file after `remove_server_info` with this OS outcome. */
  function AfterRemoval(descriptor: Option<string>, fault: Option<string>): Option<string> {
    if fault.None? then None else descriptor
  }

  /**
   * How the spawned child behaves: its startup completes while the
   * supervisor's attempt `readyAt` (counted from 0) is pending, with this
   * bind result and descriptor-write outcome.
   */
  datatype ChildRun = ChildRun(readyAt: nat, bind: BindResult, writeFault: Option<string>)

  /** What makes `start` panic: the directories cannot be created, or the child cannot be launched. */
  datatype StartFailure = CannotCreateDirs(io: IoError) | CannotSpawn

  datatype StartOutcome =
    | AlreadyRunning(info: ServerInfo)
    | Started(info: ServerInfo)
    | TimedOut(child: Pid)
    | Panicked(failure: StartFailure)

  /** A descriptor naming a live process. */
  predicate LiveDaemon(descriptor: Option<ServerInfo>, live: set<Pid>) {
    descriptor.Some? && descriptor.value.pid in live
  }

  /**
   * The steps of `start` before the spawn: return at once when a live
   * daemon is recorded, remove a stale descriptor, create the directories
   * (a failure panics), and remove the descriptor once more. Both removals
   * ignore their errors.
   */
  method Prepare(h: Host, staleFault: Option<string>, dirFault: Option<string>, againFault: Option<string>)
    returns (early: Option<StartOutcome>)
    requires h.Valid()
    modifies h`descriptor, h`dirs
    ensures h.Valid()
    ensures old(h.Sound()) ==> h.Sound()
    ensures LiveDaemon(old(h.ReadServerInfo()), h.live) ==>
      early == Some(AlreadyRunning(old(h.ReadServerInfo()).value)) && unchanged(h)
    ensures var proceed := !LiveDaemon(old(h.ReadServerInfo()), h.live);
      var dirsOk := LogsDir(h.env) in old(h.dirs) || dirFault.None?;
      var afterStale := if old(h.ReadServerInfo()).Some? then AfterRemoval(old(h.descriptor), staleFault) else old(h.descriptor);
      && (proceed && !dirsOk ==>
            (early == Some(Panicked(CannotCreateDirs(OsError(dirFault.value)))) && h.dirs == old(h.dirs)
            && h.descriptor == afterStale))
      && (proceed && dirsOk ==>
            (early.None? && h.descriptor == AfterRemoval(afterStale, againFault)
            && h.dirs == old(h.dirs) + DirChain(h.env)))
  {
    var recorded := h.ReadServerInfo();
    if recorded.Some? {
      if h.ProcessAlive(recorded.value.pid) {
        return Some(AlreadyRunning(recorded.value));
      }
      var _ := h.RemoveServerInfo(staleFault);
    }
    var made := h.EnsureDirs(dirFault);
    if made.Err? {
      return Some(Panicked(CannotCreateDirs(made.error)));
    }
    var _ := h.RemoveServerInfo(againFault);
    early := None;
  }

  /**
   * The spawn and the wait loop of `start`: launch the child (a failed spawn
   * panics), then up to MAX_POLLS reads of the descriptor, succeeding at the
   * first that finds one, whoever wrote it. The child's startup runs while
   * the attempt `child.readyAt` is pending; when it fails the child exits. A
   * descriptor still on disk when the loop begins is found by the first
   * read, unless the child has replaced it by then.
   */
  method SpawnAndAwait(h: Host, spawnOk: bool, childPid: Pid, child: ChildRun) returns (out: StartOutcome, polls: nat)
    requires h.Valid() && LogsDir(h.env) in h.dirs
    requires childPid !in h.live
    requires BindAllowed(h.listeners, DAEMON_PORT, child.bind)
    modifies h`descriptor, h`dirs, h`live, h`listeners, h`spawns
    ensures h.Valid()
    ensures h.dirs == old(h.dirs)
    ensures polls <= MAX_POLLS
    ensures !spawnOk ==>
      out == Panicked(CannotSpawn) && polls == 0 && h.descriptor == old(h.descriptor)
      && h.spawns == old(h.spawns) && h.live == old(h.live) && h.listeners == old(h.listeners)
    ensures spawnOk ==> h.spawns == old(h.spawns) + [Spawn(childPid, old(h.descriptor))]
    ensures var stale := old(h.ReadServerInfo());
      var up := child.readyAt < MAX_POLLS && child.bind.Bound? && child.writeFault.None?;
      var childFirst := spawnOk && up && (stale.None? || child.readyAt == 0);
      && (childFirst ==>
            (out == Started(ServerInfo(childPid, DAEMON_PORT)) && polls == child.readyAt + 1
            && h.ReadServerInfo() == Some(out.info)
            && h.live == old(h.live) + {childPid} && h.listeners == old(h.listeners)[childPid := DAEMON_PORT]))
      && (spawnOk && !childFirst && stale.Some? ==>
            (out == Started(stale.value) && polls == 1 && h.descriptor == old(h.descriptor)
            && h.listeners == old(h.listeners)
            && h.live == if child.readyAt == 0 then old(h.live) else old(h.live) + {childPid}))
      && (spawnOk && !childFirst && stale.None? ==>
            (out == TimedOut(childPid) && polls == MAX_POLLS && h.descriptor == old(h.descriptor)
            && h.listeners == old(h.listeners)
            && h.live == if child.readyAt < MAX_POLLS then old(h.live) else old(h.live) + {childPid}))
      && (old(h.Sound()) && !(stale.Some? && stale.value.pid == childPid) ==> h.Sound())
  {
    if !spawnOk {
      return Panicked(CannotSpawn), 0;
    }
    h.spawns := h.spawns + [Spawn(childPid, h.descriptor)];
    h.live := h.live + {childPid};
    ghost var stale, spawned, sound := h.ReadServerInfo(), h.live, h.Sound();
    for attempt := 0 to MAX_POLLS
      invariant h.Valid() && h.dirs == old(h.dirs) && h.spawns == old(h.spawns) + [Spawn(childPid, old(h.descriptor))]
      invariant h.descriptor == old(h.descriptor) && h.listeners == old(h.listeners)
      invariant stale.Some? ==> attempt == 0
      invariant attempt <= child.readyAt ==> h.live == spawned
      invariant attempt > child.readyAt ==> h.live == old(h.live)
      invariant attempt > child.readyAt ==> !(child.bind.Bound? && child.writeFault.None?)
      invariant sound ==> h.Sound()
    {
      if attempt == child.readyAt {
        var _ := ServeCommand(h, childPid, None, child.bind, child.writeFault);
      }
      var seen := h.ReadServerInfo();
      if seen.Some? {
        return Started(seen.value), attempt + 1;
      }
    }
    out, polls := TimedOut(childPid), MAX_POLLS;
  }

  /**
   * `start`: returns at once when a live daemon is recorded; otherwise
   * removes a stale descriptor, creates the directories, removes the
   * descriptor again, spawns the child and reads the descriptor up to
   * MAX_POLLS times, succeeding at the first read that finds one. `polls`
   * counts those reads. A timeout leaves the child running. When both
   * removals are refused, the old descriptor is what the first read finds,
   * unless the child has already replaced it by publishing its own.
   */
  method Start(h: Host, staleFault: Option<string>, dirFault: Option<string>, againFault: Option<string>,
               spawnOk: bool, childPid: Pid, child: ChildRun)
    returns (out: StartOutcome, polls: nat)
    requires h.Valid()
    requires childPid !in h.live
    requires BindAllowed(h.listeners, DAEMON_PORT, child.bind)
    modifies h`descriptor, h`dirs, h`live, h`listeners, h`spawns
    ensures h.Valid()
    ensures polls <= MAX_POLLS
    ensures out.AlreadyRunning? <==> LiveDaemon(old(h.ReadServerInfo()), old(h.live))
    ensures out.AlreadyRunning? ==> out.info == old(h.ReadServerInfo()).value && unchanged(h) && polls == 0
    ensures var recorded := old(h.ReadServerInfo());
      var proceed := !LiveDaemon(recorded, old(h.live));
      var dirsOk := LogsDir(h.env) in old(h.dirs) || dirFault.None?;
      var afterStale := if recorded.Some? then AfterRemoval(old(h.descriptor), staleFault) else old(h.descriptor);
      var leftover := AfterRemoval(afterStale, againFault);
      && (proceed && !dirsOk ==>
            (out == Panicked(CannotCreateDirs(OsError(dirFault.value))) && polls == 0
            && h.dirs == old(h.dirs) && h.descriptor == afterStale))
      && (proceed && dirsOk ==> h.dirs == old(h.dirs) + DirChain(h.env))
      && (proceed && dirsOk && !spawnOk ==> out == Panicked(CannotSpawn) && polls == 0 && h.descriptor == leftover)
      && var spawned := proceed && dirsOk && spawnOk;
      && (spawned ==> h.spawns == old(h.spawns) + [Spawn(childPid, leftover)])
      && (!spawned ==> h.spawns == old(h.spawns) && h.live == old(h.live) && h.listeners == old(h.listeners))
      && var stale := if leftover.Some? then recorded else None;
      && var up := child.readyAt < MAX_POLLS && child.bind.Bound? && child.writeFault.None?;
      && var childFirst := spawned && up && (stale.None? || child.readyAt == 0);
      && (out.Started? <==> spawned && (up || stale.Some?))
      && (childFirst ==>
            (out.info == ServerInfo(childPid, DAEMON_PORT) && polls == child.readyAt + 1
            && h.ReadServerInfo() == Some(out.info)
            && h.live == old(h.live) + {childPid} && h.listeners == old(h.listeners)[childPid := DAEMON_PORT]))
      && (spawned && !childFirst && stale.Some? ==>
            (out.info == stale.value && polls == 1 && h.descriptor == leftover && h.listeners == old(h.listeners)
            && h.live == if child.readyAt == 0 then old(h.live) else old(h.live) + {childPid}))
      && (out.TimedOut? <==> spawned && !up && stale.None?)
      && (out.TimedOut? ==>
            (out.child == childPid && polls == MAX_POLLS && h.descriptor == leftover && h.listeners == old(h.listeners)
            && h.live == if child.readyAt < MAX_POLLS then old(h.live) else old(h.live) + {childPid}))
      && (old(h.Sound()) && !(stale.Some? && stale.value.pid == childPid) ==> h.Sound())
  {
    var early := Prepare(h, staleFault, dirFault, againFault);
    if early.Some? {
      return early.value, 0;
    }
    out, polls := SpawnAndAwait(h, spawnOk, childPid, child);
  }

  // ---- Scenarios ----

  /**
   * Two starts with no stop between: the first launches the daemon, the
   * second finds it alive, changes nothing and never launches `otherPid`.
   * `other` describes a child that would fail to bind 2999, which the first
   * daemon holds; that is all `Start`'s bind precondition asks of it.
   */
  method StartTwice(h: Host, childPid: Pid, child: ChildRun, otherPid: Pid, other: ChildRun)
    returns (first: StartOutcome, second: StartOutcome)
    requires h.Valid() && h.ReadServerInfo().None?
    requires childPid !in h.live && otherPid !in h.live && otherPid != childPid
    requires BindAllowed(h.listeners, DAEMON_PORT, child.bind)
    requires child.readyAt < MAX_POLLS && child.bind.Bound? && child.writeFault.None?
    requires other.bind.BindFailed?
    modifies h`descriptor, h`dirs, h`live, h`listeners, h`spawns
    ensures first == Started(ServerInfo(childPid, DAEMON_PORT))
    ensures second == AlreadyRunning(first.info)
    ensures h.ReadServerInfo() == Some(first.info) && h.spawns == old(h.spawns) + [Spawn(childPid, None)]
  {
    var polls;
    first, polls := Start(h, None, None, None, true, childPid, child);
    second, polls := Start(h, None, None, None, true, otherPid, other);
  }

  /**
   * A daemon that dies without `stop` leaves a stale descriptor; `status`
   * says so, and the next `start` replaces it with the new daemon's.
   */
  method RestartAfterCrash(h: Host, childPid: Pid, child: ChildRun) returns (seen: StatusReport, out: StartOutcome)
    requires h.Valid() && h.Sound()
    requires Status(h).server.Running?
    requires childPid !in h.live - {Status(h).server.info.pid}
    requires BindAllowed(h.listeners - {Status(h).server.info.pid}, DAEMON_PORT, child.bind)
    requires child.readyAt < MAX_POLLS && child.bind.Bound? && child.writeFault.None?
    modifies h`descriptor, h`dirs, h`live, h`listeners, h`spawns
    ensures seen.server == Stale(old(h.ReadServerInfo()).value)
    ensures out == Started(ServerInfo(childPid, DAEMON_PORT))
    ensures h.ReadServerInfo() == Some(out.info) && h.Sound()
  {
    var crashed := Status(h).server.info.pid;
    h.Exit(crashed);
    seen := Status(h);
    var polls;
    out, polls := Start(h, None, None, None, true, childPid, child);
  }

  /**
   * The code trusts a pid it finds: a daemon dies without `stop` and an
   * unrelated process receives its pid. `start` then reports a daemon
   * already running, and `stop` sends SIGTERM to a process that listens on
   * no port.
   */
  method PidReuse(h: Host, childPid: Pid, child: ChildRun) returns (started: StartOutcome, stopped: StopOutcome)
    requires h.Valid() && h.Sound()
    requires Status(h).server.Running?
    requires childPid !in h.live
    requires BindAllowed(h.listeners - {Status(h).server.info.pid}, DAEMON_PORT, child.bind)
    modifies h`descriptor, h`dirs, h`live, h`listeners, h`spawns, h`signals
    ensures var info := old(h.ReadServerInfo()).value;
      && started == AlreadyRunning(info)
      && stopped == SignalSent(info.pid)
      && info.pid in h.live && info.pid !in h.listeners
      && h.signals == old(h.signals) + [info.pid]
  {
    var reused := Status(h).server.info.pid;
    h.Exit(reused);
    h.Launch(reused);
    assert !h.Sound();
    var polls;
    started, polls := Start(h, None, None, None, true, childPid, child);
    stopped := Stop(h, None);
  }
}
