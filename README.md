# clog: a verified model of the local log relay's coordination logic

clog is a small command-line log relay. A background daemon accepts JSON
events over HTTP and appends each one, timestamped, as a line of a
newline-delimited JSON file. The same binary also starts, stops and queries
that daemon. The one coordination primitive is a descriptor file,
`~/.clog/server.json`, holding `{pid, port}` of the running daemon.

This project models the three parts that coordinate:

- the **descriptor store and path layout** (`src/config.rs`), in `config.dfy`;
- the **ingestion daemon** (`src/server.rs`), in `server.dfy`: its startup
  order (directories, bind, publish) and the per-request append;
- the **supervisor and log reader** (`src/commands.rs`), in `commands.dfy`:
  `start`, `stop`, `status`, `latest`, `clear`.

The operating system is replaced by the class `Config.Host`. Its fields are:

- the set of existing directories;
- the descriptor file's raw text, `None` when the file is missing;
- the log file's lines, `None` when the file is missing;
- the live processes;
- the daemons listening on a port;
- the SIGTERMs sent and the children spawned, as lists in the order they happened.

`process_alive` (`kill(pid, 0)`) becomes membership in the live set. A
missing directory makes writes fail with `NotFound`, as the OS would, and so
does removing a missing file. For creating the directories, writing or
removing `server.json`, appending to the log and truncating it, any other
failure comes from a `fault: Option<string>` parameter: `Some(m)` means the
OS reports error `m`. Reading `server.json` has no such parameter: an
existing file is always read (see "## Left out"). `start` removes the descriptor twice,
and each removal takes its own fault. For the child process, `start` takes a
`ChildRun`. It says at which poll attempt the child's startup completes,
what its bind returns and whether its descriptor write fails. Inside the
poll loop, at that attempt, the model runs the daemon's own startup
(`Server.ServeCommand`) against the same host. A successful `start` is
therefore proved to read the descriptor that the child itself published,
unless a readable descriptor survives both removals and the child does not
publish its own descriptor at the first attempt.

`Host.Sound()` states the descriptor's promise: a descriptor that names a
live process names a daemon listening on the published port. `stop`, the
daemon's startup and a process exit preserve it. `start` preserves it except
in one case: both removals are refused, and the child it spawns gets the pid
of the dead daemon the old descriptor names.

`Host.Launch` is an environment step: a process the relay did not spawn
starts. It keeps `Sound` unless the new process takes the pid named in the
descriptor, and in that case it breaks `Sound` for certain.

The model exposes two weaknesses of the code:

- The code trusts any live process with the recorded pid. After a daemon
  dies without `stop`, an unrelated process can receive its pid. `start` then
  reports that process as a running daemon, and `stop` sends it SIGTERM
  (`Commands.PidReuse`).
- The code ignores the errors of both removals in `start`. When both are
  refused, the first poll finds the old descriptor, unless the child has
  already replaced it. `start` then reports the dead daemon as started
  (`Commands.Start`).

`text.dfy` holds the text helpers:

- decimal digits, with both directions proved canonical;
- first and last character search;
- substring containment, proved equal to "occurs at some position".

`wrappers.dfy` holds `Option` and `Result`.

Two behaviours of the code that are easy to overlook:

- `stop` with an unparseable `server.json` reports "no server running" and
  leaves the file in place (`src/commands.rs:53-56`). `Commands.Stop`
  removes the file only when it decodes.
- `remove_server_info` on a missing file returns `Err(NotFound)`
  (`src/config.rs:46-48`). Every caller discards that error
  (`src/commands.rs:15`, `20`, `67`).

## Model

| member | source | states |
|---|---|---|
| `Config.PathLayout` | src/config.rs:11-30 | `.clog` is an entry of `$HOME`. `server.json`, `server.log` and `logs` are direct entries of `clog_dir`. `clog.ndjson` is an entry of `logs_dir`, so `ensure_dirs` creates the log file's parent |
| `Config.ClogDirText` | src/config.rs:11-14 | `clog_dir` is `.clog` pushed onto `$HOME`: after a `/`, or with no `/` when `HOME` is empty or already ends in `/` |
| `Config.PathText` | src/config.rs:16-30 | Below `clog_dir` the paths are `.../logs`, `.../logs/clog.ndjson`, `.../server.json` and `.../server.log`. `HOME` must be set |
| `Config.EmptyHomeIsRelative` | src/config.rs:11-13 | An empty `HOME` gives the relative paths `.clog/server.json` and `.clog/logs/clog.ndjson` |
| `Config.PathsDistinct` | src/config.rs:11-30 | The two directories and the three files are five distinct paths, both as component lists and as the texts passed to the OS, so no file aliases another |
| `Config.DecodeEncode` | src/config.rs:36-44 | Decoding the text `write_server_info` writes gives back the same pid and port |
| `Config.EncodeDecode` | src/config.rs:36-39 | Any text that decodes is exactly the encoding of what it decodes to. Everything else reads as `None` |
| `Config.EncodeInjective` | src/config.rs:41-43 | Distinct descriptors are written as distinct texts |
| `Config.Host.ReadServerInfo` | src/config.rs:36-39 | A missing file reads as `None`, never as an error. A descriptor is returned only when the file holds exactly its encoding |
| `Config.Host.WriteServerInfo` | src/config.rs:41-44 | Succeeds iff `clog_dir` exists and the OS cooperates. Then reading returns `Some(info)`. A failure leaves the file as it was and reports `NotFound` or the OS error |
| `Config.Host.RemoveServerInfo` | src/config.rs:46-48 | Succeeds iff the file exists and the OS cooperates, and then the file is absent. A missing file gives `Err(NotFound)`. A refused removal reports the OS error and leaves the file as it was |
| `Config.Host.EnsureDirs` | src/config.rs:32-34 | Succeeds iff `logs_dir` already exists or can be created. Success adds `logs_dir` and its ancestors. An existing `logs_dir` changes nothing. Failure changes nothing |
| `Config.Host.Exit` | src/main.rs:53-56 | A process ends, whether through SIGTERM's eventual effect, a crash, or the daemon's `exit(1)` after a failed startup. It leaves the live set and stops listening, and nothing else changes. `Sound` is kept |
| `Config.Host.Launch` | src/commands.rs:151-153 | The probe only asks whether some process has the pid. A new process keeps `Sound` unless it takes the pid the descriptor names, and in that case it breaks `Sound` |
| `Text.ContainsIffOccurs` | src/commands.rs:117 | The line filter's substring test holds iff the query occurs at some position of the line. The empty query occurs everywhere |
| `Server.Route` | src/server.rs:15-17 | `/` and `/log`, and only those paths, reach the log handler |
| `Server.DecodeRecordLine` | src/server.rs:37-42 | The record line holds the request body unchanged under `data` and the timestamp under `ts`: both read back from the line |
| `Server.RecordLineIsOneLine` | src/server.rs:42-48 | A record built from compact JSON and an RFC 3339 timestamp is a single line of the file |
| `Server.Respond` | src/server.rs:50-56 | Status 200 with `{"ok": true}` exactly on a successful append. Otherwise 500, `ok: false` and the error's text |
| `Server.HandleLog` | src/server.rs:36-57 | When `logs_dir` exists and the OS cooperates, exactly one record line is appended and all earlier lines are kept. A missing file is created. The response is 200. Otherwise the log is unchanged and the response is 500 with the error |
| `Server.Post` | src/server.rs:15-18 | Requests to `/` and to `/log` have the same effect and response. Other paths change nothing |
| `Server.Run` | src/server.rs:12-28 | Steps run in order: directories, bind, publish. A directory failure returns before the bind. A bind failure returns before the descriptor is written. The published descriptor holds the process's own pid and the port actually bound, which is non-zero and equals the requested port unless 0 was asked for. A failed publish drops the listener. Preserves `Sound` |
| `Server.ServeCommand` | src/main.rs:50-57 | The hidden `_serve` entry runs on port 2999. On success the daemon is listening and published. On failure the process exits and nothing is published |
| `Commands.Classify` | src/commands.rs:72-82 | "running" iff a descriptor is present and its pid is alive. "dead (stale)" iff present and dead. "not running" iff absent. pid and port are shown when present |
| `Commands.Status` | src/commands.rs:71-101 | Reports the classification of the current descriptor against the process table, and whether the log file exists |
| `Commands.Filter` | src/commands.rs:116-120 | Keeps at most the lines given, and every kept line matches the query |
| `Commands.FilterIndices` | src/commands.rs:116-120 | The kept lines come from exactly the matching positions of the file, ascending, with none left out |
| `Commands.Latest` | src/commands.rs:116-123 | Returns at most `n` lines, exactly `min(n, number of matches)`, and all of them match. The result is the tail of the filtered lines |
| `Commands.LatestKeepsFileOrder` | src/commands.rs:116-125 | Each returned line is a line of the file. Their file positions strictly increase |
| `Commands.LatestIsTailOfMatches` | src/commands.rs:116-123 | No matching line after the first returned one is missing. When fewer than `n` lines come back, no matching line is missing at all |
| `Commands.FilterWithoutQuery` | src/commands.rs:118-119 | Without `-q` the filtered sequence is every line |
| `Commands.LatestWithoutQuery` | src/commands.rs:118-123 | Without `-q`, `latest(n)` is the last `n` lines of the file, or all of them |
| `Commands.LatestBounds` | src/commands.rs:122 | `n` at least the number of matches returns them all. `n = 0` returns nothing |
| `Commands.FilterAppend` | src/commands.rs:116-120 | An appended line joins the filtered sequence at its end exactly when it matches |
| `Commands.NewestRecordIsLatest` | src/server.rs:37-48 | After an append, `latest(1)` returns the new record line, whose `data` is the posted body and whose `ts` is its stamp |
| `Commands.Query` | src/commands.rs:103-126 | A missing log file is reported with its path. Otherwise the answer is `latest` over the file's lines |
| `Commands.Clear` | src/commands.rs:128-134 | Succeeds iff `logs_dir` exists and the OS cooperates. The log is then empty, and every `latest(n, q)` afterwards returns nothing. Failure leaves the log as it was |
| `Commands.Stop` | src/commands.rs:52-69 | No readable descriptor: reports "no server", changes nothing. Otherwise SIGTERM goes to the pid exactly when it is alive. The file is then removed whatever the liveness, unless the OS refuses, and a refusal is ignored. Preserves `Sound` |
| `Commands.Prepare` | src/commands.rs:10-20 | A live daemon returns at once with its descriptor, and nothing changes. A readable stale descriptor goes to a first removal. A directory failure then panics. Otherwise the directories exist and a second removal follows. The file survives only when every removal tried was refused |
| `Commands.SpawnAndAwait` | src/commands.rs:31-49 | A spawn failure panics and changes nothing. Otherwise exactly one child is spawned, the descriptor at that moment is recorded, and at most 50 reads follow. Success comes at the first read that finds a descriptor. With no readable descriptor left over, or a child that publishes its descriptor at the first attempt, that descriptor is the one the child published, found at read `readyAt + 1`. Otherwise the first read returns the leftover descriptor, also when the child's startup at the first attempt fails. When no descriptor appears, the result is a timeout and a child that is still starting is left alive. Preserves `Sound` unless the child reuses the leftover's pid |
| `Commands.Start` | src/commands.rs:9-50 | Already running: no spawn and no change. Otherwise the descriptor goes through both removals, and a directory failure or a spawn failure panics. Otherwise exactly one child is spawned, and the descriptor at that moment is recorded. With no leftover, the result is success with the child's pid and port 2999 at poll `readyAt + 1`, or a timeout after 50 polls with the child not killed. A readable leftover is reported as started at poll 1, unless the child publishes its descriptor at the first attempt and so replaces it. Preserves `Sound` unless the child reuses the leftover's pid |
| `Commands.StartTwice` | src/commands.rs:9-14 | A second `start` with no `stop` between reports the first daemon as already running and leaves its descriptor unchanged |
| `Commands.RestartAfterCrash` | src/commands.rs:9-20 | After a daemon dies on its own, `status` reports it stale, and the next `start` publishes the new daemon |
| `Commands.PidReuse` | src/commands.rs:10-13 | After a daemon dies and an unrelated process takes its pid, `start` reports "already running", and `stop` sends SIGTERM to a process that listens on no port |

## Left out

- HTTP transport: axum routing and serving, CORS, the tokio runtime, and the endless `axum::serve` loop. `Server.Run` ends at the point where serving begins. Method and status handling for unrouted paths is not modelled.
- JSON values: a request body is represented by its compact JSON text. Arbitrary JSON values and serde's escaping are not modelled.
- Config.Host.ReadServerInfo: a read error on an existing `server.json` is not modelled. Permission denied, a directory at that path, or content that is not UTF-8 all make `read_to_string(...).ok()?` return `None` in the code. The model always reads an existing file and decodes its text. So for an unreadable descriptor naming a live daemon, the model's `start` reports `AlreadyRunning` and its `stop` sends SIGTERM. The code's `start` instead removes the file and spawns a child that cannot bind, and its `stop` reports "no server running".
- Config.Decode: accepts only the compact form serde writes, `{"pid":N,"port":M}`. Whitespace, other key orders and the other spellings serde also accepts read as `None` in the model, not as a descriptor.
- Server.RecordLine: writes keys in sorted order (`data`, then `ts`). This is serde_json's default map order, assuming the `preserve_order` feature is off; the build manifest is not part of this model.
- The clock: `ts` is a parameter whose text is assumed to need no JSON escaping. RFC 3339 formatting, and "not earlier than the send time", are not modelled.
- Process spawning, `current_exe`, redirecting the child's output to `server.log`, and `thread::sleep`. A spawn is an entry in `Host.spawns` plus a new live process. One flag stands for every panic of `src/commands.rs:22-37`. The server log's contents are not modelled.
- `libc::kill`: SIGTERM is recorded in `Host.signals`. The process ends later, through the environment step `Host.Exit`. The `u32` to `i32` cast, pid 0 and `EPERM` get no special treatment: the live set is the set of processes the caller can signal.
- The size display of `status` (floating-point formatting, `src/commands.rs:84-95`): only whether the log file exists is reported.
- `map_while(Result::ok)`: the whole file is read as lines. A read error part-way is not modelled, and neither is a failure to open an existing file.
- Concurrency: the model is sequential. The child's whole startup happens between two polls, and concurrent requests do not interleave. The code takes no locks, so nothing is claimed about races.
- Partial effects: a failed `create_dir_all` creates nothing, and a failed write leaves the file unchanged. A partial last line after a kill is not modelled.
- Paths are modelled by their components. Their text follows `PathBuf::push`: no `/` after an empty or `/`-terminated prefix. A `HOME` that is not Unicode is not modelled: `std::env::var` rejects it and the path functions panic.
- The printed messages become outcome values (`StartOutcome`, `StopOutcome`, `StatusReport`, `QueryResult`). Their wording is not modelled.
- `init` (installing a skill file), CLI parsing apart from the `_serve` port, and the Python test client.
