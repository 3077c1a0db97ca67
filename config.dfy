/**
 * The relay's persistent layout and descriptor store (src/config.rs), over a
 * model of the host: the directories and files under `$HOME/.clog` and the
 * process table.
 */
module Config {
  import opened Wrappers
  import opened Text

  /** A process id as the source stores it (`u32`). */
  type Pid = x: int | 0 <= x < 0x1_0000_0000

  /** A TCP port (`u16`). */
  type Port = x: int | 0 <= x < 0x1_0000

  /** The descriptor a running daemon publishes: its own process id and the port it listens on. */
  datatype ServerInfo = ServerInfo(pid: Pid, port: Port)

  /** The process environment, variable name to value. */
  type Env = map<string, string>

  /** A filesystem path: the `HOME` directory it is resolved against and the components below it. */
  datatype Path = Path(root: string, parts: seq<string>)

  function Join(dir: Path, name: string): Path {
    Path(dir.root, dir.parts + [name])
  }

  /** `p` names the entry `name` directly inside `dir`. */
  predicate EntryOf(p: Path, dir: Path, name: string) {
    |p.parts| > 0 && p.root == dir.root && p.parts[..|p.parts| - 1] == dir.parts
    && p.parts[|p.parts| - 1] == name
  }

  /** `PathBuf::push` puts a `/` before a new component unless the path is empty or already ends in one. */
  predicate NeedsSeparator(s: string) {
    |s| > 0 && s[|s| - 1] != '/'
  }

  /** The text of `prefix` with the component `name` pushed onto it. */
  function Push(prefix: string, name: string): string {
    (if NeedsSeparator(prefix) then prefix + "/" else prefix) + name
  }

  /** The path as text: the root, then each component pushed in turn. */
  function Display(p: Path): string
    decreases |p.parts|
  {
    if |p.parts| == 0 then p.root
    else Push(Display(Path(p.root, p.parts[..|p.parts| - 1])), p.parts[|p.parts| - 1])
  }

  // A missing HOME makes every path function panic; it is their precondition.

  function HomeDir(env: Env): Path
    requires "HOME" in env
  {
    Path(env["HOME"], [])
  }

  function ClogDir(env: Env): Path
    requires "HOME" in env
  {
    Join(HomeDir(env), ".clog")
  }

  function LogsDir(env: Env): Path
    requires "HOME" in env
  {
    Join(ClogDir(env), "logs")
  }

  function LogFile(env: Env): Path
    requires "HOME" in env
  {
    Join(LogsDir(env), "clog.ndjson")
  }

  function ServerJson(env: Env): Path
    requires "HOME" in env
  {
    Join(ClogDir(env), "server.json")
  }

  function ServerLog(env: Env): Path
    requires "HOME" in env
  {
    Join(ClogDir(env), "server.log")
  }

  /** The directories `create_dir_all(logs_dir())` leaves in place: `logs_dir` and every ancestor. */
  function DirChain(env: Env): (chain: set<Path>)
    requires "HOME" in env
    ensures LogsDir(env) in chain && ClogDir(env) in chain && HomeDir(env) in chain
    ensures forall d :: d in chain ==> d.root == env["HOME"] && d.parts <= LogsDir(env).parts
  {
    {HomeDir(env), ClogDir(env), LogsDir(env)}
  }

  /** Joining a name pushes it onto the parent's text. */
  lemma DisplayJoin(dir: Path, name: string)
    ensures Display(Join(dir, name)) == Push(Display(dir), name)
  {
    assert Join(dir, name).parts[..|dir.parts|] == dir.parts;
  }

  /** Where each file lives, relative to the others and to `$HOME`. */
  lemma PathLayout(env: Env)
    requires "HOME" in env
    ensures EntryOf(ClogDir(env), HomeDir(env), ".clog")
    ensures EntryOf(ServerJson(env), ClogDir(env), "server.json")
    ensures EntryOf(ServerLog(env), ClogDir(env), "server.log")
    ensures EntryOf(LogsDir(env), ClogDir(env), "logs")
    ensures EntryOf(LogFile(env), LogsDir(env), "clog.ndjson")
  {
    assert LogFile(env).parts[..2] == LogsDir(env).parts;
  }

  /** The text of `clog_dir` for a given `HOME`: `.clog` pushed onto it. */
  function ClogText(home: string): string {
    Push(home, ".clog")
  }

  /** Pushing onto text that needs a separator writes `/` and the name. */
  lemma PushAfterName(prefix: string, name: string)
    requires NeedsSeparator(prefix)
    ensures Push(prefix, name) == prefix + "/" + name
  {
  }

  /** `clog_dir` as text: after a `/`, or directly when `HOME` is empty or ends in `/`. */
  lemma ClogDirText(env: Env)
    requires "HOME" in env
    ensures Display(ClogDir(env)) == ClogText(env["HOME"])
    ensures NeedsSeparator(env["HOME"]) ==> Display(ClogDir(env)) == env["HOME"] + "/.clog"
    ensures !NeedsSeparator(env["HOME"]) ==> Display(ClogDir(env)) == env["HOME"] + ".clog"
  {
    DisplayJoin(HomeDir(env), ".clog");
  }

  /** An entry of `clog_dir` as text: a `/` and its name after the text of `clog_dir`. */
  lemma BelowClogText(env: Env, name: string)
    requires "HOME" in env
    ensures Display(Join(ClogDir(env), name)) == ClogText(env["HOME"]) + "/" + name
  {
    var clog := ClogText(env["HOME"]);
    ClogDirText(env);
    assert clog[|clog| - 1] == 'g';
    DisplayJoin(ClogDir(env), name);
    PushAfterName(clog, name);
  }

  /** Appending two pieces is appending their concatenation. */
  lemma AppendJoined(a: string, b: string, c: string, bc: string)
    requires b + c == bc
    ensures a + b + c == a + bc
  {
  }

  /** The other four paths as text, below `clog_dir`. */
  lemma PathText(env: Env)
    requires "HOME" in env
    ensures Display(LogsDir(env)) == ClogText(env["HOME"]) + "/logs"
    ensures Display(LogFile(env)) == ClogText(env["HOME"]) + "/logs/clog.ndjson"
    ensures Display(ServerJson(env)) == ClogText(env["HOME"]) + "/server.json"
    ensures Display(ServerLog(env)) == ClogText(env["HOME"]) + "/server.log"
  {
    var clog := ClogText(env["HOME"]);
    BelowClogText(env, "logs");
    AppendJoined(clog, "/", "logs", "/logs");
    BelowClogText(env, "server.json");
    AppendJoined(clog, "/", "server.json", "/server.json");
    BelowClogText(env, "server.log");
    AppendJoined(clog, "/", "server.log", "/server.log");
    var logs := clog + "/logs";
    assert logs[|logs| - 1] == 's';
    DisplayJoin(LogsDir(env), "clog.ndjson");
    PushAfterName(logs, "clog.ndjson");
    AppendJoined(logs, "/", "clog.ndjson", "/clog.ndjson");
    AppendJoined(clog, "/logs", "/clog.ndjson", "/logs/clog.ndjson");
  }

  /** With `HOME` empty the paths are relative to the working directory. */
  lemma EmptyHomeIsRelative(env: Env)
    requires "HOME" in env && env["HOME"] == ""
    ensures Display(ServerJson(env)) == ".clog/server.json"
    ensures Display(LogFile(env)) == ".clog/logs/clog.ndjson"
  {
    PathText(env);
    assert ClogText(env["HOME"]) == ".clog";
  }

  /** Five pairwise different values make a set of five. */
  lemma FiveDistinct<T>(a: T, b: T, c: T, d: T, e: T)
    requires a != b && a != c && a != d && a != e
    requires b != c && b != d && b != e
    requires c != d && c != e && d != e
    ensures |{a, b, c, d, e}| == 5
  {
  }

  /** The descriptor, the daemon's own output, the log file and the directories are five distinct paths, as components and as text. */
  lemma PathsDistinct(env: Env)
    requires "HOME" in env
    ensures |{ClogDir(env), LogsDir(env), LogFile(env), ServerJson(env), ServerLog(env)}| == 5
    ensures |{Display(ClogDir(env)), Display(LogsDir(env)), Display(LogFile(env)),
              Display(ServerJson(env)), Display(ServerLog(env))}| == 5
  {
    var a, b, c, d, e := ClogDir(env), LogsDir(env), LogFile(env), ServerJson(env), ServerLog(env);
    assert |a.parts| == 1 && |b.parts| == 2 && |c.parts| == 3 && |d.parts| == 2 && |e.parts| == 2;
    assert b.parts[1] == "logs" && d.parts[1] == "server.json" && e.parts[1] == "server.log";
    FiveDistinct(a, b, c, d, e);
    ClogDirText(env);
    PathText(env);
    var n := |ClogText(env["HOME"])|;
    var ta, tb, tc, td, te := Display(a), Display(b), Display(c), Display(d), Display(e);
    assert |ta| == n && |tb| == n + 5 && |tc| == n + 17 && |td| == n + 12 && |te| == n + 11;
    FiveDistinct(ta, tb, tc, td, te);
  }

  // ---- The descriptor file's text (what serde_json writes for ServerInfo) ----

  const PID_KEY: string := "{\"pid\":"
  const PORT_KEY: string := ",\"port\":"

  /** Compact JSON for a descriptor, fields in declaration order. */
  function Encode(info: ServerInfo): string {
    PID_KEY + NatToString(info.pid) + PORT_KEY + NatToString(info.port) + "}"
  }

  /**
   * Splits a compact descriptor into the text of its two numbers: the `pid`
   * digits run to the first comma, the `port` digits to the closing brace.
   */
  function Fields(text: string): Option<(string, string)> {
    if !(PID_KEY <= text) then None else SplitFields(text[|PID_KEY|..])
  }

  /** Splits what follows the `pid` key at its first comma. */
  function SplitFields(rest: string): Option<(string, string)> {
    match IndexOf(rest, ',')
    case None => None
    case Some(k) =>
      match PortField(rest[k..])
      case None => None
      case Some(port) => Some((rest[..k], port))
  }

  /** The `port` digits between the `port` key and the closing brace. */
  function PortField(tail: string): Option<string> {
    if !(PORT_KEY <= tail) || |tail| <= |PORT_KEY| || tail[|tail| - 1] != '}' then None
    else Some(tail[|PORT_KEY|..|tail| - 1])
  }

  /**
   * Reads a descriptor back; `None` for any text that is not a compact
   * descriptor or whose numbers do not fit `u32` and `u16`.
   */
  function Decode(text: string): Option<ServerInfo> {
    match Fields(text)
    case None => None
    case Some((pidText, portText)) =>
      match (ParseNat(pidText), ParseNat(portText))
      case (Some(pid), Some(port)) =>
        if pid < 0x1_0000_0000 && port < 0x1_0000 then Some(ServerInfo(pid, port)) else None
      case _ => None
  }

  /** The port field is found between the key and the brace it was put between. */
  lemma PortFieldOfLayout(b: string)
    ensures PortField(PORT_KEY + b + "}") == Some(b)
  {
    Pieces(PORT_KEY, b, "}");
  }

  /** Fields finds the two numbers in the text it was built from. */
  lemma FieldsOfLayout(a: string, b: string)
    requires forall i :: 0 <= i < |a| ==> a[i] != ','
    ensures Fields(PID_KEY + a + PORT_KEY + b + "}") == Some((a, b))
  {
    var tail := PORT_KEY + b + "}";
    var text := PID_KEY + a + PORT_KEY + b + "}";
    assert text == PID_KEY + (a + tail);
    Pieces(PID_KEY, a, tail);
    IndexOfAfter(a, ',', tail);
    PortFieldOfLayout(b);
  }

  /** Every text PortField accepts is the key, the field and the brace. */
  lemma LayoutOfPortField(tail: string)
    requires PortField(tail).Some?
    ensures tail == PORT_KEY + PortField(tail).value + "}"
  {
    Rejoin(tail, |PORT_KEY|, |tail| - 1);
    assert tail[..|PORT_KEY|] == PORT_KEY;
    assert tail[|tail| - 1..] == "}";
  }

  /** Every text SplitFields accepts is the pid field, the port key, the port field and the brace. */
  lemma LayoutOfSplitFields(rest: string)
    requires SplitFields(rest).Some?
    ensures rest == SplitFields(rest).value.0 + PORT_KEY + SplitFields(rest).value.1 + "}"
  {
    var k := IndexOf(rest, ',').value;
    var tail := rest[k..];
    LayoutOfPortField(tail);
    assert rest == rest[..k] + tail;
  }

  /** Every text Fields accepts has the compact layout around the two pieces. */
  lemma LayoutOfFields(text: string)
    requires Fields(text).Some?
    ensures text == PID_KEY + Fields(text).value.0 + PORT_KEY + Fields(text).value.1 + "}"
  {
    var rest := text[|PID_KEY|..];
    var v := SplitFields(rest).value;
    LayoutOfSplitFields(rest);
    PrefixRejoin(PID_KEY, text);
    PrependFour(PID_KEY, v.0, PORT_KEY, v.1, "}");
  }

  /** Reading what was written yields the same descriptor. */
  lemma DecodeEncode(info: ServerInfo)
    ensures Decode(Encode(info)) == Some(info)
  {
    FieldsOfLayout(NatToString(info.pid), NatToString(info.port));
    ParseNatToString(info.pid);
    ParseNatToString(info.port);
  }

  /** Decode accepts nothing but what Encode writes. */
  lemma EncodeDecode(text: string)
    requires Decode(text).Some?
    ensures Encode(Decode(text).value) == text
  {
    LayoutOfFields(text);
    NatToStringOfParse(Fields(text).value.0);
    NatToStringOfParse(Fields(text).value.1);
  }

  /** Distinct descriptors are written as distinct texts. */
  lemma EncodeInjective(a: ServerInfo, b: ServerInfo)
    ensures Encode(a) == Encode(b) ==> a == b
  {
    DecodeEncode(a);
    DecodeEncode(b);
  }

  // ---- The host: filesystem and process table ----

  /** An I/O error as `std::io::Error` reports it. */
  datatype IoError = NotFound | OsError(message: string)

  /** The error's display text (`e.to_string()`). */
  function Describe(e: IoError): string {
    match e
    case NotFound => "No such file or directory (os error 2)"
    case OsError(m) => m
  }

  /** The lines of a log file; a missing file has none (opening it to append creates it empty). */
  function LinesOf(log: Option<seq<string>>): seq<string> {
    match log
    case None => []
    case Some(lines) => lines
  }

  /** A child process launched by the supervisor, with the descriptor file's text at that moment. */
  datatype Spawn = Spawn(pid: Pid, descriptorAtSpawn: Option<string>)

  /**
   * The state the relay's processes share: which directories exist, the
   * descriptor file (`server.json`, raw text, `None` when missing), the log
   * file (`clog.ndjson`, its lines, `None` when missing), the live processes,
   * the daemons listening on a port, and the record of signals sent and
   * children spawned.
   */
  class Host {
    const env: Env
    var dirs: set<Path>
    var descriptor: Option<string>
    var log: Option<seq<string>>
    var live: set<Pid>
    var listeners: map<Pid, Port>
    var signals: seq<Pid>
    var spawns: seq<Spawn>

    /** Files sit in existing directories, directories in existing parents, listeners are live processes. */
    ghost predicate Valid()
      reads this`dirs, this`descriptor, this`log, this`live, this`listeners
    {
      "HOME" in env
      && (descriptor.Some? ==> ClogDir(env) in dirs)
      && (log.Some? ==> LogsDir(env) in dirs)
      && (LogsDir(env) in dirs ==> ClogDir(env) in dirs)
      && (ClogDir(env) in dirs ==> HomeDir(env) in dirs)
      && listeners.Keys <= live
    }

    /**
     * The descriptor's promise: when it names a live process, that process
     * is a daemon listening on the port the descriptor gives.
     */
    ghost predicate Sound()
      reads this`descriptor, this`live, this`listeners
    {
      match ReadServerInfo()
      case None => true
      case Some(info) => info.pid in live ==> info.pid in listeners && listeners[info.pid] == info.port
    }

    constructor (env: Env, dirs: set<Path>, descriptor: Option<string>, log: Option<seq<string>>,
                 live: set<Pid>, listeners: map<Pid, Port>)
      requires "HOME" in env
      requires descriptor.Some? ==> ClogDir(env) in dirs
      requires log.Some? ==> LogsDir(env) in dirs
      requires LogsDir(env) in dirs ==> ClogDir(env) in dirs
      requires ClogDir(env) in dirs ==> HomeDir(env) in dirs
      requires listeners.Keys <= live
      ensures Valid()
      ensures this.env == env && this.dirs == dirs && this.descriptor == descriptor && this.log == log
      ensures this.live == live && this.listeners == listeners && signals == [] && spawns == []
    {
      this.env, this.dirs, this.descriptor, this.log := env, dirs, descriptor, log;
      this.live, this.listeners := live, listeners;
      signals, spawns := [], [];
    }

    /** `read_server_info`: the descriptor, or `None` when the file is missing or does not parse. */
    function ReadServerInfo(): (r: Option<ServerInfo>)
      reads this`descriptor
      ensures descriptor.None? ==> r.None?
      ensures r.Some? ==> descriptor == Some(Encode(r.value))
    {
      match descriptor
      case None => None
      case Some(text) =>
        if Decode(text).Some? then EncodeDecode(text); Decode(text) else None
    }

    /** `process_alive`: the `kill(pid, 0)` probe, as membership in the process table. */
    function ProcessAlive(pid: Pid): bool
      reads this`live
    {
      pid in live
    }

    /** `write_server_info`: (re)writes the descriptor file; fails when its directory is missing or the OS refuses. */
    method WriteServerInfo(info: ServerInfo, fault: Option<string>) returns (r: Result<(), IoError>)
      requires Valid()
      modifies this`descriptor
      ensures Valid()
      ensures r.Ok? <==> ClogDir(env) in dirs && fault.None?
      ensures r.Ok? ==> descriptor == Some(Encode(info)) && ReadServerInfo() == Some(info)
      ensures r.Err? ==> descriptor == old(descriptor)
      ensures r.Err? ==> r.error == if ClogDir(env) !in dirs then NotFound else OsError(fault.value)
    {
      if ClogDir(env) !in dirs {
        return Err(NotFound);
      }
      if fault.Some? {
        return Err(OsError(fault.value));
      }
      descriptor := Some(Encode(info));
      DecodeEncode(info);
      r := Ok(());
    }

    /**
     * `remove_server_info`: deletes the descriptor file. A missing file is an
     * error, and the OS may refuse to delete an existing one, which then stays.
     */
    method RemoveServerInfo(fault: Option<string>) returns (r: Result<(), IoError>)
      requires Valid()
      modifies this`descriptor
      ensures Valid()
      ensures r.Ok? <==> old(descriptor).Some? && fault.None?
      ensures descriptor == if fault.None? then None else old(descriptor)
      ensures r.Err? ==> r.error == if old(descriptor).None? then NotFound else OsError(fault.value)
    {
      if descriptor.None? {
        return Err(NotFound);
      }
      if fault.Some? {
        return Err(OsError(fault.value));
      }
      descriptor := None;
      r := Ok(());
    }

    /**
     * `ensure_dirs`: `create_dir_all(logs_dir())`. It succeeds at once when
     * the directory exists, and otherwise creates the whole chain unless the
     * OS refuses.
     */
    method EnsureDirs(fault: Option<string>) returns (r: Result<(), IoError>)
      requires Valid()
      modifies this`dirs
      ensures Valid()
      ensures r.Ok? <==> LogsDir(env) in old(dirs) || fault.None?
      ensures r.Ok? ==> dirs == old(dirs) + DirChain(env) && LogsDir(env) in dirs
      ensures LogsDir(env) in old(dirs) ==> dirs == old(dirs)
      ensures r.Err? ==> dirs == old(dirs) && r.error == OsError(fault.value)
    {
      if LogsDir(env) in dirs {
        return Ok(());
      }
      if fault.Some? {
        return Err(OsError(fault.value));
      }
      dirs := dirs + DirChain(env);
      r := Ok(());
    }

    /** A process ends (after a signal, a crash, or its own exit): it leaves the process table and stops listening. */
    method Exit(pid: Pid)
      requires Valid()
      modifies this`live, this`listeners
      ensures Valid()
      ensures live == old(live) - {pid} && listeners == old(listeners) - {pid}
      ensures old(Sound()) ==> Sound()
    {
      live := live - {pid};
      listeners := listeners - {pid};
    }

    /**
     * A process the relay did not spawn starts. The OS may give it the pid of
     * a daemon that died: a descriptor left behind then names a live process
     * that does not listen, and the descriptor's promise is broken.
     */
    method Launch(pid: Pid)
      requires Valid()
      requires pid !in live
      modifies this`live
      ensures Valid()
      ensures live == old(live) + {pid}
      ensures var d := ReadServerInfo(); old(Sound()) && (d.None? || d.value.pid != pid) ==> Sound()
      ensures var d := ReadServerInfo(); d.Some? && d.value.pid == pid ==> !Sound()
    {
      live := live + {pid};
    }
  }
}
