/**
 * The ingestion daemon (src/server.rs): its startup sequence, which publishes
 * the descriptor the supervisor waits for, and the request handler that
 * appends one record per event to the log file.
 */
module Server {
  import opened Wrappers
  import opened Text
  import opened Config

  /** The port the `_serve` entry point asks for (src/main.rs:53). */
  const DAEMON_PORT: Port := 2999

  // ---- Routing ----

  /** The single logical endpoint the daemon serves. */
  datatype Endpoint = LogEndpoint

  /** The router: `POST /` and `POST /log` both reach the log handler; other paths reach nothing. */
  function Route(path: string): (e: Option<Endpoint>)
    ensures e == Some(LogEndpoint) <==> path == "/" || path == "/log"
  {
    if path == "/" || path == "/log" then Some(LogEndpoint) else None
  }

  // ---- Log records ----

  const DATA_KEY: string := "{\"data\":"
  const TS_KEY: string := ",\"ts\":\""
  const RECORD_END: string := "\"}"

  /** RFC 3339 text needs no JSON escaping: no quote, no backslash, no line break. */
  predicate TimestampText(ts: string) {
    forall i :: 0 <= i < |ts| ==> ts[i] != '"' && ts[i] != '\\' && ts[i] != '\n'
  }

  /** Compact JSON text never holds a raw line break. */
  predicate SingleLine(s: string) {
    forall i :: 0 <= i < |s| ==> s[i] != '\n'
  }

  /** A log record: the arrival timestamp and the request body, as JSON text. */
  datatype Record = Record(ts: string, data: string)

  /**
   * The line the handler writes for a body received at `ts`: the object
   * `{ts, data}` serialised compactly, its keys in sorted order.
   */
  function RecordLine(ts: string, body: string): string {
    DATA_KEY + body + TS_KEY + ts + RECORD_END
  }

  /**
   * Reads a record line back. The timestamp is the text after the last
   * quote before the closing `"}`, and the body is everything before it.
   */
  function DecodeRecord(line: string): Option<Record> {
    if !(DATA_KEY <= line) || |line| < |DATA_KEY| + |RECORD_END| || line[|line| - |RECORD_END|..] != RECORD_END then None
    else SplitRecord(line[|DATA_KEY|..|line| - |RECORD_END|])
  }

  /** Splits the inside of a record line at the quote that closes the timestamp key. */
  function SplitRecord(middle: string): Option<Record> {
    match LastIndexOf(middle, '"')
    case None => None
    case Some(j) =>
      if j + 1 < |TS_KEY| || middle[j + 1 - |TS_KEY|..j + 1] != TS_KEY then None
      else Some(Record(middle[j + 1..], middle[..j + 1 - |TS_KEY|]))
  }

  /** A line framed as a record passes the frame test, and what lies inside the frame is what is split. */
  lemma FramedMiddle(middle: string)
    ensures DecodeRecord(DATA_KEY + middle + RECORD_END) == SplitRecord(middle)
  {
    Pieces(DATA_KEY, middle, RECORD_END);
  }

  /** Inside the frame, the last quote closes the timestamp key, which separates body and timestamp. */
  lemma SplitMiddle(ts: string, body: string)
    requires TimestampText(ts)
    ensures SplitRecord(body + TS_KEY + ts) == Some(Record(ts, body))
  {
    LastIndexOfBefore(body + TS_KEY, '"', ts);
    Pieces(body, TS_KEY, ts);
  }

  /** The record written for a body carries that body unchanged and the timestamp it was stamped with. */
  lemma DecodeRecordLine(ts: string, body: string)
    requires TimestampText(ts)
    ensures DecodeRecord(RecordLine(ts, body)) == Some(Record(ts, body))
  {
    var middle := body + TS_KEY + ts;
    assert RecordLine(ts, body) == DATA_KEY + middle + RECORD_END;
    FramedMiddle(middle);
    SplitMiddle(ts, body);
  }

  /** A record line is one line of the log file. */
  lemma RecordLineIsOneLine(ts: string, body: string)
    requires TimestampText(ts) && SingleLine(body)
    ensures SingleLine(RecordLine(ts, body))
  {
    var line := RecordLine(ts, body);
    forall i | 0 <= i < |line|
      ensures line[i] != '\n'
    {
      if i < |DATA_KEY| {
        assert line[i] == DATA_KEY[i];
      } else if i < |DATA_KEY| + |body| {
        assert line[i] == body[i - |DATA_KEY|];
      } else if i < |DATA_KEY| + |body| + |TS_KEY| {
        assert line[i] == TS_KEY[i - |DATA_KEY| - |body|];
      } else if i < |DATA_KEY| + |body| + |TS_KEY| + |ts| {
        assert line[i] == ts[i - |DATA_KEY| - |body| - |TS_KEY|];
      } else {
        assert line[i] == RECORD_END[i - |DATA_KEY| - |body| - |TS_KEY| - |ts|];
      }
    }
  }

  // ---- Responses ----

  const OK: nat := 200
  const INTERNAL_SERVER_ERROR: nat := 500

  /** The JSON reply: `{"ok": true}`, or `{"ok": false, "error": ...}`. */
  datatype Reply = Ack | Failure(error: string)

  datatype Response = Response(status: nat, reply: Reply)

  /** The response for an append outcome: 200 and an acknowledgement, or 500 and the error's text. */
  function Respond(r: Result<(), IoError>): (resp: Response)
    ensures resp.status == OK <==> r.Ok?
    ensures resp.status == OK ==> resp.reply == Ack
    ensures resp.status != OK ==> resp.status == INTERNAL_SERVER_ERROR && resp.reply == Failure(Describe(r.error))
  {
    match r
    case Ok(_) => Response(OK, Ack)
    case Err(e) => Response(INTERNAL_SERVER_ERROR, Failure(Describe(e)))
  }

  // ---- Request handling ----

  /**
   * What one call of the handler did: when the log file's directory exists
   * and the OS cooperates, exactly one record line was appended (the file
   * is created if absent) and 200 returned; otherwise the log is untouched
   * and 500 carries the error.
   */
  twostate predicate LogHandled(h: Host, body: string, ts: string, fault: Option<string>, resp: Response)
    reads h
    requires "HOME" in h.env
  {
    if LogsDir(h.env) in h.dirs && fault.None? then
      resp == Response(OK, Ack) && h.log == Some(LinesOf(old(h.log)) + [RecordLine(ts, body)])
    else
      var error := if LogsDir(h.env) !in h.dirs then NotFound else OsError(fault.value);
      resp == Response(INTERNAL_SERVER_ERROR, Failure(Describe(error))) && h.log == old(h.log)
  }

  /** `handle_log`: wraps the body with a timestamp and appends it to the log file. */
  method HandleLog(h: Host, body: string, ts: string, fault: Option<string>) returns (resp: Response)
    requires h.Valid()
    requires SingleLine(body) && TimestampText(ts)
    modifies h`log
    ensures h.Valid()
    ensures LogHandled(h, body, ts, fault, resp)
  {
    var line := RecordLine(ts, body);
    var result: Result<(), IoError>;
    if LogsDir(h.env) !in h.dirs {
      result := Err(NotFound);
    } else if fault.Some? {
      result := Err(OsError(fault.value));
    } else {
      h.log := Some(LinesOf(h.log) + [line]);
      result := Ok(());
    }
    resp := Respond(result);
  }

  /** A request as the router dispatches it: both routes run the same handler; any other path is not served. */
  method Post(h: Host, path: string, body: string, ts: string, fault: Option<string>) returns (resp: Option<Response>)
    requires h.Valid()
    requires SingleLine(body) && TimestampText(ts)
    modifies h`log
    ensures h.Valid()
    ensures Route(path).None? ==> resp.None? && h.log == old(h.log)
    ensures Route(path).Some? ==> resp.Some? && LogHandled(h, body, ts, fault, resp.value)
  {
    match Route(path)
    case None =>
      resp := None;
    case Some(LogEndpoint) =>
      var r := HandleLog(h, body, ts, fault);
      resp := Some(r);
  }

  // ---- Startup ----

  /**
   * What the OS answers to the bind of the listening socket: a failure, or
   * the port actually bound. `BindFailed` also stands for a failing
   * `local_addr()` after a successful bind: either way `run` returns the
   * error, the socket is dropped and nothing is published.
   */
  datatype BindResult = BindFailed(reason: string) | Bound(port: Port)

  /**
   * The OS's side of a bind: a bound port is never 0, equals the requested
   * port unless 0 (an ephemeral port) was requested, and is not held by
   * another listener.
   */
  predicate BindAllowed(listeners: map<Pid, Port>, requested: Port, bind: BindResult) {
    bind.Bound? ==>
      bind.port != 0 && (requested != 0 ==> bind.port == requested)
      && forall p :: p in listeners ==> listeners[p] != bind.port
  }

  datatype RunError = DirsFailed(io: IoError) | BindError(reason: string) | PublishFailed(io: IoError)

  /**
   * `run`, up to the point where the daemon serves requests: ensure the
   * directories, bind, then publish the descriptor holding the process's
   * own id and the port actually bound. Each step's failure ends the run
   * before the next step; a listener bound before a failed publish is
   * dropped again.
   */
  method Run(h: Host, pid: Pid, port: Port, dirFault: Option<string>, bind: BindResult, writeFault: Option<string>)
    returns (r: Result<ServerInfo, RunError>)
    requires h.Valid()
    requires pid in h.live && pid !in h.listeners
    requires BindAllowed(h.listeners, port, bind)
    modifies h`dirs, h`listeners, h`descriptor
    ensures h.Valid()
    ensures var dirsOk := LogsDir(h.env) in old(h.dirs) || dirFault.None?;
      && (!dirsOk ==> r == Err(DirsFailed(OsError(dirFault.value))) && h.dirs == old(h.dirs))
      && (dirsOk ==> h.dirs == old(h.dirs) + DirChain(h.env))
      && (dirsOk && bind.BindFailed? ==> r == Err(BindError(bind.reason)))
      && (dirsOk && bind.Bound? && writeFault.Some? ==> r == Err(PublishFailed(OsError(writeFault.value))))
      && (r.Ok? <==> dirsOk && bind.Bound? && writeFault.None?)
    ensures r.Ok? ==> r.value == ServerInfo(pid, bind.port) && h.ReadServerInfo() == Some(r.value)
    ensures r.Ok? ==> h.listeners == old(h.listeners)[pid := bind.port]
    ensures r.Ok? ==> r.value.port != 0 && (port != 0 ==> r.value.port == port)
    ensures r.Err? ==> h.descriptor == old(h.descriptor) && h.listeners == old(h.listeners)
    ensures old(h.Sound()) ==> h.Sound()
  {
    var made := h.EnsureDirs(dirFault);
    if made.Err? {
      return Err(DirsFailed(made.error));
    }
    if bind.BindFailed? {
      return Err(BindError(bind.reason));
    }
    h.listeners := h.listeners[pid := bind.port];
    var info := ServerInfo(pid, bind.port);
    var wrote := h.WriteServerInfo(info, writeFault);
    if wrote.Err? {
      h.listeners := h.listeners - {pid};
      assert h.listeners == old(h.listeners);
      return Err(PublishFailed(wrote.error));
    }
    r := Ok(info);
  }

  /**
   * The hidden `_serve` entry point: run the daemon on its fixed port; when
   * the run fails the process exits, leaving the process table.
   */
  method ServeCommand(h: Host, pid: Pid, dirFault: Option<string>, bind: BindResult, writeFault: Option<string>)
    returns (r: Result<ServerInfo, RunError>)
    requires h.Valid()
    requires pid in h.live && pid !in h.listeners
    requires BindAllowed(h.listeners, DAEMON_PORT, bind)
    modifies h`dirs, h`listeners, h`descriptor, h`live
    ensures h.Valid()
    ensures var dirsOk := LogsDir(h.env) in old(h.dirs) || dirFault.None?;
      (r.Ok? <==> dirsOk && bind.Bound? && writeFault.None?)
      && (dirsOk ==> h.dirs == old(h.dirs) + DirChain(h.env))
      && (!dirsOk ==> h.dirs == old(h.dirs))
    ensures r.Ok? ==> r.value == ServerInfo(pid, DAEMON_PORT) && h.ReadServerInfo() == Some(r.value)
    ensures r.Ok? ==> h.listeners == old(h.listeners)[pid := DAEMON_PORT] && h.live == old(h.live)
    ensures r.Err? ==> h.descriptor == old(h.descriptor) && h.listeners == old(h.listeners)
    ensures r.Err? ==> h.live == old(h.live) - {pid}
    ensures old(h.Sound()) ==> h.Sound()
  {
    r := Run(h, pid, DAEMON_PORT, dirFault, bind, writeFault);
    if r.Err? {
      h.Exit(pid);
    }
  }
}
