/** The host the tool acts on, as values: a file system of byte contents and the trace of the
    commands and file writes issued so far. Whether a command or a write succeeds is not decided
    by the tool; an oracle that may look at the whole history answers it. */
module Machine {
  import opened Wrappers
  import opened Utf8

  /** A program and its argument vector, as `Command::new(tool).args(args)` spawns it. */
  datatype Command = Command(tool: string, args: seq<string>)

  /** What the tool does to the host that can fail. */
  datatype Event = Ran(cmd: Command) | Wrote(path: string, data: Bytes)

  /** How an event ends: a command exits successfully, exits with failure and some standard error
      text, or cannot be started at all (the I/O error of `output()`, or of `fs::write`). */
  datatype Status = Success | Failure(stderr: string) | Unavailable(error: string)

  /** The outside world's answer to each event, given everything that happened before it. */
  type Oracle = (seq<Event>, Event) -> Status

  type Files = map<string, Bytes>

  datatype World = World(files: Files, trace: seq<Event>)

  /** The result of an operation and the world it leaves. */
  datatype Exit = Exit(outcome: Outcome, world: World)

  /** The `io::Error` text of a missing file, as `fs::read` and `fs::read_to_string` report it. */
  const NotFound := "No such file or directory (os error 2)"

  /** The `io::Error` text `read_to_string` reports for bytes that are not UTF-8. */
  const NotUtf8 := "stream did not contain valid UTF-8"

  /** One string as Rust's `{:?}` prints it: quoted, with quote, backslash, NUL, tab, line feed
      and carriage return escaped. */
  function DebugString(s: string): (r: string)
    ensures |r| >= |s| + 2 && r[0] == '"' && r[|r| - 1] == '"'
  {
    "\"" + DebugBody(s) + "\""
  }

  function DebugBody(s: string): (r: string)
    ensures |r| >= |s|
  {
    if s == [] then []
    else
      var c := s[0];
      var e := if c == '"' then "\\\"" else if c == '\\' then "\\\\"
               else if c == '\n' then "\\n" else if c == '\t' then "\\t"
               else if c == '\r' then "\\r" else if c == '\0' then "\\0" else [c];
      e + DebugBody(s[1..])
  }

  function DebugItems(args: seq<string>): string {
    if args == [] then []
    else if |args| == 1 then DebugString(args[0])
    else DebugString(args[0]) + ", " + DebugItems(args[1..])
  }

  /** `{:?}` of a `&[&str]`: `["a", "b"]`. */
  function DebugArgs(args: seq<string>): (r: string)
    ensures |r| >= 2 && r[0] == '[' && r[|r| - 1] == ']'
  {
    "[" + DebugItems(args) + "]"
  }

  /** The error text of a command that ran and failed. */
  function FailureMessage(cmd: Command, stderr: string): (m: string)
    ensures |m| >= |stderr| && m[|m| - |stderr|..] == stderr
    ensures |m| >= 16 + |cmd.tool| && m[16..16 + |cmd.tool|] == cmd.tool
  {
    "Command failed: " + cmd.tool + " " + DebugArgs(cmd.args) + "\nError: " + stderr
  }

  /** `run_command`: the command is issued (and recorded) whatever happens; it succeeds exactly
      when the process exits successfully. */
  function RunCommand(o: Oracle, w: World, cmd: Command): (e: Exit)
    ensures e.world == World(w.files, w.trace + [Ran(cmd)])
    ensures e.outcome.Pass? <==> o(w.trace, Ran(cmd)) == Success
    ensures o(w.trace, Ran(cmd)).Failure? ==>
              e.outcome == Fail(FailureMessage(cmd, o(w.trace, Ran(cmd)).stderr))
    ensures o(w.trace, Ran(cmd)).Unavailable? ==>
              e.outcome == Fail(o(w.trace, Ran(cmd)).error)
  {
    var w' := World(w.files, w.trace + [Ran(cmd)]);
    match o(w.trace, Ran(cmd))
    case Success => Exit(Pass, w')
    case Failure(stderr) => Exit(Fail(FailureMessage(cmd, stderr)), w')
    case Unavailable(error) => Exit(Fail(error), w')
  }

  /** `fs::write`: the attempt is recorded; the file takes the new contents only when the write
      succeeds. */
  function WriteFile(o: Oracle, w: World, path: string, data: Bytes): (e: Exit)
    ensures e.world.trace == w.trace + [Wrote(path, data)]
    ensures e.outcome.Pass? <==> o(w.trace, Wrote(path, data)) == Success
    ensures e.world.files == if e.outcome.Pass? then w.files[path := data] else w.files
  {
    var w' := World(w.files, w.trace + [Wrote(path, data)]);
    match o(w.trace, Wrote(path, data))
    case Success => Exit(Pass, World(w.files[path := data], w'.trace))
    case Failure(error) => Exit(Fail(error), w')
    case Unavailable(error) => Exit(Fail(error), w')
  }

  /** `fs::read`: the bytes of an existing file. */
  function ReadFile(files: Files, path: string): (r: Result<Bytes>)
    ensures r.Ok? <==> path in files
    ensures r.Ok? ==> r.value == files[path]
  {
    if path in files then Ok(files[path]) else Err(NotFound)
  }

  /** `fs::read_to_string`: the text of an existing file whose bytes are UTF-8. */
  function ReadToString(files: Files, path: string): (r: Result<string>)
    ensures r.Ok? <==> path in files && Decode(files[path]).Some?
    ensures r.Ok? ==> Encode(r.value) == files[path]
  {
    if path !in files then Err(NotFound)
    else match Decode(files[path])
      case None => Err(NotUtf8)
      case Some(text) =>
        EncodeDecode(files[path]);
        Ok(text)
  }
}
