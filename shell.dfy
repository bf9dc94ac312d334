/** The host as the running tool sees it: an object whose files and history change as commands
    and writes are issued, with one method per primitive the source calls (`run_command`,
    `fs::write`, `fs::read`, `fs::read_to_string`, `get_package_manager`) and `Perform`, which
    carries out a plan step by step. */
module Shell {
  import opened Wrappers
  import opened Utf8
  import opened Text
  import opened Machine
  import Distro
  import opened Plans

  class Host {
    var files: Files
    var trace: seq<Event>
    const oracle: Oracle

    function World(): World
      reads this
    {
      Machine.World(files, trace)
    }

    constructor (oracle: Oracle, files: Files)
      ensures this.oracle == oracle && World() == Machine.World(files, [])
    {
      this.oracle := oracle;
      this.files := files;
      this.trace := [];
    }

    /** `run_command`. */
    method RunCommand(cmd: Command) returns (r: Outcome)
      modifies this
      ensures Exit(r, World()) == Machine.RunCommand(oracle, old(World()), cmd)
    {
      var status := oracle(trace, Ran(cmd));
      trace := trace + [Ran(cmd)];
      match status
      case Success =>
        r := Pass;
      case Failure(stderr) =>
        r := Fail(FailureMessage(cmd, stderr));
      case Unavailable(error) =>
        r := Fail(error);
    }

    /** `fs::write`. */
    method WriteFile(path: string, data: Bytes) returns (r: Outcome)
      modifies this
      ensures Exit(r, World()) == Machine.WriteFile(oracle, old(World()), path, data)
    {
      var status := oracle(trace, Wrote(path, data));
      trace := trace + [Wrote(path, data)];
      match status
      case Success =>
        files := files[path := data];
        r := Pass;
      case Failure(error) =>
        r := Fail(error);
      case Unavailable(error) =>
        r := Fail(error);
    }

    /** `fs::read`. */
    method ReadFile(path: string) returns (r: Result<Bytes>)
      ensures r.Ok? <==> path in files
      ensures r.Ok? ==> r.value == files[path]
      ensures r.Err? ==> r.message == NotFound
    {
      if path in files {
        r := Ok(files[path]);
      } else {
        r := Err(NotFound);
      }
    }

    /** `get_package_manager`. */
    method PackageManager() returns (r: Result<Distro.PackageManager>)
      ensures r == Distro.Detect(files)
    {
      if Distro.AptBinary in files {
        r := Ok(Distro.Apt);
      } else if Distro.YumBinary in files {
        r := Ok(Distro.Yum);
      } else if Distro.DnfBinary in files {
        r := Ok(Distro.Dnf);
      } else {
        r := Err(Distro.Unsupported);
      }
    }

    /** Carries out the steps of a plan in order, stopping at the first that fails. */
    method Perform(plan: seq<Step>) returns (r: Outcome)
      modifies this
      ensures Exit(r, World()) == Run(oracle, old(World()), plan)
      decreases plan
    {
      var i := 0;
      r := Pass;
      while i < |plan| && r.Pass?
        invariant 0 <= i <= |plan|
        invariant Run(oracle, old(World()), plan) ==
                  if r.Pass? then Run(oracle, World(), plan[i..]) else Exit(r, World())
      {
        assert plan[i..][0] == plan[i] && plan[i..][1..] == plan[i + 1..];
        r := Do(plan[i]);
        i := i + 1;
      }
      if r.Pass? {
        assert plan[i..] == [];
      }
    }

    /** Carries out one step. */
    method Do(s: Step) returns (r: Outcome)
      modifies this
      ensures Exit(r, World()) == RunStep(oracle, old(World()), s)
      decreases s
    {
      match s
      case Exec(cmd) =>
        r := RunCommand(cmd);
      case Tolerate(cmd) =>
        var _ := RunCommand(cmd);
        r := Pass;
      case Fallback(first, second) =>
        r := RunCommand(first);
        if r.Fail? {
          r := RunCommand(second);
        }
      case Put(path, data) =>
        r := WriteFile(path, data);
      case Edit(path, chain) =>
        var bytes := ReadFile(path);
        if bytes.Err? {
          r := Fail(bytes.message);
        } else {
          match Decode(bytes.value)
          case None =>
            r := Fail(NotUtf8);
          case Some(text) =>
            r := WriteFile(path, Encode(ReplaceChain(text, chain)));
        }
      case Abort(reason) =>
        r := Fail(reason);
      case OnManager(apt, yum, dnf) =>
        var pm := PackageManager();
        if pm.Err? {
          r := Fail(pm.message);
        } else {
          r := Perform(Branch(pm.value, apt, yum, dnf));
        }
    }
  }
}
