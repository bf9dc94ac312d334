/** The shape every operation of the tool has: a sequence of steps run one after another, where
    the first error (a `?` in the source) ends the sequence and is returned. A source function
    that is such a sequence is modelled by the plan of its steps; `Run` gives the meaning of a
    plan on a world. */
module Plans {
  import opened Wrappers
  import opened Utf8
  import opened Text
  import opened Machine
  import Distro

  datatype Step =
    /** `run_command(..)?` */
    | Exec(cmd: Command)
    /** `run_command(..).ok()`: issued, and its failure ignored. */
    | Tolerate(cmd: Command)
    /** `if run_command(first).is_err() { run_command(second)? }` */
    | Fallback(first: Command, second: Command)
    /** `fs::write(path, data)?` */
    | Put(path: string, data: Bytes)
    /** `fs::read_to_string(path)?`, a chain of `replace` calls, then `fs::write(path, ..)?` */
    | Edit(path: string, chain: seq<Replacement>)
    /** `return Err(reason)` */
    | Abort(reason: string)
    /** `match get_package_manager()? { Apt => .., Yum => .., Dnf => .. }` */
    | OnManager(apt: seq<Step>, yum: seq<Step>, dnf: seq<Step>)

  /** The branch of an `OnManager` step taken on a host with manager `pm`. */
  function Branch(pm: Distro.PackageManager, apt: seq<Step>, yum: seq<Step>, dnf: seq<Step>): (b: seq<Step>)
    ensures b == apt || b == yum || b == dnf
  {
    match pm
    case Apt => apt
    case Yum => yum
    case Dnf => dnf
  }

  /** Commands issued one after another, each with `?`. */
  function Execs(cmds: seq<Command>): (steps: seq<Step>)
    ensures |steps| == |cmds| && forall i :: 0 <= i < |cmds| ==> steps[i] == Exec(cmds[i])
  {
    seq(|cmds|, i requires 0 <= i < |cmds| => Exec(cmds[i]))
  }

  /** `match get_package_manager()? { pm => run_command(tool(pm), ["install", "-y", packages..])? }`:
      one install command through the detected manager. */
  function InstallAll(packages: seq<string>): Step {
    OnManager([Exec(Command("apt", ["install", "-y"] + packages))],
              [Exec(Command("yum", ["install", "-y"] + packages))],
              [Exec(Command("dnf", ["install", "-y"] + packages))])
  }

  /** A step that does the same on every manager. */
  function Everywhere(steps: seq<Step>): Step {
    OnManager(steps, steps, steps)
  }

  function RunStep(o: Oracle, w: World, s: Step): Exit
    decreases s
  {
    match s
    case Exec(cmd) => RunCommand(o, w, cmd)
    case Tolerate(cmd) => Exit(Pass, RunCommand(o, w, cmd).world)
    case Fallback(first, second) =>
      var e := RunCommand(o, w, first);
      if e.outcome.Pass? then e else RunCommand(o, e.world, second)
    case Put(path, data) => WriteFile(o, w, path, data)
    case Edit(path, chain) =>
      (match ReadToString(w.files, path)
       case Err(m) => Exit(Fail(m), w)
       case Ok(text) => WriteFile(o, w, path, Encode(ReplaceChain(text, chain))))
    case Abort(reason) => Exit(Fail(reason), w)
    case OnManager(apt, yum, dnf) =>
      (match Distro.Detect(w.files)
       case Err(m) => Exit(Fail(m), w)
       case Ok(pm) => Run(o, w, Branch(pm, apt, yum, dnf)))
  }

  /** The steps of `plan` in order, up to and including the first that fails. */
  function Run(o: Oracle, w: World, plan: seq<Step>): Exit
    decreases plan
  {
    if plan == [] then Exit(Pass, w)
    else
      var e := RunStep(o, w, plan[0]);
      if e.outcome.Fail? then e else Run(o, e.world, plan[1..])
  }

  /** Sequencing: running `p + q` runs `p`, and `q` only from where `p` succeeded. */
  lemma {:induction false} RunAppend(o: Oracle, w: World, p: seq<Step>, q: seq<Step>)
    ensures Run(o, w, p + q) ==
            (var e := Run(o, w, p); if e.outcome.Fail? then e else Run(o, e.world, q))
    decreases p
  {
    if p == [] {
      assert p + q == q;
    } else {
      assert (p + q)[0] == p[0] && (p + q)[1..] == p[1..] + q;
      var e := RunStep(o, w, p[0]);
      if e.outcome.Pass? {
        RunAppend(o, e.world, p[1..], q);
      }
    }
  }

  /** A plan of one step does what that step does. */
  lemma RunSingle(o: Oracle, w: World, s: Step)
    ensures Run(o, w, [s]) == RunStep(o, w, s)
  {
    assert [s][0] == s && [s][1..] == [];
  }

  /** Running one more step after a prefix. */
  lemma RunSnoc(o: Oracle, w: World, p: seq<Step>, s: Step)
    ensures Run(o, w, p + [s]) ==
            (var e := Run(o, w, p); if e.outcome.Fail? then e else RunStep(o, e.world, s))
  {
    RunAppend(o, w, p, [s]);
    var e := Run(o, w, p);
    if e.outcome.Pass? {
      assert [s][1..] == [];
    }
  }

  /** The paths a plan may write, in any branch. */
  function Targets(plan: seq<Step>): set<string>
    decreases plan
  {
    if plan == [] then {} else StepTargets(plan[0]) + Targets(plan[1..])
  }

  function StepTargets(s: Step): set<string>
    decreases s
  {
    match s
    case Put(path, _) => {path}
    case Edit(path, _) => {path}
    case OnManager(apt, yum, dnf) => Targets(apt) + Targets(yum) + Targets(dnf)
    case _ => {}
  }

  /** Two file systems agree on a path: both lack it, or both hold the same bytes there. */
  predicate Agree(f: Files, g: Files, path: string) {
    (path in f <==> path in g) && (path in f ==> f[path] == g[path])
  }

  /** Commands do not change files: a path no step of the plan writes keeps its contents, whatever
      the outcome. */
  lemma {:induction false} RunFrame(o: Oracle, w: World, plan: seq<Step>, path: string)
    requires path !in Targets(plan)
    ensures Agree(Run(o, w, plan).world.files, w.files, path)
    decreases plan
  {
    if plan != [] {
      StepFrame(o, w, plan[0], path);
      var e := RunStep(o, w, plan[0]);
      if e.outcome.Pass? {
        RunFrame(o, e.world, plan[1..], path);
      }
    }
  }

  lemma {:induction false} StepFrame(o: Oracle, w: World, s: Step, path: string)
    requires path !in StepTargets(s)
    ensures Agree(RunStep(o, w, s).world.files, w.files, path)
    decreases s
  {
    match s
    case OnManager(apt, yum, dnf) =>
      if Distro.Detect(w.files).Ok? {
        RunFrame(o, w, Branch(Distro.Detect(w.files).value, apt, yum, dnf), path);
      }
    case _ =>
  }

  /** The trace only grows: what has happened stays recorded. */
  lemma {:induction false} RunExtends(o: Oracle, w: World, plan: seq<Step>)
    ensures w.trace <= Run(o, w, plan).world.trace
    decreases plan
  {
    if plan != [] {
      StepExtends(o, w, plan[0]);
      var e := RunStep(o, w, plan[0]);
      if e.outcome.Pass? {
        RunExtends(o, e.world, plan[1..]);
      }
    }
  }

  lemma {:induction false} StepExtends(o: Oracle, w: World, s: Step)
    ensures w.trace <= RunStep(o, w, s).world.trace
    decreases s
  {
    match s
    case OnManager(apt, yum, dnf) =>
      if Distro.Detect(w.files).Ok? {
        RunExtends(o, w, Branch(Distro.Detect(w.files).value, apt, yum, dnf));
      }
    case _ =>
  }

  /** A host on which every command and every write succeeds. */
  ghost predicate Obliging(o: Oracle) {
    forall h, e :: o(h, e) == Success
  }

  lemma Obliges(o: Oracle, history: seq<Event>, e: Event)
    requires Obliging(o)
    ensures o(history, e) == Success
  {
  }

  /** What a plan does when nothing it issues fails: the events, and the error of an `Abort` it
      reaches. */
  datatype Transcript = Transcript(events: seq<Event>, outcome: Outcome)

  /** A plan that reads no file. */
  predicate NoEdit(plan: seq<Step>)
    decreases plan
  {
    plan == [] || (StepNoEdit(plan[0]) && NoEdit(plan[1..]))
  }

  predicate StepNoEdit(s: Step)
    decreases s
  {
    match s
    case Edit(_, _) => false
    case OnManager(apt, yum, dnf) => NoEdit(apt) && NoEdit(yum) && NoEdit(dnf)
    case _ => true
  }

  /** The script a plan follows on a host whose package manager is `pm` when nothing fails: every
      command and write in order, the first alternative of a fallback, the branch of `pm`. */
  function Script(plan: seq<Step>, pm: Distro.PackageManager): Transcript
    requires NoEdit(plan)
    decreases plan
  {
    if plan == [] then Transcript([], Pass)
    else
      var head := StepScript(plan[0], pm);
      if head.outcome.Fail? then head
      else
        var tail := Script(plan[1..], pm);
        Transcript(head.events + tail.events, tail.outcome)
  }

  function StepScript(s: Step, pm: Distro.PackageManager): Transcript
    requires StepNoEdit(s)
    decreases s
  {
    match s
    case Exec(cmd) => Transcript([Ran(cmd)], Pass)
    case Tolerate(cmd) => Transcript([Ran(cmd)], Pass)
    case Fallback(first, _) => Transcript([Ran(first)], Pass)
    case Put(path, data) => Transcript([Wrote(path, data)], Pass)
    case Abort(reason) => Transcript([], Fail(reason))
    case OnManager(apt, yum, dnf) => Script(Branch(pm, apt, yum, dnf), pm)
  }

  /** The three binaries detection looks at. */
  const Probes: set<string> := {Distro.AptBinary, Distro.YumBinary, Distro.DnfBinary}

  /** On an obliging host the plan does exactly its script, provided it never writes over a
      package manager's binary (so detection gives the same answer throughout). */
  lemma {:induction false} ObligingRun(o: Oracle, w: World, plan: seq<Step>, pm: Distro.PackageManager)
    requires Obliging(o) && Distro.Detect(w.files) == Ok(pm)
    requires NoEdit(plan) && Targets(plan) !! Probes
    ensures Run(o, w, plan).world.trace == w.trace + Script(plan, pm).events
    ensures Run(o, w, plan).outcome == Script(plan, pm).outcome
    decreases plan
  {
    if plan == [] {
    } else {
      ObligingStep(o, w, plan[0], pm);
      var e := RunStep(o, w, plan[0]);
      if e.outcome.Pass? {
        forall p | p in Probes ensures Agree(e.world.files, w.files, p) {
          StepFrame(o, w, plan[0], p);
        }
        Distro.DetectOnlyProbesBinaries(e.world.files, w.files);
        ObligingRun(o, e.world, plan[1..], pm);
      }
    }
  }

  lemma {:induction false} ObligingStep(o: Oracle, w: World, s: Step, pm: Distro.PackageManager)
    requires Obliging(o) && Distro.Detect(w.files) == Ok(pm)
    requires StepNoEdit(s) && StepTargets(s) !! Probes
    ensures RunStep(o, w, s).world.trace == w.trace + StepScript(s, pm).events
    ensures RunStep(o, w, s).outcome == StepScript(s, pm).outcome
    decreases s
  {
    match s
    case OnManager(apt, yum, dnf) =>
      ObligingRun(o, w, Branch(pm, apt, yum, dnf), pm);
    case Exec(cmd) => assert o(w.trace, Ran(cmd)) == Success;
    case Tolerate(cmd) => assert o(w.trace, Ran(cmd)) == Success;
    case Fallback(first, _) => assert o(w.trace, Ran(first)) == Success;
    case Put(path, data) => assert o(w.trace, Wrote(path, data)) == Success;
    case Abort(_) =>
  }

  lemma {:induction false} NoEditAppend(p: seq<Step>, q: seq<Step>)
    requires NoEdit(p) && NoEdit(q)
    ensures NoEdit(p + q)
    decreases p
  {
    if p == [] {
      assert p + q == q;
    } else {
      assert (p + q)[0] == p[0] && (p + q)[1..] == p[1..] + q;
      NoEditAppend(p[1..], q);
    }
  }

  /** The script of `p + q` is that of `p`, followed by that of `q` unless `p` aborted. */
  lemma {:induction false} ScriptAppend(p: seq<Step>, q: seq<Step>, pm: Distro.PackageManager)
    requires NoEdit(p) && NoEdit(q)
    ensures NoEdit(p + q)
    ensures Script(p + q, pm) ==
            (var t := Script(p, pm);
             if t.outcome.Fail? then t
             else Transcript(t.events + Script(q, pm).events, Script(q, pm).outcome))
    decreases p
  {
    NoEditAppend(p, q);
    if p == [] {
      assert p + q == q;
    } else {
      assert (p + q)[0] == p[0] && (p + q)[1..] == p[1..] + q;
      ScriptAppend(p[1..], q, pm);
      var head := StepScript(p[0], pm);
      if head.outcome.Pass? {
        var t := Script(p[1..], pm);
        if t.outcome.Pass? {
          assert head.events + (t.events + Script(q, pm).events)
              == (head.events + t.events) + Script(q, pm).events;
        }
      }
    }
  }

  /** A write that no later step can overwrite is in place when the plan succeeds. */
  lemma {:induction false} PutLands(o: Oracle, w: World, plan: seq<Step>, i: nat)
    requires i < |plan| && plan[i].Put? && plan[i].path !in Targets(plan[i + 1..])
    ensures var e := Run(o, w, plan);
            e.outcome.Pass? ==> plan[i].path in e.world.files && e.world.files[plan[i].path] == plan[i].data
    decreases i
  {
    var e := RunStep(o, w, plan[0]);
    if e.outcome.Pass? {
      if i == 0 {
        RunFrame(o, e.world, plan[1..], plan[0].path);
      } else {
        assert plan[1..][i - 1 + 1..] == plan[i + 1..];
        PutLands(o, e.world, plan[1..], i - 1);
      }
    }
  }

  /** A plan of commands alone writes no file. */
  lemma {:induction false} CommandsOnly(plan: seq<Step>)
    requires forall i :: 0 <= i < |plan| ==> plan[i].Exec? || plan[i].Tolerate? || plan[i].Fallback?
    ensures Targets(plan) == {}
    decreases plan
  {
    if plan != [] {
      CommandsOnly(plan[1..]);
    }
  }

  /** A plan that writes no file leaves the file system as it was. */
  lemma KeepsFiles(o: Oracle, w: World, plan: seq<Step>)
    requires Targets(plan) == {}
    ensures Run(o, w, plan).world.files == w.files
  {
    var f := Run(o, w, plan).world.files;
    forall p ensures Agree(f, w.files, p) {
      RunFrame(o, w, plan, p);
    }
    assert forall p :: p in f <==> p in w.files by {
      forall p ensures p in f <==> p in w.files {
        assert Agree(f, w.files, p);
      }
    }
    assert forall p | p in f :: f[p] == w.files[p] by {
      forall p | p in f ensures f[p] == w.files[p] {
        assert Agree(f, w.files, p);
      }
    }
  }

  /** The events of issuing `cmds` in order. */
  function Issued(cmds: seq<Command>): (events: seq<Event>)
    ensures |events| == |cmds| && forall i :: 0 <= i < |cmds| ==> events[i] == Ran(cmds[i])
  {
    seq(|cmds|, i requires 0 <= i < |cmds| => Ran(cmds[i]))
  }

  /** On an obliging host a run of commands issues each of them, in order, and passes. */
  lemma {:induction false} ObligingExecs(o: Oracle, w: World, cmds: seq<Command>)
    requires Obliging(o)
    ensures Run(o, w, Execs(cmds)) == Exit(Pass, World(w.files, w.trace + Issued(cmds)))
    decreases |cmds|
  {
    if cmds != [] {
      assert o(w.trace, Ran(cmds[0])) == Success;
      var w1 := World(w.files, w.trace + [Ran(cmds[0])]);
      assert Execs(cmds)[1..] == Execs(cmds[1..]);
      ObligingExecs(o, w1, cmds[1..]);
      assert w1.trace + Issued(cmds[1..]) == w.trace + Issued(cmds);
    }
  }

  /** An install through the detected manager is one command of that manager's tool, or the
      detection error before any command. */
  lemma InstallAllRuns(o: Oracle, w: World, packages: seq<string>)
    ensures Distro.Detect(w.files).Ok? ==>
              RunStep(o, w, InstallAll(packages)) ==
                RunCommand(o, w, Command(Distro.Tool(Distro.Detect(w.files).value), ["install", "-y"] + packages))
    ensures Distro.Detect(w.files).Err? ==>
              RunStep(o, w, InstallAll(packages)) == Exit(Fail(Distro.Unsupported), w)
  {
    var s := InstallAll(packages);
    if Distro.Detect(w.files).Ok? {
      var b := Branch(Distro.Detect(w.files).value, s.apt, s.yum, s.dnf);
      assert b == [Exec(Command(Distro.Tool(Distro.Detect(w.files).value), ["install", "-y"] + packages))];
      RunSingle(o, w, b[0]);
    }
  }

  /** The events of steps that each issue one command or write. */
  function Events(steps: seq<Step>): seq<Event>
    requires forall i :: 0 <= i < |steps| ==> steps[i].Exec? || steps[i].Put?
  {
    seq(|steps|, i requires 0 <= i < |steps| =>
      if steps[i].Exec? then Ran(steps[i].cmd) else Wrote(steps[i].path, steps[i].data))
  }

  /** The script of steps that each issue one event. */
  lemma {:induction false} ExecScript(steps: seq<Step>, pm: Distro.PackageManager)
    requires forall i :: 0 <= i < |steps| ==> steps[i].Exec? || steps[i].Put?
    ensures NoEdit(steps)
    ensures Script(steps, pm) == Transcript(Events(steps), Pass)
    decreases steps
  {
    if steps != [] {
      ExecScript(steps[1..], pm);
      assert Events(steps) == Events(steps[..1]) + Events(steps[1..]);
    }
  }

  /** On an obliging host, steps that each issue one command or write all pass, and issue exactly
      their events in order. */
  lemma {:induction false} ObligingSimple(o: Oracle, w: World, steps: seq<Step>)
    requires Obliging(o)
    requires forall i :: 0 <= i < |steps| ==> steps[i].Exec? || steps[i].Put?
    ensures Run(o, w, steps).outcome == Pass
    ensures Run(o, w, steps).world.trace == w.trace + Events(steps)
    decreases steps
  {
    if steps != [] {
      var s := steps[0];
      if s.Exec? {
        Obliges(o, w.trace, Ran(s.cmd));
      } else {
        Obliges(o, w.trace, Wrote(s.path, s.data));
      }
      var e := RunStep(o, w, s);
      ObligingSimple(o, e.world, steps[1..]);
      assert Events(steps) == Events(steps[..1]) + Events(steps[1..]);
    }
  }

  /** On an obliging host, a step that branches on the package manager into steps that each issue
      one command or write passes and issues exactly the events of the branch for the detected
      manager. */
  lemma ObligingOnManager(o: Oracle, w: World, apt: seq<Step>, yum: seq<Step>, dnf: seq<Step>)
    requires Obliging(o) && Distro.Detect(w.files).Ok?
    requires forall i :: 0 <= i < |apt| ==> apt[i].Exec? || apt[i].Put?
    requires forall i :: 0 <= i < |yum| ==> yum[i].Exec? || yum[i].Put?
    requires forall i :: 0 <= i < |dnf| ==> dnf[i].Exec? || dnf[i].Put?
    ensures var b := Branch(Distro.Detect(w.files).value, apt, yum, dnf);
            RunStep(o, w, OnManager(apt, yum, dnf)).outcome == Pass
            && RunStep(o, w, OnManager(apt, yum, dnf)).world.trace == w.trace + Events(b)
  {
    ObligingSimple(o, w, Branch(Distro.Detect(w.files).value, apt, yum, dnf));
  }
}
