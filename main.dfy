/** The whole run of the tool: the answers are read and saved, then the phases run in their fixed
    order on one rollback manager; the first phase that fails triggers a rollback of everything
    and ends the run, and the report is written only when every phase succeeded. */
module ServerForge {
  import opened Wrappers
  import opened Utf8
  import opened Machine
  import opened Distro
  import opened Plans
  import opened Shell
  import opened Rollback
  import opened Config
  import Setup
  import Security
  import Updates
  import Monitoring
  import Backup
  import Containerization
  import Deployment
  import Utils

  datatype Phase =
    | InitialPhase | SecurityPhase | UpdatesPhase | MonitoringPhase | BackupPhase
    | DockerPhase | KubernetesPhase | ContainersPhase | ApplicationsPhase

  /** The phases every run has, in order. */
  const CommonPhases := [InitialPhase, SecurityPhase, UpdatesPhase, MonitoringPhase, BackupPhase]

  /** The phases after Docker when containers are used: Kubernetes when asked for, then the
      containers. */
  function ClusterPhases(c: Config): seq<Phase> {
    (if c.useKubernetes then [KubernetesPhase] else []) + [ContainersPhase]
  }

  /** The phases after the common ones: Docker and the cluster phases, or the applications. */
  function PlatformPhases(c: Config): seq<Phase> {
    if c.useContainers then [DockerPhase] + ClusterPhases(c) else [ApplicationsPhase]
  }

  /** The phases a configuration runs, in order. */
  function Phases(c: Config): seq<Phase> {
    CommonPhases + PlatformPhases(c)
  }

  /** What each phase does. */
  function PhasePlan(p: Phase, c: Config): seq<Step> {
    match p
    case InitialPhase => Setup.InitialSetupPlan(c)
    case SecurityPhase => Security.SecurityPlan(c)
    case UpdatesPhase => Updates.UpdatesPlan(c)
    case MonitoringPhase => if c.monitoring then Monitoring.MonitoringPlan else []
    case BackupPhase => Backup.BackupPlan(c)
    case DockerPhase => Containerization.InstallDockerPlan + Containerization.ConfigureDockerPlan
    case KubernetesPhase => Containerization.InstallKubernetesPlan + Containerization.ConfigureKubernetesPlan
    case ContainersPhase => Containerization.ContainersPlan(c)
    case ApplicationsPhase => Deployment.ApplicationsPlan(c)
  }

  /** Whether a phase creates a snapshot: all do, except monitoring when it is off. */
  predicate Snapshots(p: Phase, c: Config) {
    p != MonitoringPhase || c.monitoring
  }

  /** The error the run returns when phase `p` failed and the rollback succeeded. */
  function FailureText(p: Phase): string {
    match p
    case InitialPhase => "Setup failed"
    case SecurityPhase => "Security implementation failed"
    case UpdatesPhase => "Update setup failed"
    case MonitoringPhase => "Monitoring setup failed"
    case BackupPhase => "Backup setup failed"
    case DockerPhase => "Docker setup failed"
    case KubernetesPhase => "Kubernetes setup failed"
    case ContainersPhase => "Container deployment failed"
    case ApplicationsPhase => "Application deployment failed"
  }

  /** How the phases ended: all of them succeeded, or phase `phase` failed leaving `world`, after
      `snapshots` snapshots had been created in all. */
  datatype Stage = Completed(world: World, snapshots: nat) | Stopped(phase: Phase, world: World, snapshots: nat)

  /** The phases in order from world `w`, with `n` snapshots already created, up to the first that
      fails. */
  function RunPhases(o: Oracle, w: World, c: Config, phases: seq<Phase>, n: nat): Stage
    decreases |phases|
  {
    if phases == [] then Completed(w, n)
    else
      var e := Run(o, w, PhasePlan(phases[0], c));
      var m := if Snapshots(phases[0], c) then n + 1 else n;
      if e.outcome.Fail? then Stopped(phases[0], e.world, m)
      else RunPhases(o, e.world, c, phases[1..], m)
  }

  /** `n` snapshots as the phases leave them: created and committed, with nothing recorded. */
  function Blank(n: nat): (s: seq<Snapshot>)
    ensures |s| == n && forall i :: 0 <= i < n ==> s[i] == Fresh
  {
    seq(n, i requires 0 <= i < n => Fresh)
  }

  const ConfigPath := "/etc/server_setup_config.json"

  /** The end of a run: the report after success; after a failure, `rollback_all`, whose own error
      wins over the phase's. */
  function Finish(o: Oracle, stage: Stage, c: Config, system: string): Exit {
    match stage
    case Completed(w, _) => WriteFile(o, w, Utils.ReportPath, Encode(Utils.ReportText(c) + system))
    case Stopped(p, w, n) =>
      var u := Run(o, w, UndoNewestFirst(Blank(n)));
      if u.outcome.Fail? then u else Exit(Fail(FailureText(p)), u.world)
  }

  /** `main` from `get_user_input` on, given the lines the user types, the JSON text `serialize`
      gives a configuration and the system information the report ends with. */
  function Provisioned(o: Oracle, w: World, lines: seq<string>, serialize: Config -> string, system: string): Exit {
    match Utils.UserInput(lines)
    case Err(m) => Exit(Fail(m), w)
    case Ok(c) =>
      var saved := WriteFile(o, w, ConfigPath, Encode(serialize(c)));
      if saved.outcome.Fail? then saved
      else Finish(o, RunPhases(o, saved.world, c, Phases(c), 0), c, system)
  }

  /** The phases a run goes through depend on the platform answers: Docker and the containers
      exactly when containers are used, Kubernetes only with them, the applications otherwise. */
  lemma PhaseOrder(c: Config)
    ensures Phases(c)[..5] == CommonPhases
    ensures DockerPhase in Phases(c) <==> c.useContainers
    ensures ContainersPhase in Phases(c) <==> c.useContainers
    ensures KubernetesPhase in Phases(c) <==> c.useContainers && c.useKubernetes
    ensures ApplicationsPhase in Phases(c) <==> !c.useContainers
    ensures Phases(c)[|Phases(c)| - 1] == if c.useContainers then ContainersPhase else ApplicationsPhase
  {
    var tail := PlatformPhases(c);
    assert Phases(c)[5..] == tail;
    assert DockerPhase !in CommonPhases && ContainersPhase !in CommonPhases;
    assert KubernetesPhase !in CommonPhases && ApplicationsPhase !in CommonPhases;
    assert forall p :: p in Phases(c) <==> p in CommonPhases || p in tail;
  }

  /** A run that stops, stops at one of its phases after creating that phase's snapshot; and the
      record of what happened only grows. */
  lemma {:induction false} StopCounts(o: Oracle, w: World, c: Config, phases: seq<Phase>, n: nat)
    ensures var s := RunPhases(o, w, c, phases, n);
            w.trace <= s.world.trace && n <= s.snapshots &&
            (s.Stopped? ==> s.phase in phases && n < s.snapshots)
    decreases |phases|
  {
    if phases != [] {
      var e := Run(o, w, PhasePlan(phases[0], c));
      RunExtends(o, w, PhasePlan(phases[0], c));
      assert phases[0] == MonitoringPhase && !c.monitoring ==> e.outcome.Pass?;
      if e.outcome.Pass? {
        var m := if Snapshots(phases[0], c) then n + 1 else n;
        StopCounts(o, e.world, c, phases[1..], m);
        assert forall p :: p in phases[1..] ==> p in phases;
      }
    }
  }

  /** The phases record no changed file and no installed package in their snapshots, so the
      rollback after a failed phase changes nothing: the run ends on the world the failed phase
      left, with the phase's fixed failure message, or with the detection error when no package
      manager is present. */
  lemma FailedRunIsInert(o: Oracle, w: World, c: Config, phases: seq<Phase>, n: nat, system: string)
    requires RunPhases(o, w, c, phases, n).Stopped?
    ensures var s := RunPhases(o, w, c, phases, n);
            Finish(o, s, c, system)
              == Exit(Fail(if Detect(s.world.files).Ok? then FailureText(s.phase) else Unsupported), s.world)
  {
    var s := RunPhases(o, w, c, phases, n);
    StopCounts(o, w, c, phases, n);
    EmptyRollbackInert(o, s.world, Blank(s.snapshots));
  }

  /** A run succeeds only when the answers were read, every phase succeeded and the report was
      written last, holding the configuration's text and the system information; and whenever the
      answers were read, saving the configuration is the first thing that happened. */
  lemma ProvisionedOutcome(o: Oracle, w: World, lines: seq<string>, serialize: Config -> string, system: string)
    ensures var e := Provisioned(o, w, lines, serialize, system);
            w.trace <= e.world.trace &&
            (Utils.UserInput(lines).Err? ==> e == Exit(Fail(Utils.UserInput(lines).message), w)) &&
            (Utils.UserInput(lines).Ok? ==>
               var c := Utils.UserInput(lines).value;
               w.trace + [Wrote(ConfigPath, Encode(serialize(c)))] <= e.world.trace) &&
            (e.outcome.Pass? ==>
               Utils.UserInput(lines).Ok? &&
               var c := Utils.UserInput(lines).value;
               var data := Encode(Utils.ReportText(c) + system);
               Utils.ReportPath in e.world.files && e.world.files[Utils.ReportPath] == data &&
               e.world.trace[|e.world.trace| - 1] == Wrote(Utils.ReportPath, data))
  {
    var e := Provisioned(o, w, lines, serialize, system);
    if Utils.UserInput(lines).Ok? {
      var c := Utils.UserInput(lines).value;
      var saved := WriteFile(o, w, ConfigPath, Encode(serialize(c)));
      if saved.outcome.Pass? {
        var s := RunPhases(o, saved.world, c, Phases(c), 0);
        StopCounts(o, saved.world, c, Phases(c), 0);
        if s.Stopped? {
          FailedRunIsInert(o, saved.world, c, Phases(c), 0, system);
        }
      }
    }
  }

  /** `rollback_all()?` followed by `return Err(message)`. */
  method Abandon(h: Host, rb: RollbackManager, message: string) returns (r: Outcome)
    modifies h
    ensures var u := Run(h.oracle, old(h.World()), UndoNewestFirst(rb.snapshots));
            Exit(r, h.World()) == if u.outcome.Fail? then u else Exit(Fail(message), u.world)
  {
    r := rb.RollbackAll(h);
    if r.Pass? {
      r := Fail(message);
    }
  }

  lemma BlankSnoc(n: nat)
    ensures Blank(n) + [Fresh] == Blank(n + 1)
  {
    assert forall i :: 0 <= i < n + 1 ==> (Blank(n) + [Fresh])[i] == Fresh;
  }

  /** The function of one of the five phases every run has. */
  method CommonPhase(h: Host, rb: RollbackManager, c: Config, p: Phase) returns (r: Outcome)
    requires p in {InitialPhase, SecurityPhase, UpdatesPhase, MonitoringPhase, BackupPhase}
    modifies h, rb
    ensures Exit(r, h.World()) == Run(h.oracle, old(h.World()), PhasePlan(p, c))
    ensures rb.snapshots == old(rb.snapshots) + if Snapshots(p, c) then [Fresh] else []
  {
    match p {
      case InitialPhase => r := Setup.InitialSetup(h, rb, c);
      case SecurityPhase => r := Security.ImplementSecurityMeasures(h, rb, c);
      case UpdatesPhase => r := Updates.SetupAutomaticUpdates(h, rb, c);
      case MonitoringPhase =>
        r := Monitoring.SetupMonitoring(h, rb, c);
        if !c.monitoring {
          assert rb.snapshots == old(rb.snapshots) + [];
        }
      case BackupPhase => r := Backup.SetupBackupSystem(h, rb, c);
    }
  }

  /** The function of one of the phases that depend on `use_containers`. */
  method PlatformPhase(h: Host, rb: RollbackManager, c: Config, p: Phase) returns (r: Outcome)
    requires p in {DockerPhase, KubernetesPhase, ContainersPhase, ApplicationsPhase}
    modifies h, rb
    ensures Exit(r, h.World()) == Run(h.oracle, old(h.World()), PhasePlan(p, c))
    ensures rb.snapshots == old(rb.snapshots) + [Fresh]
  {
    match p {
      case DockerPhase => r := Containerization.SetupDocker(h, rb);
      case KubernetesPhase => r := Containerization.SetupKubernetes(h, rb);
      case ContainersPhase => r := Containerization.DeployContainers(h, rb, c);
      case ApplicationsPhase => r := Deployment.DeployApplications(h, rb, c);
    }
  }

  /** The function of phase `p`. */
  method PhaseOf(h: Host, rb: RollbackManager, c: Config, p: Phase) returns (r: Outcome)
    modifies h, rb
    ensures Exit(r, h.World()) == Run(h.oracle, old(h.World()), PhasePlan(p, c))
    ensures rb.snapshots == old(rb.snapshots) + if Snapshots(p, c) then [Fresh] else []
  {
    if p in {InitialPhase, SecurityPhase, UpdatesPhase, MonitoringPhase, BackupPhase} {
      r := CommonPhase(h, rb, c, p);
    } else {
      r := PlatformPhase(h, rb, c, p);
    }
  }

  /** One step of `RunPhases`: a failing phase stops the run there, a passing one hands over to the
      rest. */
  lemma PhaseStep(o: Oracle, w: World, e: Exit, c: Config, p: Phase, rest: seq<Phase>, n: nat)
    requires e == Run(o, w, PhasePlan(p, c))
    ensures var m := if Snapshots(p, c) then n + 1 else n;
            RunPhases(o, w, c, [p] + rest, n)
              == if e.outcome.Fail? then Stopped(p, e.world, m) else RunPhases(o, e.world, c, rest, m)
  {
    assert ([p] + rest)[0] == p && ([p] + rest)[1..] == rest;
  }

  /** One phase of `main`: the phase's function, and on its error the rollback and the early
      return. */
  method Attempt(h: Host, rb: RollbackManager, c: Config, p: Phase, ghost rest: seq<Phase>, ghost system: string)
    returns (r: Outcome, stopped: bool)
    requires rb.snapshots == Blank(|rb.snapshots|)
    modifies h, rb
    ensures rb.snapshots == Blank(|rb.snapshots|)
    ensures stopped ==>
              Exit(r, h.World()) == Finish(h.oracle, RunPhases(h.oracle, old(h.World()), c, [p] + rest, old(|rb.snapshots|)), c, system)
    ensures !stopped ==>
              RunPhases(h.oracle, old(h.World()), c, [p] + rest, old(|rb.snapshots|))
                == RunPhases(h.oracle, h.World(), c, rest, |rb.snapshots|)
  {
    ghost var n := |rb.snapshots|;
    ghost var w := h.World();
    BlankSnoc(n);
    r := PhaseOf(h, rb, c, p);
    PhaseStep(h.oracle, w, Exit(r, h.World()), c, p, rest, n);
    stopped := r.Fail?;
    if stopped {
      r := Abandon(h, rb, FailureText(p));
    }
  }

  /** The five common phases of `main`, each stopping the run on its error. */
  method RunCommonPhases(h: Host, rb: RollbackManager, c: Config, ghost rest: seq<Phase>, ghost system: string)
    returns (r: Outcome, stopped: bool)
    requires rb.snapshots == Blank(|rb.snapshots|)
    modifies h, rb
    ensures rb.snapshots == Blank(|rb.snapshots|)
    ensures stopped ==>
              Exit(r, h.World()) == Finish(h.oracle, RunPhases(h.oracle, old(h.World()), c, CommonPhases + rest, old(|rb.snapshots|)), c, system)
    ensures !stopped ==>
              RunPhases(h.oracle, old(h.World()), c, CommonPhases + rest, old(|rb.snapshots|))
                == RunPhases(h.oracle, h.World(), c, rest, |rb.snapshots|)
  {
    assert CommonPhases + rest == [InitialPhase] + ([SecurityPhase] + ([UpdatesPhase] + ([MonitoringPhase] + ([BackupPhase] + rest))));
    r, stopped := Attempt(h, rb, c, InitialPhase, [SecurityPhase] + ([UpdatesPhase] + ([MonitoringPhase] + ([BackupPhase] + rest))), system);
    if stopped {
      return;
    }
    r, stopped := Attempt(h, rb, c, SecurityPhase, [UpdatesPhase] + ([MonitoringPhase] + ([BackupPhase] + rest)), system);
    if stopped {
      return;
    }
    r, stopped := Attempt(h, rb, c, UpdatesPhase, [MonitoringPhase] + ([BackupPhase] + rest), system);
    if stopped {
      return;
    }
    r, stopped := Attempt(h, rb, c, MonitoringPhase, [BackupPhase] + rest, system);
    if stopped {
      return;
    }
    r, stopped := Attempt(h, rb, c, BackupPhase, rest, system);
  }

  /** The end of a run whose phases all succeeded: the report, which is the only thing after the
      phases that can still fail. */
  method WriteReport(h: Host, c: Config, system: string, ghost n: nat) returns (r: Outcome)
    modifies h
    ensures Exit(r, h.World()) == Finish(h.oracle, Completed(old(h.World()), n), c, system)
  {
    var report := Utils.BuildReport(c);
    r := h.WriteFile(Utils.ReportPath, Encode(report + system));
  }

  /** Kubernetes when asked for, then the containers. */
  method RunClusterPhases(h: Host, rb: RollbackManager, c: Config, ghost system: string)
    returns (r: Outcome, stopped: bool)
    requires rb.snapshots == Blank(|rb.snapshots|)
    modifies h, rb
    ensures rb.snapshots == Blank(|rb.snapshots|)
    ensures stopped ==>
              Exit(r, h.World()) == Finish(h.oracle, RunPhases(h.oracle, old(h.World()), c, ClusterPhases(c), old(|rb.snapshots|)), c, system)
    ensures !stopped ==>
              RunPhases(h.oracle, old(h.World()), c, ClusterPhases(c), old(|rb.snapshots|))
                == RunPhases(h.oracle, h.World(), c, [], |rb.snapshots|)
  {
    if c.useKubernetes {
      r, stopped := Attempt(h, rb, c, KubernetesPhase, [ContainersPhase], system);
      if stopped {
        return;
      }
    } else {
      assert ClusterPhases(c) == [ContainersPhase] + [];
    }
    r, stopped := Attempt(h, rb, c, ContainersPhase, [], system);
  }

  /** The container phases: Docker, then the cluster phases. */
  method RunContainerPhases(h: Host, rb: RollbackManager, c: Config, ghost system: string)
    returns (r: Outcome, stopped: bool)
    requires c.useContainers
    requires rb.snapshots == Blank(|rb.snapshots|)
    modifies h, rb
    ensures rb.snapshots == Blank(|rb.snapshots|)
    ensures stopped ==>
              Exit(r, h.World()) == Finish(h.oracle, RunPhases(h.oracle, old(h.World()), c, PlatformPhases(c), old(|rb.snapshots|)), c, system)
    ensures !stopped ==>
              RunPhases(h.oracle, old(h.World()), c, PlatformPhases(c), old(|rb.snapshots|))
                == RunPhases(h.oracle, h.World(), c, [], |rb.snapshots|)
  {
    r, stopped := Attempt(h, rb, c, DockerPhase, ClusterPhases(c), system);
    if stopped {
      return;
    }
    r, stopped := RunClusterPhases(h, rb, c, system);
  }

  /** The phases after the common ones, then the report when all of them succeeded. */
  method RunPlatformPhases(h: Host, rb: RollbackManager, c: Config, system: string) returns (r: Outcome)
    requires rb.snapshots == Blank(|rb.snapshots|)
    modifies h, rb
    ensures Exit(r, h.World()) == Finish(h.oracle, RunPhases(h.oracle, old(h.World()), c, PlatformPhases(c), old(|rb.snapshots|)), c, system)
  {
    var stopped;
    if c.useContainers {
      r, stopped := RunContainerPhases(h, rb, c, system);
    } else {
      r, stopped := Attempt(h, rb, c, ApplicationsPhase, [], system);
    }
    if stopped {
      return;
    }
    r := WriteReport(h, c, system, |rb.snapshots|);
  }

  /** `main` after logging is set up. */
  method Provision(h: Host, lines: seq<string>, serialize: Config -> string, system: string) returns (r: Outcome)
    modifies h
    ensures Exit(r, h.World()) == Provisioned(h.oracle, old(h.World()), lines, serialize, system)
  {
    var input := Utils.GetUserInput(lines);
    if input.Err? {
      return Fail(input.message);
    }
    var c := input.value;
    r := h.WriteFile(ConfigPath, Encode(serialize(c)));
    if r.Fail? {
      return;
    }
    var rb := new RollbackManager();
    assert rb.snapshots == Blank(0);
    var stopped;
    r, stopped := RunCommonPhases(h, rb, c, PlatformPhases(c), system);
    if stopped {
      return;
    }
    r := RunPlatformPhases(h, rb, c, system);
  }
}
