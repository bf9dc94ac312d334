/** Docker and Kubernetes: installing and configuring each, and running every configured
    application as a container on one or the other. */
module Containerization {
  import opened Wrappers
  import opened Utf8
  import opened Text
  import opened Machine
  import opened Distro
  import opened Plans
  import opened Shell
  import opened Rollback
  import opened Config
  import opened Phase

  const DockerPackages := ["docker-ce", "docker-ce-cli", "containerd.io"]

  /** The repository set-up and install of `install_docker` on a host with manager `pm`. */
  function DockerInstall(pm: PackageManager): seq<Step> {
    match pm
    case Apt =>
      Execs([Command("apt", ["update"]),
             Command("apt", ["install", "-y", "apt-transport-https", "ca-certificates", "curl", "gnupg", "lsb-release"]),
             Command("curl", ["-fsSL", "https://download.docker.com/linux/ubuntu/gpg", "|", "gpg", "--dearmor",
                              "-o", "/usr/share/keyrings/docker-archive-keyring.gpg"]),
             Command("echo", ["\"deb [arch=amd64 signed-by=/usr/share/keyrings/docker-archive-keyring.gpg] "
                              + "https://download.docker.com/linux/ubuntu $(lsb_release -cs) stable\"",
                              "|", "tee", "/etc/apt/sources.list.d/docker.list", ">", "/dev/null"]),
             Command("apt", ["update"]),
             Command("apt", ["install", "-y"] + DockerPackages)])
    case Yum =>
      Execs([Command("yum", ["install", "-y", "yum-utils"]),
             Command("yum-config-manager", ["--add-repo", "https://download.docker.com/linux/centos/docker-ce.repo"]),
             Command("yum", ["install", "-y"] + DockerPackages)])
    case Dnf =>
      Execs([Command("dnf", ["install", "-y", "dnf-plugins-core"]),
             Command("dnf", ["config-manager", "--add-repo", "https://download.docker.com/linux/fedora/docker-ce.repo"]),
             Command("dnf", ["install", "-y"] + DockerPackages)])
  }

  /** `install_docker`. */
  const InstallDockerPlan: seq<Step> := [
    OnManager(DockerInstall(Apt), DockerInstall(Yum), DockerInstall(Dnf)),
    Exec(Command("systemctl", ["start", "docker"])),
    Exec(Command("systemctl", ["enable", "docker"]))]

  /** Every branch issues only commands, ends with the install of the Docker packages through the
      host's own tool, and on APT refreshes the index after adding the repository. */
  lemma DockerBranches(pm: PackageManager)
    ensures var b := DockerInstall(pm);
            b != [] && (forall i :: 0 <= i < |b| ==> b[i].Exec?)
            && b[|b| - 1] == Exec(Command(Tool(pm), ["install", "-y"] + DockerPackages))
            && |b| == (if pm == Apt then 6 else 3)
            && (pm == Apt ==> b[4] == Exec(Command("apt", ["update"])))
  {
  }

  const DaemonPath := "/etc/docker/daemon.json"
  const DaemonConfig :=
    "\n{\n  \"log-driver\": \"json-file\",\n  \"log-opts\": {\n    \"max-size\": \"100m\",\n"
    + "    \"max-file\": \"3\"\n  },\n  \"default-ulimits\": {\n    \"nofile\": {\n"
    + "      \"Name\": \"nofile\",\n      \"Hard\": 64000,\n      \"Soft\": 64000\n    }\n  }\n}\n"

  /** `configure_docker`. */
  const ConfigureDockerPlan: seq<Step> := [
    Exec(Command("groupadd", ["docker"])),
    Exec(Command("usermod", ["-aG", "docker", "$USER"])),
    Put(DaemonPath, Encode(DaemonConfig)),
    Exec(Command("systemctl", ["restart", "docker"]))]

  /** `setup_docker`: install, then configure, inside one snapshot. */
  method SetupDocker(h: Host, rb: RollbackManager) returns (r: Outcome)
    modifies h, rb
    ensures Exit(r, h.World()) == Run(h.oracle, old(h.World()), InstallDockerPlan + ConfigureDockerPlan)
    ensures rb.snapshots == old(rb.snapshots) + [Fresh]
  {
    r := RunPhase(h, rb, InstallDockerPlan + ConfigureDockerPlan);
  }

  /** When Docker's set-up succeeds the daemon configuration is in place, and Docker was restarted
      after it was written. */
  lemma DaemonConfigured(o: Oracle, w: World)
    ensures var e := Run(o, w, InstallDockerPlan + ConfigureDockerPlan);
            e.outcome.Pass? ==>
              DaemonPath in e.world.files && e.world.files[DaemonPath] == Encode(DaemonConfig)
              && e.world.trace == Run(o, w, InstallDockerPlan + ConfigureDockerPlan[..2]).world.trace
                   + [Wrote(DaemonPath, Encode(DaemonConfig)), Ran(Command("systemctl", ["restart", "docker"]))]
  {
    var plan := InstallDockerPlan + ConfigureDockerPlan;
    var restart := Exec(Command("systemctl", ["restart", "docker"]));
    assert plan[6..] == [restart];
    assert Targets([restart]) == {};
    PutLands(o, w, plan, 5);
    assert plan == plan[..6] + [restart];
    assert plan[..6] == plan[..5] + [plan[5]];
    assert plan[..5] == InstallDockerPlan + ConfigureDockerPlan[..2];
    RunSnoc(o, w, plan[..6], restart);
    RunSnoc(o, w, plan[..5], plan[5]);
  }

  /** The commands common to every host in `install_kubernetes`: kubectl, then minikube. */
  const KubernetesTools: seq<Command> := [
    Command("curl", ["-LO", "https://storage.googleapis.com/kubernetes-release/release/$(curl -s "
                            + "https://storage.googleapis.com/kubernetes-release/release/stable.txt)/bin/linux/amd64/kubectl"]),
    Command("chmod", ["+x", "./kubectl"]),
    Command("mv", ["./kubectl", "/usr/local/bin/kubectl"]),
    Command("curl", ["-Lo", "minikube", "https://storage.googleapis.com/minikube/releases/latest/minikube-linux-amd64"]),
    Command("chmod", ["+x", "minikube"]),
    Command("mv", ["minikube", "/usr/local/bin/"])]

  /** The virtualisation driver each manager installs. */
  function Driver(pm: PackageManager): Command {
    match pm
    case Apt => Command("apt", ["install", "-y", "virtualbox"])
    case Yum => Command("yum", ["install", "-y", "VirtualBox"])
    case Dnf => Command("dnf", ["install", "-y", "VirtualBox"])
  }

  /** `install_kubernetes`: the manager is detected before anything is downloaded, and decides only
      the driver. */
  const InstallKubernetesPlan: seq<Step> := [
    OnManager(Execs(KubernetesTools + [Driver(Apt)]), Execs(KubernetesTools + [Driver(Yum)]),
              Execs(KubernetesTools + [Driver(Dnf)]))]

  /** On a host whose manager cannot be detected nothing is downloaded; otherwise, on an obliging
      host, kubectl and minikube are fetched and installed and then the driver of the host's own
      manager. */
  lemma KubernetesInstall(o: Oracle, w: World)
    ensures Detect(w.files).Err? ==> Run(o, w, InstallKubernetesPlan) == Exit(Fail(Unsupported), w)
    ensures Detect(w.files).Ok? && Obliging(o) ==>
              Run(o, w, InstallKubernetesPlan) ==
                Exit(Pass, World(w.files, w.trace + Issued(KubernetesTools + [Driver(Detect(w.files).value)])))
  {
    RunSingle(o, w, InstallKubernetesPlan[0]);
    if Detect(w.files).Ok? && Obliging(o) {
      var pm := Detect(w.files).value;
      var s := InstallKubernetesPlan[0];
      assert Branch(pm, s.apt, s.yum, s.dnf) == Execs(KubernetesTools + [Driver(pm)]);
      ObligingExecs(o, w, KubernetesTools + [Driver(pm)]);
    }
  }

  /** `configure_kubernetes`; the redirection in the completion command is passed through as an
      argument. */
  const ConfigureKubernetesPlan: seq<Step> := Execs([
    Command("minikube", ["start"]),
    Command("minikube", ["addons", "enable", "ingress"]),
    Command("minikube", ["addons", "enable", "dashboard"]),
    Command("kubectl", ["completion", "bash", ">", "/etc/bash_completion.d/kubectl"])])

  /** `setup_kubernetes`: install, then configure, inside one snapshot. */
  method SetupKubernetes(h: Host, rb: RollbackManager) returns (r: Outcome)
    modifies h, rb
    ensures Exit(r, h.World()) == Run(h.oracle, old(h.World()), InstallKubernetesPlan + ConfigureKubernetesPlan)
    ensures rb.snapshots == old(rb.snapshots) + [Fresh]
  {
    r := RunPhase(h, rb, InstallKubernetesPlan + ConfigureKubernetesPlan);
  }

  /** The literal pieces of the deployment manifest, between the five places the application's
      name goes. */
  const ManifestPieces: seq<string> := [
    "\napiVersion: apps/v1\nkind: Deployment\nmetadata:\n  name: ",
    "\nspec:\n  replicas: 1\n  selector:\n    matchLabels:\n      app: ",
    "\n  template:\n    metadata:\n      labels:\n        app: ",
    "\n    spec:\n      containers:\n      - name: ",
    "\n        image: ",
    ":latest" + "\n        ports:\n        - containerPort: 80\n"]

  /** The Deployment `deploy_to_kubernetes` writes for `app`. */
  function Manifest(app: string): string {
    Format(ManifestPieces, app)
  }

  /** The manifest names the deployment `app` (metadata name), selects and labels its pods with
      `app` and names the container `app`, and the image it runs is `app` too. */
  lemma ManifestNames(app: string)
    ensures forall k :: 0 <= k < 5 ==>
              var p := Offset(ManifestPieces, k, |app|);
              p + |app| <= |Manifest(app)| && Manifest(app)[p..p + |app|] == app
  {
    forall k | 0 <= k < 5
      ensures var p := Offset(ManifestPieces, k, |app|);
              p + |app| <= |Manifest(app)| && Manifest(app)[p..p + |app|] == app
    {
      FormatAt(ManifestPieces, app, k);
    }
  }

  /** The image name is followed by the tag `:latest`. */
  lemma ManifestImage(app: string)
    ensures var p := Offset(ManifestPieces, 4, |app|) + |app|;
            p + 7 <= |Manifest(app)| && Manifest(app)[p..p + 7] == ":latest"
  {
    FormatAt(ManifestPieces, app, 4);
    var p := Offset(ManifestPieces, 4, |app|) + |app|;
    var m, tail := Manifest(app), ManifestPieces[5];
    assert m[p..p + |tail|] == tail;
    assert tail[..7] == ":latest";
    assert m[p..p + 7] == m[p..p + |tail|][..7];
  }

  /** Different applications get different manifests: the manifest's length fixes the name's
      length, and the name follows the fixed head. */
  lemma ManifestInjective(a: string, b: string)
    requires Manifest(a) == Manifest(b)
    ensures a == b
  {
    FormatLength(ManifestPieces, a);
    FormatLength(ManifestPieces, b);
    OffsetLinear(ManifestPieces, 5, |a|);
    OffsetLinear(ManifestPieces, 5, |b|);
    FormatAt(ManifestPieces, a, 0);
    FormatAt(ManifestPieces, b, 0);
  }

  /** The manifest file, relative to the working directory. */
  function ManifestFile(app: string): string {
    app + "-deployment.yaml"
  }

  /** `deploy_to_kubernetes`. */
  function KubernetesPlan(app: string): seq<Step> {
    [Put(ManifestFile(app), Encode(Manifest(app))),
     Exec(Command("kubectl", ["apply", "-f", ManifestFile(app)])),
     Exec(Command("kubectl", ["expose", "deployment", app, "--type=LoadBalancer", "--port=80"]))]
  }

  /** When a Kubernetes deployment succeeds its manifest is on disk, and it was applied from that
      file and then exposed, in that order. */
  lemma KubernetesDeployed(o: Oracle, w: World, app: string)
    ensures var e := Run(o, w, KubernetesPlan(app));
            e.outcome.Pass? ==>
              ManifestFile(app) in e.world.files && e.world.files[ManifestFile(app)] == Encode(Manifest(app))
              && e.world.trace == w.trace + [Wrote(ManifestFile(app), Encode(Manifest(app))),
                                             Ran(KubernetesPlan(app)[1].cmd), Ran(KubernetesPlan(app)[2].cmd)]
  {
    var plan := KubernetesPlan(app);
    CommandsOnly(plan[1..]);
    PutLands(o, w, plan, 0);
    var e0 := RunStep(o, w, plan[0]);
    if e0.outcome.Pass? {
      var e1 := RunStep(o, e0.world, plan[1]);
      if e1.outcome.Pass? {
        assert plan[1..][1..] == [plan[2]];
        RunSingle(o, e1.world, plan[2]);
      }
    }
  }

  /** `deploy_to_docker`: a stale container of the same name is stopped and removed, and failures
      of those two are ignored. */
  function DockerPlan(app: string): seq<Step> {
    [Exec(Command("docker", ["pull", app])),
     Tolerate(Command("docker", ["stop", app])),
     Tolerate(Command("docker", ["rm", app])),
     Exec(Command("docker", ["run", "-d", "--name", app, "-p", "80:80", app]))]
  }

  /** Once the image is pulled the container is started whatever became of the stop and the
      removal; the deployment then succeeds exactly when the start does, and no file changes. */
  lemma DockerTolerance(o: Oracle, w: World, app: string)
    ensures var plan, e := DockerPlan(app), Run(o, w, DockerPlan(app));
            var pull, stop, rm, run := plan[0].cmd, plan[1].cmd, plan[2].cmd, plan[3].cmd;
            e.world.files == w.files
            && (o(w.trace, Ran(pull)) != Success ==>
                  e.outcome.Fail? && e.world.trace == w.trace + [Ran(pull)])
            && (o(w.trace, Ran(pull)) == Success ==>
                  e.world.trace == w.trace + [Ran(pull), Ran(stop), Ran(rm), Ran(run)]
                  && (e.outcome.Pass? <==> o(w.trace + [Ran(pull), Ran(stop), Ran(rm)], Ran(run)) == Success))
  {
    var plan := DockerPlan(app);
    CommandsOnly(plan);
    KeepsFiles(o, w, plan);
    var e0 := RunStep(o, w, plan[0]);
    if e0.outcome.Pass? {
      var e1 := RunStep(o, e0.world, plan[1]);
      var e2 := RunStep(o, e1.world, plan[2]);
      assert e1.outcome.Pass? && e2.outcome.Pass?;
      assert e2.world.trace == w.trace + [Ran(plan[0].cmd), Ran(plan[1].cmd), Ran(plan[2].cmd)];
      assert plan[1..][1..] == plan[2..] && plan[2..][1..] == [plan[3]];
      assert Run(o, w, plan) == Run(o, e0.world, plan[1..]);
      assert Run(o, e0.world, plan[1..]) == Run(o, e1.world, plan[2..]);
      assert Run(o, e1.world, plan[2..]) == Run(o, e2.world, [plan[3]]);
      RunSingle(o, e2.world, plan[3]);
    }
  }

  /** `deploy_container`. */
  function ContainerPlan(app: string, useKubernetes: bool): seq<Step> {
    if useKubernetes then KubernetesPlan(app) else DockerPlan(app)
  }

  function ContainersOn(useKubernetes: bool): string -> seq<Step> {
    app => ContainerPlan(app, useKubernetes)
  }

  /** `deploy_containers` without its snapshot. */
  function ContainersPlan(c: Config): seq<Step> {
    Each(c.deployedApps, ContainersOn(c.useKubernetes))
  }

  /** A step of a Kubernetes deployment: a manifest write or a `kubectl` command. */
  predicate KubernetesStep(s: Step) {
    s.Put? || (s.Exec? && s.cmd.tool == "kubectl")
  }

  /** A step of a Docker deployment: a `docker` command, checked or tolerated. */
  predicate DockerStep(s: Step) {
    (s.Exec? || s.Tolerate?) && s.cmd.tool == "docker"
  }

  /** With Kubernetes every application is deployed from a manifest with `kubectl` alone; without
      it only `docker` commands are issued and no file is written. */
  lemma {:induction false} ContainerSwitch(apps: seq<string>, useKubernetes: bool)
    ensures var plan := Each(apps, ContainersOn(useKubernetes));
            |plan| == (if useKubernetes then 3 else 4) * |apps|
            && (useKubernetes ==> forall i :: 0 <= i < |plan| ==> KubernetesStep(plan[i]))
            && (!useKubernetes ==> Targets(plan) == {} && forall i :: 0 <= i < |plan| ==> DockerStep(plan[i]))
    decreases |apps|
  {
    if apps != [] {
      var f := ContainersOn(useKubernetes);
      ContainerSwitch(apps[1..], useKubernetes);
      var head, tail := f(apps[0]), Each(apps[1..], f);
      assert Each(apps, f) == head + tail;
      if useKubernetes {
        assert forall i :: 0 <= i < |head| ==> KubernetesStep(head[i]);
      } else {
        assert forall i :: 0 <= i < |head| ==> DockerStep(head[i]);
        TargetsAppend(head, tail);
        CommandsOnly(head);
      }
    }
  }

  lemma {:induction false} TargetsAppend(p: seq<Step>, q: seq<Step>)
    ensures Targets(p + q) == Targets(p) + Targets(q)
    decreases |p|
  {
    if p != [] {
      assert (p + q)[1..] == p[1..] + q;
      TargetsAppend(p[1..], q);
    } else {
      assert p + q == q;
    }
  }

  /** `deploy_containers`: every application in list order inside one snapshot, stopping at the
      first failure. */
  method DeployContainers(h: Host, rb: RollbackManager, c: Config) returns (r: Outcome)
    modifies h, rb
    ensures Exit(r, h.World()) == Run(h.oracle, old(h.World()), ContainersPlan(c))
    ensures rb.snapshots == old(rb.snapshots) + [Fresh]
  {
    r := RunEachPhase(h, rb, c.deployedApps, ContainersOn(c.useKubernetes));
  }
}
