/** Monitoring: Prometheus, Grafana and the node exporter, set up only when asked for. */
module Monitoring {
  import opened Wrappers
  import opened Utf8
  import opened Machine
  import opened Distro
  import opened Plans
  import opened Shell
  import opened Rollback
  import opened Config
  import opened Phase

  const PrometheusRelease :=
    "https://github.com/prometheus/prometheus/releases/download/v2.30.3/prometheus-2.30.3.linux-amd64.tar.gz"
  const PrometheusUnitPath := "/etc/systemd/system/prometheus.service"
  const PrometheusUnit :=
    "[Unit]\nDescription=Prometheus\nWants=network-online.target\nAfter=network-online.target\n\n"
    + "[Service]\nUser=prometheus\nGroup=prometheus\nType=simple\n"
    + "ExecStart=/usr/local/bin/prometheus \\\n"
    + "    --config.file /etc/prometheus/prometheus.yml \\\n"
    + "    --storage.tsdb.path /var/lib/prometheus/ \\\n"
    + "    --web.console.templates=/etc/prometheus/consoles \\\n"
    + "    --web.console.libraries=/etc/prometheus/console_libraries\n\n"
    + "[Install]\nWantedBy=multi-user.target\n"

  /** `install_prometheus_from_source`. */
  const PrometheusFromSource: seq<Step> := [
    Exec(Command("wget", [PrometheusRelease])),
    Exec(Command("tar", ["xvfz", "prometheus-2.30.3.linux-amd64.tar.gz"])),
    Exec(Command("mv", ["prometheus-2.30.3.linux-amd64", "prometheus"])),
    Exec(Command("useradd", ["--no-create-home", "--shell", "/bin/false", "prometheus"])),
    Exec(Command("mkdir", ["/etc/prometheus", "/var/lib/prometheus"])),
    Exec(Command("chown", ["prometheus:prometheus", "/etc/prometheus", "/var/lib/prometheus"])),
    Exec(Command("mv", ["prometheus/prometheus", "prometheus/promtool", "/usr/local/bin/"])),
    Exec(Command("chown", ["prometheus:prometheus", "/usr/local/bin/prometheus", "/usr/local/bin/promtool"])),
    Exec(Command("mv", ["prometheus/consoles", "prometheus/console_libraries", "/etc/prometheus/"])),
    Exec(Command("mv", ["prometheus/prometheus.yml", "/etc/prometheus/prometheus.yml"])),
    Exec(Command("chown", ["-R", "prometheus:prometheus", "/etc/prometheus"])),
    Put(PrometheusUnitPath, Encode(PrometheusUnit)),
    Exec(Command("systemctl", ["daemon-reload"]))]

  const NodeExporterRelease :=
    "https://github.com/prometheus/node_exporter/releases/download/v1.2.2/node_exporter-1.2.2.linux-amd64.tar.gz"
  const NodeExporterUnitPath := "/etc/systemd/system/node_exporter.service"
  const NodeExporterUnit :=
    "[Unit]\nDescription=Node Exporter\nWants=network-online.target\nAfter=network-online.target\n\n"
    + "[Service]\nUser=node_exporter\nGroup=node_exporter\nType=simple\n"
    + "ExecStart=/usr/local/bin/node_exporter\n\n"
    + "[Install]\nWantedBy=multi-user.target\n"

  /** `install_node_exporter_from_source`. */
  const NodeExporterFromSource: seq<Step> := [
    Exec(Command("wget", [NodeExporterRelease])),
    Exec(Command("tar", ["xvfz", "node_exporter-1.2.2.linux-amd64.tar.gz"])),
    Exec(Command("useradd", ["--no-create-home", "--shell", "/bin/false", "node_exporter"])),
    Exec(Command("mv", ["node_exporter-1.2.2.linux-amd64/node_exporter", "/usr/local/bin/"])),
    Exec(Command("chown", ["node_exporter:node_exporter", "/usr/local/bin/node_exporter"])),
    Put(NodeExporterUnitPath, Encode(NodeExporterUnit)),
    Exec(Command("systemctl", ["daemon-reload"]))]

  /** Prometheus from the Ubuntu archive. */
  const PrometheusApt: seq<Step> := [
    Exec(Command("apt", ["update"])),
    Exec(Command("apt", ["install", "-y", "prometheus"]))]

  /** Grafana from its own APT repository. */
  const GrafanaApt: seq<Step> := [
    Exec(Command("apt", ["install", "-y", "apt-transport-https", "software-properties-common", "wget"])),
    Exec(Command("wget", ["-q", "-O", "/usr/share/keyrings/grafana.key", "https://packages.grafana.com/gpg.key"])),
    Exec(Command("echo", ["deb [signed-by=/usr/share/keyrings/grafana.key] https://packages.grafana.com/oss/deb stable main",
                          ">", "/etc/apt/sources.list.d/grafana.list"])),
    Exec(Command("apt", ["update"])),
    Exec(Command("apt", ["install", "-y", "grafana"]))]

  /** Grafana from its RPM repository, installed with `tool`. */
  function GrafanaRpm(tool: string): seq<Step> {
    [Exec(Command("wget", ["-q", "-O", "/etc/yum.repos.d/grafana.repo", "https://packages.grafana.com/oss/rpm/grafana.repo"])),
     Exec(Command(tool, ["install", "-y", "grafana"]))]
  }

  /** What `install_monitoring_tools` does on a host with manager `pm`: Prometheus, then Grafana. */
  function ToolsFor(pm: PackageManager): seq<Step> {
    match pm
    case Apt => PrometheusApt + GrafanaApt
    case Yum => PrometheusFromSource + GrafanaRpm("yum")
    case Dnf => PrometheusFromSource + GrafanaRpm("dnf")
  }

  /** `install_monitoring_tools`: one detection, then the manager's branch. */
  const InstallMonitoringTools: Step := OnManager(ToolsFor(Apt), ToolsFor(Yum), ToolsFor(Dnf))

  const PrometheusConfigPath := "/etc/prometheus/prometheus.yml"
  const PrometheusConfig :=
    "\nglobal:\n  scrape_interval: 15s\n\nscrape_configs:\n  - job_name: 'node'\n"
    + "    static_configs:\n      - targets: ['localhost:9100']\n"

  /** `configure_prometheus`. */
  const ConfigurePrometheus: seq<Step> := [
    Put(PrometheusConfigPath, Encode(PrometheusConfig)),
    Exec(Command("systemctl", ["restart", "prometheus"])),
    Exec(Command("systemctl", ["enable", "prometheus"]))]

  /** `setup_grafana`. */
  const SetupGrafana: seq<Step> := [
    Exec(Command("systemctl", ["start", "grafana-server"])),
    Exec(Command("systemctl", ["enable", "grafana-server"]))]

  /** `setup_node_exporter`: a second detection, the manager's install, then start and enable. */
  const SetupNodeExporter: seq<Step> := [
    OnManager([Exec(Command("apt", ["install", "-y", "prometheus-node-exporter"]))],
              NodeExporterFromSource, NodeExporterFromSource),
    Exec(Command("systemctl", ["start", "node_exporter"])),
    Exec(Command("systemctl", ["enable", "node_exporter"]))]

  /** The four parts of `setup_monitoring`, in order. */
  const MonitoringPlan: seq<Step> := [InstallMonitoringTools] + ConfigurePrometheus + SetupGrafana + SetupNodeExporter

  /** `setup_monitoring`: with monitoring off nothing happens at all, not even a snapshot; with it
      on, one snapshot wraps the four parts. */
  method SetupMonitoring(h: Host, rb: RollbackManager, c: Config) returns (r: Outcome)
    modifies h, rb
    ensures c.monitoring ==> Exit(r, h.World()) == Run(h.oracle, old(h.World()), MonitoringPlan)
    ensures c.monitoring ==> rb.snapshots == old(rb.snapshots) + [Fresh]
    ensures !c.monitoring ==> r == Pass && h.World() == old(h.World()) && rb.snapshots == old(rb.snapshots)
  {
    if c.monitoring {
      r := RunPhase(h, rb, MonitoringPlan);
    } else {
      r := Pass;
    }
  }

  /** Prometheus comes from the archive after a package-list refresh on APT hosts and from the
      release tarball on YUM and DNF hosts; Grafana is then installed on RPM hosts from its
      repository file with the host's own tool. The YUM and DNF branches differ only there. */
  lemma ToolsBranches(pm: PackageManager)
    ensures pm == Apt ==> ToolsFor(pm)[..2] == [Exec(Command("apt", ["update"])), Exec(Command("apt", ["install", "-y", "prometheus"]))]
    ensures pm != Apt ==> ToolsFor(pm)[..|PrometheusFromSource|] == PrometheusFromSource
    ensures pm != Apt ==>
              (ToolsFor(pm)[|PrometheusFromSource|..] ==
                [Exec(Command("wget", ["-q", "-O", "/etc/yum.repos.d/grafana.repo", "https://packages.grafana.com/oss/rpm/grafana.repo"])),
                 Exec(Install(pm, "grafana"))])
    ensures |ToolsFor(Yum)| == |ToolsFor(Dnf)|
            && forall i :: 0 <= i < |ToolsFor(Yum)| - 1 ==> ToolsFor(Yum)[i] == ToolsFor(Dnf)[i]
  {
    var n := |PrometheusFromSource|;
    assert ToolsFor(Yum)[..n] == PrometheusFromSource && ToolsFor(Dnf)[..n] == PrometheusFromSource;
    assert ToolsFor(Yum)[n] == ToolsFor(Dnf)[n];
  }

  /** On an obliging host the tools step passes and issues exactly the branch of the detected
      manager. */
  lemma MonitoringByManager(o: Oracle, w: World)
    requires Obliging(o) && Detect(w.files).Ok?
    ensures var e := RunStep(o, w, InstallMonitoringTools);
            e.outcome == Pass && e.world.trace == w.trace + Events(ToolsFor(Detect(w.files).value))
  {
    var pm := Detect(w.files).value;
    assert Branch(pm, ToolsFor(Apt), ToolsFor(Yum), ToolsFor(Dnf)) == ToolsFor(pm);
    assert forall i :: 0 <= i < |ToolsFor(Apt)| ==> ToolsFor(Apt)[i].Exec?;
    assert forall i :: 0 <= i < |ToolsFor(Yum)| ==> ToolsFor(Yum)[i].Exec? || ToolsFor(Yum)[i].Put?;
    assert forall i :: 0 <= i < |ToolsFor(Dnf)| ==> ToolsFor(Dnf)[i].Exec? || ToolsFor(Dnf)[i].Put?;
    ObligingOnManager(o, w, ToolsFor(Apt), ToolsFor(Yum), ToolsFor(Dnf));
  }

  /** The node exporter's install on a host with manager `pm`. */
  function NodeExporterFor(pm: PackageManager): seq<Step> {
    Branch(pm, SetupNodeExporter[0].apt, SetupNodeExporter[0].yum, SetupNodeExporter[0].dnf)
  }

  /** On an obliging host the node exporter comes from the archive on APT hosts and from the
      release tarball otherwise, and the service is started, then enabled, only after that. */
  lemma NodeExporterByManager(o: Oracle, w: World)
    requires Obliging(o) && Detect(w.files).Ok?
    ensures var pm := Detect(w.files).value;
            (pm == Apt ==> NodeExporterFor(pm) == [Exec(Command("apt", ["install", "-y", "prometheus-node-exporter"]))])
            && (pm != Apt ==> NodeExporterFor(pm) == NodeExporterFromSource)
    ensures var e := Run(o, w, SetupNodeExporter);
            e.outcome == Pass
            && e.world.trace == w.trace + Events(NodeExporterFor(Detect(w.files).value))
                 + [Ran(Command("systemctl", ["start", "node_exporter"])), Ran(Command("systemctl", ["enable", "node_exporter"]))]
  {
    var s := SetupNodeExporter[0];
    assert forall i :: 0 <= i < |s.yum| ==> s.yum[i].Exec? || s.yum[i].Put?;
    ObligingOnManager(o, w, s.apt, s.yum, s.dnf);
    var w1 := RunStep(o, w, s).world;
    var units := [Command("systemctl", ["start", "node_exporter"]), Command("systemctl", ["enable", "node_exporter"])];
    assert SetupNodeExporter[1..] == Execs(units);
    ObligingExecs(o, w1, units);
    assert Issued(units) == [Ran(units[0]), Ran(units[1])];
  }
}
