/** Initial setup: system update, essential packages, firewall and SSH hardening. */
module Setup {
  import opened Wrappers
  import opened Utf8
  import opened Text
  import opened Machine
  import opened Distro
  import opened Plans
  import opened Shell
  import opened Rollback
  import opened Config

  const UnsupportedDistro := "Unsupported Linux distribution"

  /** The package manager each supported distribution is driven by. */
  function ManagerFor(distro: string): Option<PackageManager> {
    match distro
    case "ubuntu" => Some(Apt)
    case "centos" => Some(Yum)
    case "fedora" => Some(Dnf)
    case _ => None
  }

  /** `update_system` of the setup module. */
  function UpdateSystemPlan(c: Config): seq<Step> {
    match c.linuxDistro
    case "ubuntu" => [Exec(Command("apt", ["update"])), Exec(Command("apt", ["upgrade", "-y"]))]
    case "centos" => [Exec(Command("yum", ["update", "-y"]))]
    case "fedora" => [Exec(Command("dnf", ["upgrade", "-y"]))]
    case _ => [Abort(UnsupportedDistro)]
  }

  /** The setup module's update issues exactly the commands the distro module's update issues for
      the distribution's manager; any other distribution is refused before any command. */
  lemma UpdateSystemAgrees(c: Config)
    ensures ManagerFor(c.linuxDistro).Some? ==>
              UpdateSystemPlan(c) == Execs(UpdateCommands(ManagerFor(c.linuxDistro).value))
    ensures ManagerFor(c.linuxDistro).None? ==> UpdateSystemPlan(c) == [Abort(UnsupportedDistro)]
  {
  }

  const EssentialPackages: seq<string> :=
    ["curl", "wget", "vim", "ufw", "fail2ban", "apt-listchanges", "needrestart", "debsums",
     "apt-show-versions"]

  /** The program a supported distribution installs with. */
  function InstallTool(distro: string): Option<string> {
    match distro
    case "ubuntu" => Some("apt")
    case "centos" => Some("yum")
    case "fedora" => Some("dnf")
    case _ => None
  }

  /** `install_essential_packages`. */
  function EssentialPackagesPlan(c: Config): seq<Step> {
    match InstallTool(c.linuxDistro)
    case None => [Abort(UnsupportedDistro)]
    case Some(tool) =>
      seq(|EssentialPackages|, i requires 0 <= i < |EssentialPackages| =>
        Exec(Command(tool, ["install", "-y", EssentialPackages[i]])))
  }

  /** Each essential package is installed once, in list order, through the distribution's own
      manager; the same nine names are used on every distribution. */
  lemma EssentialPackagesViaManager(c: Config)
    ensures ManagerFor(c.linuxDistro).Some? ==>
              var pm := ManagerFor(c.linuxDistro).value;
              EssentialPackagesPlan(c) ==
                seq(|EssentialPackages|, i requires 0 <= i < |EssentialPackages| =>
                  Exec(Install(pm, EssentialPackages[i])))
    ensures ManagerFor(c.linuxDistro).None? ==> EssentialPackagesPlan(c) == [Abort(UnsupportedDistro)]
  {
  }

  /** `install_essential_packages`: one install per package, stopping at the first failure. */
  method InstallEssentialPackages(h: Host, c: Config) returns (r: Outcome)
    modifies h
    ensures Exit(r, h.World()) == Run(h.oracle, old(h.World()), EssentialPackagesPlan(c))
  {
    var tool := InstallTool(c.linuxDistro);
    if tool.None? {
      return Fail(UnsupportedDistro);
    }
    ghost var plan := EssentialPackagesPlan(c);
    var i := 0;
    r := Pass;
    while i < |EssentialPackages|
      invariant 0 <= i <= |EssentialPackages| && r.Pass?
      invariant Run(h.oracle, old(h.World()), plan) == Run(h.oracle, h.World(), plan[i..])
    {
      assert plan[i..][0] == Exec(Command(tool.value, ["install", "-y", EssentialPackages[i]]));
      assert plan[i..][1..] == plan[i + 1..];
      r := h.RunCommand(Command(tool.value, ["install", "-y", EssentialPackages[i]]));
      if r.Fail? {
        return;
      }
      i := i + 1;
    }
    assert plan[i..] == [];
  }

  /** One `ufw allow <rule>` per custom rule, in order. */
  function UfwRules(rules: seq<string>): seq<Step> {
    seq(|rules|, i requires 0 <= i < |rules| => Exec(Command("ufw", ["allow", rules[i]])))
  }

  /** One firewalld port command per custom rule, in order, with the argument vector as the
      source builds it. */
  function FirewalldRules(rules: seq<string>): seq<Step> {
    seq(|rules|, i requires 0 <= i < |rules| =>
      Exec(Command("firewall-cmd", ["--zone=public", "--add-port=", rules[i], "--permanent"])))
  }

  const UfwDefaults: seq<Step> := [
    Exec(Command("ufw", ["default", "deny", "incoming"])),
    Exec(Command("ufw", ["default", "allow", "outgoing"])),
    Exec(Command("ufw", ["allow", "OpenSSH"]))]

  const FirewalldDefaults: seq<Step> := [
    Exec(Command("systemctl", ["start", "firewalld"])),
    Exec(Command("systemctl", ["enable", "firewalld"])),
    Exec(Command("firewall-cmd", ["--zone=public", "--add-service=ssh", "--permanent"]))]

  /** `setup_firewall`. */
  function FirewallPlan(c: Config): seq<Step> {
    match c.linuxDistro
    case "ubuntu" =>
      UfwDefaults + UfwRules(c.customFirewallRules) + [Exec(Command("ufw", ["enable"]))]
    case "centos" | "fedora" =>
      FirewalldDefaults + FirewalldRules(c.customFirewallRules)
      + [Exec(Command("firewall-cmd", ["--reload"]))]
    case _ => [Abort(UnsupportedDistro)]
  }

  /** The firewall is switched on (or reloaded) only after the defaults and every custom rule, and
      the rules are opened once each, in configuration order. */
  lemma FirewallOrder(c: Config)
    requires ManagerFor(c.linuxDistro).Some?
    ensures var plan := FirewallPlan(c);
            var n := |c.customFirewallRules|;
            |plan| == n + 4
            && (forall k :: 0 <= k < n ==> plan[3 + k].cmd.args[|plan[3 + k].cmd.args| - 1 - (if c.linuxDistro == "ubuntu" then 0 else 1)] == c.customFirewallRules[k])
            && plan[n + 3] == Exec(if c.linuxDistro == "ubuntu" then Command("ufw", ["enable"]) else Command("firewall-cmd", ["--reload"]))
  {
  }

  /** `setup_firewall`: the defaults, one command per custom rule, then enable or reload. */
  method SetupFirewall(h: Host, c: Config) returns (r: Outcome)
    modifies h
    ensures Exit(r, h.World()) == Run(h.oracle, old(h.World()), FirewallPlan(c))
  {
    var ufw := c.linuxDistro == "ubuntu";
    if !ufw && c.linuxDistro != "centos" && c.linuxDistro != "fedora" {
      return Fail(UnsupportedDistro);
    }
    var defaults := if ufw then UfwDefaults else FirewalldDefaults;
    var rules := if ufw then UfwRules(c.customFirewallRules) else FirewalldRules(c.customFirewallRules);
    var last := if ufw then Command("ufw", ["enable"]) else Command("firewall-cmd", ["--reload"]);
    ghost var w0 := h.World();
    assert FirewallPlan(c) == defaults + rules + [Exec(last)];
    RunAppend(h.oracle, w0, defaults, rules + [Exec(last)]);
    assert defaults + rules + [Exec(last)] == defaults + (rules + [Exec(last)]);
    r := h.Perform(defaults);
    if r.Fail? {
      return;
    }
    var i := 0;
    while i < |c.customFirewallRules|
      invariant 0 <= i <= |c.customFirewallRules| && r.Pass?
      invariant Run(h.oracle, w0, FirewallPlan(c)) == Run(h.oracle, h.World(), rules[i..] + [Exec(last)])
    {
      var rule := c.customFirewallRules[i];
      var cmd := if ufw then Command("ufw", ["allow", rule])
                 else Command("firewall-cmd", ["--zone=public", "--add-port=", rule, "--permanent"]);
      assert (rules[i..] + [Exec(last)])[0] == Exec(cmd);
      assert (rules[i..] + [Exec(last)])[1..] == rules[i + 1..] + [Exec(last)];
      r := h.RunCommand(cmd);
      if r.Fail? {
        return;
      }
      i := i + 1;
    }
    assert rules[i..] + [Exec(last)] == [Exec(last)];
    RunSingle(h.oracle, h.World(), Exec(last));
    r := h.RunCommand(last);
  }

  const SshdConfig := "/etc/ssh/sshd_config"

  /** The three rewrites of `setup_ssh`, applied in this order. */
  const SshdRewrites: seq<Replacement> := [
    Replacement("PermitRootLogin yes", "PermitRootLogin no"),
    Replacement("#PasswordAuthentication yes", "PasswordAuthentication no"),
    Replacement("#Port 22", "Port 2222")]

  /** `setup_ssh`: rewrite sshd_config, then restart the daemon. */
  const SshPlan: seq<Step> := [Edit(SshdConfig, SshdRewrites), Exec(Command("systemctl", ["restart", "sshd"]))]

  /** `setup_ssh` reads sshd_config as text, applies the three rewrites in order and writes the
      result back; a file that is missing or not UTF-8 stops it before anything is written. */
  lemma SshRewrite(o: Oracle, w: World)
    ensures var e, read := RunStep(o, w, SshPlan[0]), ReadToString(w.files, SshdConfig);
            (read.Err? ==> e == Exit(Fail(read.message), w))
            && (read.Ok? ==>
                  var data := Encode(ReplaceChain(read.value, SshdRewrites));
                  e.world.trace == w.trace + [Wrote(SshdConfig, data)]
                  && (e.outcome.Pass? <==> o(w.trace, Wrote(SshdConfig, data)) == Success)
                  && e.world.files == if e.outcome.Pass? then w.files[SshdConfig := data] else w.files)
  {
  }

  /** An sshd_config that contains none of the three patterns is written back byte for byte, and
      sshd is restarted only once that write has succeeded. */
  lemma SshUntouched(o: Oracle, w: World)
    requires SshdConfig in w.files && Decode(w.files[SshdConfig]).Some?
    requires forall i :: 0 <= i < |SshdRewrites| ==> !Contains(Decode(w.files[SshdConfig]).value, SshdRewrites[i].from)
    ensures var e := RunStep(o, w, SshPlan[0]);
            e.world.trace == w.trace + [Wrote(SshdConfig, w.files[SshdConfig])]
            && (e.outcome.Pass? ==> e.world.files == w.files)
    ensures var e := RunStep(o, w, SshPlan[0]);
            Run(o, w, SshPlan) == if e.outcome.Pass? then RunStep(o, e.world, SshPlan[1]) else e
  {
    var text := Decode(w.files[SshdConfig]).value;
    ReplaceChainAbsent(text, SshdRewrites);
    EncodeDecode(w.files[SshdConfig]);
    var e := RunStep(o, w, SshPlan[0]);
    assert e.world.files == w.files by {
      if e.outcome.Pass? {
        assert w.files[SshdConfig := w.files[SshdConfig]] == w.files;
      }
    }
    if e.outcome.Pass? {
      RunSingle(o, e.world, SshPlan[1]);
      assert SshPlan[1..] == [SshPlan[1]];
    }
  }

  /** Initial setup runs update, packages, firewall and SSH in that order. */
  function InitialSetupPlan(c: Config): seq<Step> {
    UpdateSystemPlan(c) + EssentialPackagesPlan(c) + FirewallPlan(c) + SshPlan
  }

  /** `initial_setup`. */
  method InitialSetup(h: Host, rb: RollbackManager, c: Config) returns (r: Outcome)
    modifies h, rb
    ensures Exit(r, h.World()) == Run(h.oracle, old(h.World()), InitialSetupPlan(c))
    ensures rb.snapshots == old(rb.snapshots) + [Fresh]
  {
    var snapshot := rb.CreateSnapshot();
    ghost var w0 := h.World();
    var a, b, f := UpdateSystemPlan(c), EssentialPackagesPlan(c), FirewallPlan(c);
    assert InitialSetupPlan(c) == a + (b + (f + SshPlan));
    RunAppend(h.oracle, w0, a, b + (f + SshPlan));
    r := h.Perform(a);
    if r.Fail? {
      return;
    }
    RunAppend(h.oracle, h.World(), b, f + SshPlan);
    r := InstallEssentialPackages(h, c);
    if r.Fail? {
      return;
    }
    RunAppend(h.oracle, h.World(), f, SshPlan);
    r := SetupFirewall(h, c);
    if r.Fail? {
      return;
    }
    r := h.Perform(SshPlan);
    if r.Fail? {
      return;
    }
    r := rb.CommitSnapshot(snapshot);
  }
}
