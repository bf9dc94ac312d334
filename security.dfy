/** Security hardening: Fail2Ban, AppArmor or SELinux, rootkit detection and weekly scans. */
module Security {
  import opened Wrappers
  import opened Utf8
  import opened Machine
  import opened Distro
  import opened Plans
  import opened Shell
  import opened Rollback
  import opened Config
  import opened Phase

  const Jail := "/etc/fail2ban/jail.local"
  const JailConfig :=
    "\n[sshd]\nenabled = true\nport = ssh\nfilter = sshd\nlogpath = /var/log/auth.log\nmaxretry = 3\nbantime = 3600\n"

  /** `configure_fail2ban`. */
  const Fail2banPlan: seq<Step> := [
    InstallAll(["fail2ban"]),
    Put(Jail, Encode(JailConfig)),
    Exec(Command("systemctl", ["enable", "fail2ban"])),
    Exec(Command("systemctl", ["start", "fail2ban"]))]

  const AdvancedLevel := "advanced"
  const UnsupportedAdvanced := "Unsupported Linux distribution for advanced security"
  const SelinuxConfigPath := "/etc/selinux/config"
  const SelinuxConfig := "SELINUX=enforcing\nSELINUXTYPE=targeted\n"

  /** `setup_advanced_security`. */
  function AdvancedSecurityPlan(c: Config): seq<Step> {
    if c.securityLevel != AdvancedLevel then []
    else
      match c.linuxDistro
      case "ubuntu" =>
        [Exec(Command("apt", ["install", "-y", "apparmor", "apparmor-utils"])),
         Exec(Command("aa-enforce", ["/etc/apparmor.d/*"]))]
      case "centos" | "fedora" =>
        [Exec(Command("yum", ["install", "-y", "selinux-policy", "selinux-policy-targeted"])),
         Put(SelinuxConfigPath, Encode(SelinuxConfig))]
      case _ => [Abort(UnsupportedAdvanced)]
  }

  /** Below the advanced level nothing happens on any distribution, and on an unknown
      distribution the advanced level is an error before any command. */
  lemma AdvancedGate(c: Config, o: Oracle, w: World)
    ensures c.securityLevel != AdvancedLevel ==> Run(o, w, AdvancedSecurityPlan(c)) == Exit(Pass, w)
    ensures c.securityLevel == AdvancedLevel && c.linuxDistro !in {"ubuntu", "centos", "fedora"} ==>
              Run(o, w, AdvancedSecurityPlan(c)) == Exit(Fail(UnsupportedAdvanced), w)
  {
  }

  /** At the advanced level, when nothing fails, Ubuntu installs AppArmor and enforces its
      profiles, while CentOS and Fedora both install the SELinux policy through yum and then write
      the enforcing configuration. */
  lemma AdvancedBranches(c: Config, o: Oracle, w: World)
    requires Obliging(o) && c.securityLevel == AdvancedLevel
    ensures c.linuxDistro == "ubuntu" ==>
              Run(o, w, AdvancedSecurityPlan(c)) == Exit(Pass, World(w.files, w.trace +
                [Ran(Command("apt", ["install", "-y", "apparmor", "apparmor-utils"])),
                 Ran(Command("aa-enforce", ["/etc/apparmor.d/*"]))]))
    ensures c.linuxDistro == "centos" || c.linuxDistro == "fedora" ==>
              var selinux := Encode(SelinuxConfig);
              Run(o, w, AdvancedSecurityPlan(c)) == Exit(Pass, World(w.files[SelinuxConfigPath := selinux], w.trace +
                [Ran(Command("yum", ["install", "-y", "selinux-policy", "selinux-policy-targeted"])),
                 Wrote(SelinuxConfigPath, selinux)]))
  {
    var plan := AdvancedSecurityPlan(c);
    if c.linuxDistro == "ubuntu" || c.linuxDistro == "centos" || c.linuxDistro == "fedora" {
      assert |plan| == 2;
      var e0 := RunStep(o, w, plan[0]);
      assert e0 == Exit(Pass, World(w.files, w.trace + [Ran(plan[0].cmd)])) by {
        assert o(w.trace, Ran(plan[0].cmd)) == Success;
      }
      var e1 := RunStep(o, e0.world, plan[1]);
      if c.linuxDistro == "ubuntu" {
        assert o(e0.world.trace, Ran(plan[1].cmd)) == Success;
      } else {
        assert o(e0.world.trace, Wrote(SelinuxConfigPath, Encode(SelinuxConfig))) == Success;
      }
      assert e1.outcome == Pass;
      assert plan[1..][1..] == [];
      assert Run(o, e0.world, plan[1..]) == e1;
    }
  }

  /** `setup_rootkit_detection`. */
  const RootkitPlan: seq<Step> := [
    InstallAll(["rkhunter", "chkrootkit"]),
    Exec(Command("rkhunter", ["--update"])),
    Exec(Command("rkhunter", ["--propupd"]))]

  /** When nothing fails, the rootkit tools are installed through the detected manager, then the
      database is updated, then the file properties are recorded. */
  lemma RootkitSequence(o: Oracle, w: World, pm: PackageManager)
    requires Obliging(o) && Detect(w.files) == Ok(pm)
    ensures Run(o, w, RootkitPlan) == Exit(Pass, World(w.files, w.trace + [
              Ran(Command(Tool(pm), ["install", "-y", "rkhunter", "chkrootkit"])),
              Ran(Command("rkhunter", ["--update"])),
              Ran(Command("rkhunter", ["--propupd"]))]))
  {
    var install := Command(Tool(pm), ["install", "-y", "rkhunter", "chkrootkit"]);
    InstallAllRuns(o, w, ["rkhunter", "chkrootkit"]);
    assert ["install", "-y"] + ["rkhunter", "chkrootkit"] == ["install", "-y", "rkhunter", "chkrootkit"];
    Obliges(o, w.trace, Ran(install));
    var w1 := World(w.files, w.trace + [Ran(install)]);
    assert RunStep(o, w, RootkitPlan[0]) == Exit(Pass, w1);
    assert Run(o, w, RootkitPlan) == Run(o, w1, RootkitPlan[1..]);
    var rest := [Command("rkhunter", ["--update"]), Command("rkhunter", ["--propupd"])];
    assert RootkitPlan[1..] == Execs(rest);
    ObligingExecs(o, w1, rest);
    assert w1.trace + Issued(rest) == w.trace + [Ran(install)] + [Ran(rest[0]), Ran(rest[1])];
  }

  const ScanScriptPath := "/usr/local/bin/security_scan.sh"
  const ScanScript := "#!/bin/bash\nrkhunter --check --skip-keypress\nchkrootkit\n"
  const ScanCronPath := "/etc/cron.d/security_scan"
  const ScanCron := "0 2 * * 0 root " + ScanScriptPath + " > /var/log/security_scan.log 2>&1\n"

  /** `setup_security_scans`. */
  const ScansPlan: seq<Step> := [
    Put(ScanScriptPath, Encode(ScanScript)),
    Exec(Command("chmod", ["+x", ScanScriptPath])),
    Put(ScanCronPath, Encode(ScanCron))]

  /** The cron entry runs the scan script as root on Sundays at 02:00, and logs its output. */
  lemma ScanCronLine()
    ensures ScanCron[..15] == "0 2 * * 0 root "
    ensures ScanCron[15..15 + |ScanScriptPath|] == ScanScriptPath
    ensures ScanCron[15 + |ScanScriptPath|..] == " > /var/log/security_scan.log 2>&1\n"
  {
  }

  /** Once the scans are set up, both the script and the cron entry are in place. */
  lemma ScansInstalled(o: Oracle, w: World)
    ensures var e := Run(o, w, ScansPlan);
            e.outcome.Pass? ==>
              ScanScriptPath in e.world.files && e.world.files[ScanScriptPath] == Encode(ScanScript)
              && ScanCronPath in e.world.files && e.world.files[ScanCronPath] == Encode(ScanCron)
  {
    assert ScansPlan[3..] == [];
    assert ScansPlan[2..] == [ScansPlan[2]];
    assert Targets(ScansPlan[2..]) == {ScanCronPath};
    assert ScansPlan[1..] == [ScansPlan[1]] + ScansPlan[2..];
    assert Targets(ScansPlan[1..]) == {ScanCronPath};
    PutLands(o, w, ScansPlan, 0);
    PutLands(o, w, ScansPlan, 2);
  }

  /** `implement_security_measures`: the four parts in order. */
  function SecurityPlan(c: Config): seq<Step> {
    Fail2banPlan + AdvancedSecurityPlan(c) + RootkitPlan + ScansPlan
  }

  method ImplementSecurityMeasures(h: Host, rb: RollbackManager, c: Config) returns (r: Outcome)
    modifies h, rb
    ensures Exit(r, h.World()) == Run(h.oracle, old(h.World()), SecurityPlan(c))
    ensures rb.snapshots == old(rb.snapshots) + [Fresh]
  {
    r := RunPhase(h, rb, SecurityPlan(c));
  }
}
