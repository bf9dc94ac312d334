/** Automatic updates: unattended-upgrades on Ubuntu, yum-cron on CentOS, dnf-automatic on
    Fedora. */
module Updates {
  import opened Wrappers
  import opened Utf8
  import opened Text
  import opened Machine
  import opened Plans
  import opened Shell
  import opened Rollback
  import opened Config
  import opened Phase
  import Setup

  const UnattendedConf := "/etc/apt/apt.conf.d/50unattended-upgrades"
  const UnattendedSettings :=
    "\nUnattended-Upgrade::Allowed-Origins {\n"
    + "    \"${distro_id}:${distro_codename}\";\n"
    + "    \"${distro_id}:${distro_codename}-security\";\n"
    + "};\n"
    + "Unattended-Upgrade::Package-Blacklist {\n"
    + "};\n"
    + "Unattended-Upgrade::AutoFixInterruptedDpkg \"true\";\n"
    + "Unattended-Upgrade::MinimalSteps \"true\";\n"
    + "Unattended-Upgrade::InstallOnShutdown \"false\";\n"
    + "Unattended-Upgrade::Mail \"root\";\n"
    + "Unattended-Upgrade::MailReport \"on-change\";\n"
    + "Unattended-Upgrade::Remove-Unused-Kernel-Packages \"true\";\n"
    + "Unattended-Upgrade::Remove-Unused-Dependencies \"true\";\n"
    + "Unattended-Upgrade::Automatic-Reboot \"false\";\n"

  const AutoUpgradesConf := "/etc/apt/apt.conf.d/20auto-upgrades"

  /** Both periodic keys of APT set to an interval of `days` days. */
  function Periodic(days: string): string {
    "APT::Periodic::Update-Package-Lists \"" + days + "\";\nAPT::Periodic::Unattended-Upgrade \"" + days + "\";\n"
  }

  /** The schedule table of `setup_ubuntu_updates`, arm by arm. */
  function AutoUpgrades(schedule: string): string {
    match schedule
    case "daily" => Periodic("1")
    case "weekly" => Periodic("7")
    case _ => Periodic("1")
  }

  /** A weekly schedule sets both keys to 7 days; every other schedule, "monthly" included, is
      configured exactly as "daily" is, with 1 day; no schedule is refused. */
  lemma AutoUpgradesSchedule(schedule: string)
    ensures schedule == "weekly" ==> AutoUpgrades(schedule) == Periodic("7")
    ensures AutoUpgrades(schedule) == AutoUpgrades("daily") <==> schedule != "weekly"
  {
    var prefix := "APT::Periodic::Update-Package-Lists \"";
    assert Periodic("7")[|prefix|] == '7';
    assert Periodic("1")[|prefix|] == '1';
  }

  /** `setup_ubuntu_updates`. */
  function UbuntuPlan(c: Config): seq<Step> {
    [Exec(Command("apt", ["install", "-y", "unattended-upgrades", "apt-listchanges"])),
     Put(UnattendedConf, Encode(UnattendedSettings)),
     Put(AutoUpgradesConf, Encode(AutoUpgrades(c.updateSchedule))),
     Exec(Command("systemctl", ["enable", "unattended-upgrades"])),
     Exec(Command("systemctl", ["start", "unattended-upgrades"]))]
  }

  /** The rewrite both RPM distributions apply to their updater's configuration. */
  const ApplyUpdates: seq<Replacement> := [Replacement("apply_updates = no", "apply_updates = yes")]

  const YumCronConf := "/etc/yum/yum-cron.conf"
  const DnfAutomaticConf := "/etc/dnf/automatic.conf"

  /** `setup_centos_updates` and `setup_fedora_updates`, which differ only in the tool, the
      package, the configuration file and the unit. */
  function RpmPlan(tool: string, package: string, conf: string, unit: string): seq<Step> {
    [Exec(Command(tool, ["install", "-y", package])),
     Edit(conf, ApplyUpdates),
     Exec(Command("systemctl", ["enable", unit])),
     Exec(Command("systemctl", ["start", unit]))]
  }

  function CentosPlan(c: Config): seq<Step> {
    RpmPlan("yum", "yum-cron", YumCronConf, "yum-cron")
  }

  function FedoraPlan(c: Config): seq<Step> {
    RpmPlan("dnf", "dnf-automatic", DnfAutomaticConf, "dnf-automatic.timer")
  }

  /** `setup_automatic_updates` without its snapshot. */
  function UpdatesPlan(c: Config): seq<Step> {
    match c.linuxDistro
    case "ubuntu" => UbuntuPlan(c)
    case "centos" => CentosPlan(c)
    case "fedora" => FedoraPlan(c)
    case _ => [Abort(Setup.UnsupportedDistro)]
  }

  /** `setup_automatic_updates`: the snapshot is taken before the distribution is looked at, so an
      unsupported distribution fails with a snapshot created and never committed. */
  method SetupAutomaticUpdates(h: Host, rb: RollbackManager, c: Config) returns (r: Outcome)
    modifies h, rb
    ensures Exit(r, h.World()) == Run(h.oracle, old(h.World()), UpdatesPlan(c))
    ensures rb.snapshots == old(rb.snapshots) + [Fresh]
  {
    r := RunPhase(h, rb, UpdatesPlan(c));
  }

  /** The updater's package tool per supported distribution. */
  function UpdaterTool(distro: string): string {
    match distro
    case "ubuntu" => "apt"
    case "centos" => "yum"
    case _ => "dnf"
  }

  /** Only the three supported distributions are configured, each starting with an `install -y`
      through its own tool (apt, yum or dnf); any other fails before any command or write. */
  lemma UpdatesDispatch(o: Oracle, w: World, c: Config)
    ensures c.linuxDistro !in {"ubuntu", "centos", "fedora"} ==>
              Run(o, w, UpdatesPlan(c)) == Exit(Fail(Setup.UnsupportedDistro), w)
    ensures c.linuxDistro in {"ubuntu", "centos", "fedora"} ==>
              |UpdatesPlan(c)| >= 4 && UpdatesPlan(c)[0].Exec?
              && UpdatesPlan(c)[0].cmd.tool == UpdaterTool(c.linuxDistro)
              && |UpdatesPlan(c)[0].cmd.args| >= 3 && UpdatesPlan(c)[0].cmd.args[..2] == ["install", "-y"]
  {
  }

  /** When nothing fails, Ubuntu installs the packages, writes the settings, writes the schedule
      (7 days for weekly, 1 day otherwise), then enables and starts the service, in that order. */
  lemma UbuntuOrder(o: Oracle, w: World, c: Config)
    requires Obliging(o)
    ensures var days := if c.updateSchedule == "weekly" then "7" else "1";
            Run(o, w, UbuntuPlan(c)) .outcome == Pass
            && Run(o, w, UbuntuPlan(c)).world.trace == w.trace + [
                 Ran(Command("apt", ["install", "-y", "unattended-upgrades", "apt-listchanges"])),
                 Wrote(UnattendedConf, Encode(UnattendedSettings)),
                 Wrote(AutoUpgradesConf, Encode(Periodic(days))),
                 Ran(Command("systemctl", ["enable", "unattended-upgrades"])),
                 Ran(Command("systemctl", ["start", "unattended-upgrades"]))]
  {
    AutoUpgradesSchedule(c.updateSchedule);
    ObligingSimple(o, w, UbuntuPlan(c));
  }

  const UpdatesOff := "apply_updates = no"
  const UpdatesOn := "apply_updates = yes"

  /** `pat` occurs in `x` at position `k`. */
  predicate OccursAt(x: string, k: nat, pat: string) {
    k + |pat| <= |x| && x[k..k + |pat|] == pat
  }

  /** An occurrence of `pat` in `a + y` either starts inside `a` or lies within `y`. */
  lemma {:induction false} ContainsSplit(a: string, y: string, pat: string)
    requires forall k :: 0 <= k < |a| ==> !OccursAt(a + y, k, pat)
    requires !Contains(y, pat)
    ensures !Contains(a + y, pat)
    decreases |a|
  {
    if a != [] {
      assert !OccursAt(a + y, 0, pat);
      forall k | 0 <= k < |a| - 1
        ensures !OccursAt(a[1..] + y, k, pat)
      {
        assert !OccursAt(a + y, k + 1, pat);
        assert (a + y)[1..] == a[1..] + y;
      }
      ContainsSplit(a[1..], y, pat);
      assert (a + y)[1..] == a[1..] + y;
    } else {
      assert a + y == y;
    }
  }

  /** No tail of "apply_updates = no" starts "apply_updates = yes". */
  lemma OnNotAfterOff(j: nat)
    requires j < 18
    ensures UpdatesOn[..18 - j] != UpdatesOff[j..]
  {
    if j == 0 {
      assert UpdatesOn[16] != UpdatesOff[16];
    } else if j == 9 {
      assert UpdatesOn[1] != UpdatesOff[10];
    } else {
      assert UpdatesOn[0] != UpdatesOff[j];
    }
  }

  /** "apply_updates = no" starts nowhere inside "apply_updates = yes", whatever follows it. */
  lemma OffNotInOn(k: nat, y: string)
    requires k < 19
    ensures !OccursAt(UpdatesOn + y, k, UpdatesOff)
  {
    var x := UpdatesOn + y;
    if k + 18 <= |x| {
      var d := if k == 0 then 16 else if k == 9 then 1 else 0;
      assert UpdatesOn[k + d] != UpdatesOff[d];
      assert x[k..k + 18][d] == UpdatesOn[k + d];
    }
  }

  /** Where the rewrite's output starts with a tail of "apply_updates = no", so did its input,
      and never with the whole of it. */
  lemma {:induction false} RewriteKeepsTail(t: string, j: nat)
    requires j < 18
    requires var x := ReplaceAll(t, UpdatesOff, UpdatesOn); |x| >= 18 - j && x[..18 - j] == UpdatesOff[j..]
    ensures j > 0 && |t| >= 18 - j && t[..18 - j] == UpdatesOff[j..]
    decreases |t|
  {
    var x := ReplaceAll(t, UpdatesOff, UpdatesOn);
    if |t| < 18 {
      assert x == t;
    } else if t[..18] == UpdatesOff {
      OnNotAfterOff(j);
    } else {
      var x1 := ReplaceAll(t[1..], UpdatesOff, UpdatesOn);
      assert x == [t[0]] + x1;
      assert t[0] == UpdatesOff[j];
      if j < 17 {
        assert x[..18 - j][1..] == x1[..17 - j];
        assert UpdatesOff[j..][1..] == UpdatesOff[j + 1..];
        RewriteKeepsTail(t[1..], j + 1);
        assert t[..18 - j] == [t[0]] + t[1..][..17 - j];
      }
    }
  }

  /** After the rewrite no "apply_updates = no" is left: the replacement cannot create one. */
  lemma {:induction false} RewriteLeavesNoOff(t: string)
    ensures !Contains(ReplaceAll(t, UpdatesOff, UpdatesOn), UpdatesOff)
    decreases |t|
  {
    if |t| >= 18 {
      if t[..18] == UpdatesOff {
        var y := ReplaceAll(t[18..], UpdatesOff, UpdatesOn);
        RewriteLeavesNoOff(t[18..]);
        forall k | 0 <= k < |UpdatesOn|
          ensures !OccursAt(UpdatesOn + y, k, UpdatesOff)
        {
          OffNotInOn(k, y);
        }
        ContainsSplit(UpdatesOn, y, UpdatesOff);
      } else {
        var y := ReplaceAll(t[1..], UpdatesOff, UpdatesOn);
        RewriteLeavesNoOff(t[1..]);
        if OccursAt([t[0]] + y, 0, UpdatesOff) {
          assert y[..17] == UpdatesOff[1..];
          RewriteKeepsTail(t[1..], 1);
        }
        ContainsSplit([t[0]], y, UpdatesOff);
      }
    }
  }

  /** The rewrite turns every "apply_updates = no" into "apply_updates = yes", leaving none
      behind, and leaves text without that setting exactly as it was. */
  lemma ApplyUpdatesRewrite(text: string)
    ensures ReplaceChain(text, ApplyUpdates) == ReplaceAll(text, "apply_updates = no", "apply_updates = yes")
    ensures !Contains(text, "apply_updates = no") ==> ReplaceChain(text, ApplyUpdates) == text
    ensures Contains(text, "apply_updates = no") ==> Contains(ReplaceChain(text, ApplyUpdates), "apply_updates = yes")
    ensures !Contains(ReplaceChain(text, ApplyUpdates), "apply_updates = no")
  {
    assert ApplyUpdates[1..] == [];
    RewriteLeavesNoOff(text);
    if Contains(text, "apply_updates = no") {
      ReplaceAllPresent(text, "apply_updates = no", "apply_updates = yes");
    } else {
      ReplaceAllAbsent(text, "apply_updates = no", "apply_updates = yes");
    }
  }

  /** On CentOS and Fedora, a configuration file that cannot be read as text ends the setup right
      after the install: nothing is written and the unit is neither enabled nor started. A readable
      one is written back rewritten, and only then is the unit enabled, then started. */
  lemma RpmSequence(o: Oracle, w: World, tool: string, package: string, conf: string, unit: string)
    requires o(w.trace, Ran(Command(tool, ["install", "-y", package]))) == Success
    ensures var install := Command(tool, ["install", "-y", package]);
            var w1 := World(w.files, w.trace + [Ran(install)]);
            var e := Run(o, w, RpmPlan(tool, package, conf, unit));
            (ReadToString(w.files, conf).Err? ==>
               e == Exit(Fail(ReadToString(w.files, conf).message), w1))
            && (ReadToString(w.files, conf).Ok? && Obliging(o) ==>
               var text := ReadToString(w.files, conf).value;
               var data := Encode(ReplaceAll(text, "apply_updates = no", "apply_updates = yes"));
               e == Exit(Pass, World(w.files[conf := data], w1.trace + [
                      Wrote(conf, data),
                      Ran(Command("systemctl", ["enable", unit])),
                      Ran(Command("systemctl", ["start", unit]))])))
  {
    var plan := RpmPlan(tool, package, conf, unit);
    var install := Command(tool, ["install", "-y", package]);
    var w1 := World(w.files, w.trace + [Ran(install)]);
    assert RunStep(o, w, plan[0]) == Exit(Pass, w1);
    assert Run(o, w, plan) == Run(o, w1, plan[1..]);
    var edit := RunStep(o, w1, plan[1]);
    if ReadToString(w.files, conf).Ok? && Obliging(o) {
      var text := ReadToString(w.files, conf).value;
      ApplyUpdatesRewrite(text);
      var data := Encode(ReplaceAll(text, "apply_updates = no", "apply_updates = yes"));
      Obliges(o, w1.trace, Wrote(conf, data));
      var w2 := World(w.files[conf := data], w1.trace + [Wrote(conf, data)]);
      assert edit == Exit(Pass, w2);
      var units := [Command("systemctl", ["enable", unit]), Command("systemctl", ["start", unit])];
      assert plan[1..][1..] == Execs(units);
      ObligingExecs(o, w2, units);
      assert w2.trace + Issued(units) == w1.trace + [Wrote(conf, data), Ran(units[0]), Ran(units[1])];
    }
  }
}
