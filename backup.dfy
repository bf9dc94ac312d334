/** Backups with restic: the tool, a cron entry, and a backup script for the server's role. */
module Backup {
  import opened Wrappers
  import opened Utf8
  import opened Machine
  import opened Plans
  import opened Shell
  import opened Rollback
  import opened Config

  /** `install_backup_tools`. */
  const InstallBackupTools: Step := InstallAll(["restic"])

  const CronPath := "/etc/cron.d/restic-backup"
  const InvalidFrequency := "Invalid backup frequency"

  /** A crontab(5) line running the backup as root on `schedule`. */
  function CronEntry(schedule: string): string {
    schedule + " root /usr/bin/restic backup /path/to/backup >> /var/log/restic.log 2>&1\n"
  }

  /** The frequency table of `configure_backup_schedule`. */
  function CronLine(frequency: string): Result<string> {
    match frequency
    case "hourly" => Ok(CronEntry("0 * * * *"))
    case "daily" => Ok(CronEntry("0 2 * * *"))
    case "weekly" => Ok(CronEntry("0 2 * * 0"))
    case _ => Err(InvalidFrequency)
  }

  /** The five-field schedule each accepted frequency selects: on the hour, daily at 02:00, or
      Sundays at 02:00. */
  function Schedule(frequency: string): Option<string> {
    if frequency == "hourly" then Some("0 * * * *")
    else if frequency == "daily" then Some("0 2 * * *")
    else if frequency == "weekly" then Some("0 2 * * 0")
    else None
  }

  /** Exactly the three frequencies are accepted; their lines differ only in the schedule, and the
      user and command that follow it are the same for all three. */
  lemma CronTable(frequency: string)
    ensures CronLine(frequency).Ok? <==> Schedule(frequency).Some?
    ensures CronLine(frequency).Err? ==> CronLine(frequency).message == InvalidFrequency
    ensures CronLine(frequency).Ok? ==>
              var schedule := Schedule(frequency).value;
              |schedule| == 9 && CronLine(frequency).value[..9] == schedule
              && CronLine(frequency).value[9..] == CronLine("daily").value[9..]
  {
  }

  /** The frequency of the default configuration is one the cron table accepts. */
  lemma DefaultFrequencyAccepted()
    ensures CronLine(Default().backupFrequency) == Ok(CronEntry("0 2 * * *"))
  {
  }

  /** `configure_backup_schedule`: an unknown frequency is refused before anything is written. */
  function SchedulePlan(c: Config): seq<Step> {
    match CronLine(c.backupFrequency)
    case Err(m) => [Abort(m)]
    case Ok(line) => [Put(CronPath, Encode(line))]
  }

  /** An unknown frequency fails with "Invalid backup frequency" and leaves the host untouched;
      an accepted one installs its cron line when the write succeeds. */
  lemma ScheduleEffect(o: Oracle, w: World, c: Config)
    ensures Schedule(c.backupFrequency).None? ==>
              Run(o, w, SchedulePlan(c)) == Exit(Fail(InvalidFrequency), w)
    ensures var e := Run(o, w, SchedulePlan(c));
            e.outcome.Pass? ==>
              Schedule(c.backupFrequency).Some? && CronPath in e.world.files
              && e.world.files[CronPath] == Encode(CronEntry(Schedule(c.backupFrequency).value))
  {
    CronTable(c.backupFrequency);
    if CronLine(c.backupFrequency).Ok? {
      PutLands(o, w, SchedulePlan(c), 0);
    }
  }

  /** The directories backed up for each server role; any other role backs up nothing, without
      error. */
  function BackupDirs(role: string): seq<string> {
    match role
    case "web" => ["/var/www", "/etc/nginx", "/etc/apache2"]
    case "database" => ["/var/lib/mysql", "/var/lib/postgresql"]
    case "application" => ["/opt/myapp", "/etc/myapp"]
    case _ => []
  }

  /** " d1 d2 ... dn": each directory preceded by one space, in order. */
  function Joined(dirs: seq<string>): string {
    if dirs == [] then [] else " " + dirs[0] + Joined(dirs[1..])
  }

  const ScriptHead := "#!/bin/bash\n\n" + "export RESTIC_PASSWORD='your_restic_password'\n\n" + "restic backup"
  const ScriptTail := " --tag serverforge\n"

  /** The backup script for `dirs`. */
  function ScriptText(dirs: seq<string>): string {
    ScriptHead + Joined(dirs) + ScriptTail
  }

  /** The loop of `setup_backup_locations` that builds the script with `push_str`. */
  method BuildScript(dirs: seq<string>) returns (script: string)
    ensures script == ScriptText(dirs)
  {
    script := "#!/bin/bash\n\n";
    script := script + "export RESTIC_PASSWORD='your_restic_password'\n\n";
    script := script + "restic backup";
    assert Joined(dirs[..0]) == [];
    var i := 0;
    while i < |dirs|
      invariant 0 <= i <= |dirs|
      invariant script == ScriptHead + Joined(dirs[..i])
    {
      JoinedSnoc(dirs[..i], dirs[i]);
      assert dirs[..i + 1] == dirs[..i] + [dirs[i]];
      script := script + (" " + dirs[i]);
      i := i + 1;
    }
    assert dirs[..i] == dirs;
    script := script + " --tag serverforge\n";
  }

  lemma {:induction false} JoinedSnoc(dirs: seq<string>, d: string)
    ensures Joined(dirs + [d]) == Joined(dirs) + " " + d
    decreases |dirs|
  {
    if dirs == [] {
      assert Joined([d]) == " " + d + Joined([]);
    } else {
      assert (dirs + [d])[1..] == dirs[1..] + [d];
      JoinedSnoc(dirs[1..], d);
    }
  }

  /** A word: non-empty and without a space. */
  predicate IsWord(s: string) {
    s != [] && forall i :: 0 <= i < |s| ==> s[i] != ' '
  }

  /** The length of the word at the front of `s`. */
  function WordLength(s: string): (n: nat)
    ensures n <= |s|
  {
    if s == [] || s[0] == ' ' then 0 else 1 + WordLength(s[1..])
  }

  /** The words of text made of " word" units, as the shell splits restic's arguments. */
  function Words(s: string): seq<string>
    decreases |s|
  {
    if s == [] then []
    else
      var n := WordLength(s[1..]);
      [s[1..][..n]] + Words(s[1..][n..])
  }

  lemma {:induction false} WordLengthPrefix(d: string, rest: string)
    requires forall i :: 0 <= i < |d| ==> d[i] != ' '
    requires rest == [] || rest[0] == ' '
    ensures WordLength(d + rest) == |d|
    decreases |d|
  {
    if d != [] {
      assert (d + rest)[1..] == d[1..] + rest;
      WordLengthPrefix(d[1..], rest);
    } else {
      assert d + rest == rest;
    }
  }

  /** Round trip: the words following `restic backup` are the directories, one argument each and
      in order, provided no directory is empty or contains a space. */
  lemma {:induction false} WordsJoined(dirs: seq<string>)
    requires forall i :: 0 <= i < |dirs| ==> IsWord(dirs[i])
    ensures Words(Joined(dirs)) == dirs
    decreases |dirs|
  {
    if dirs != [] {
      var s := Joined(dirs);
      var rest := Joined(dirs[1..]);
      assert s == " " + (dirs[0] + rest);
      assert s[1..] == dirs[0] + rest;
      WordLengthPrefix(dirs[0], rest);
      assert s[1..][..|dirs[0]|] == dirs[0];
      assert s[1..][|dirs[0]|..] == rest;
      WordsJoined(dirs[1..]);
    }
  }

  /** Every role's directories are words, so the script backs up exactly those directories. */
  lemma RoleScript(role: string)
    ensures Words(Joined(BackupDirs(role))) == BackupDirs(role)
  {
    var dirs := BackupDirs(role);
    forall i | 0 <= i < |dirs| ensures IsWord(dirs[i]) {
    }
    WordsJoined(dirs);
  }

  const Repository := "/path/to/backup/repository"
  const ScriptPath := "/usr/local/bin/run-backup.sh"

  /** `setup_backup_locations` as a plan. */
  function LocationsPlan(c: Config): seq<Step> {
    [Exec(Command("restic", ["init", "--repo", Repository])),
     Put(ScriptPath, Encode(ScriptText(BackupDirs(c.serverRole)))),
     Exec(Command("chmod", ["+x", ScriptPath]))]
  }

  /** `setup_backup_locations`: initialise the repository, build the script, write it, make it
      executable. */
  method SetupBackupLocations(h: Host, c: Config) returns (r: Outcome)
    modifies h
    ensures Exit(r, h.World()) == Run(h.oracle, old(h.World()), LocationsPlan(c))
  {
    var plan := LocationsPlan(c);
    var dirs := BackupDirs(c.serverRole);
    ghost var w0 := h.World();
    r := h.RunCommand(Command("restic", ["init", "--repo", Repository]));
    if r.Fail? {
      return;
    }
    assert Run(h.oracle, w0, plan) == Run(h.oracle, h.World(), plan[1..]);
    var script := BuildScript(dirs);
    ghost var w1 := h.World();
    r := h.WriteFile(ScriptPath, Encode(script));
    if r.Fail? {
      return;
    }
    assert plan[1..][1..] == [Exec(Command("chmod", ["+x", ScriptPath]))];
    assert Run(h.oracle, w1, plan[1..]) == Run(h.oracle, h.World(), plan[1..][1..]);
    RunSingle(h.oracle, h.World(), Exec(Command("chmod", ["+x", ScriptPath])));
    r := h.RunCommand(Command("chmod", ["+x", ScriptPath]));
  }

  /** If the repository cannot be initialised, the script is not written and chmod does not run:
      the only effect is the failed `restic init`. */
  lemma InitFirst(o: Oracle, w: World, c: Config)
    ensures var init := Command("restic", ["init", "--repo", Repository]);
            o(w.trace, Ran(init)) != Success ==>
              Run(o, w, LocationsPlan(c)) == RunCommand(o, w, init)
  {
  }

  /** `setup_backup_system` without its snapshot. */
  function BackupPlan(c: Config): seq<Step> {
    [InstallBackupTools] + SchedulePlan(c) + LocationsPlan(c)
  }

  /** `setup_backup_system`: install, schedule, locations, inside one snapshot. */
  method SetupBackupSystem(h: Host, rb: RollbackManager, c: Config) returns (r: Outcome)
    modifies h, rb
    ensures Exit(r, h.World()) == Run(h.oracle, old(h.World()), BackupPlan(c))
    ensures rb.snapshots == old(rb.snapshots) + [Fresh]
  {
    var snapshot := rb.CreateSnapshot();
    ghost var w0 := h.World();
    var schedule, locations := SchedulePlan(c), LocationsPlan(c);
    assert BackupPlan(c) == [InstallBackupTools] + (schedule + locations);
    RunAppend(h.oracle, w0, [InstallBackupTools], schedule + locations);
    RunSingle(h.oracle, w0, InstallBackupTools);
    r := h.Do(InstallBackupTools);
    if r.Fail? {
      return;
    }
    RunAppend(h.oracle, h.World(), schedule, locations);
    r := h.Perform(schedule);
    if r.Fail? {
      return;
    }
    r := SetupBackupLocations(h, c);
    if r.Fail? {
      return;
    }
    r := rb.CommitSnapshot(snapshot);
  }
}
