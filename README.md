# server_forge, modelled in Dafny

server_forge is a command-line tool that provisions a Linux server. The tool:
- asks a handful of questions on the terminal and saves the answers as a JSON configuration;
- runs fixed phases in order, each as shell commands and file writes: initial set-up (system update, essential packages, firewall, SSH hardening), security measures, automatic updates, monitoring, backups, then either Docker/Kubernetes container deployment or the direct deployment of applications;
- writes a text report at the end.

Every phase opens a snapshot in a rollback manager and commits it when the phase succeeds. The first phase that fails triggers a rollback of every snapshot, newest first. The phase's own error is only logged: the run ends with a fixed message for that phase ("Setup failed", "Security implementation failed", and so on), or with the rollback's own error when the rollback fails.

This project models that core and proves its properties.

- **Machine and Shell: the host.** A host is a map from paths to bytes plus a trace of the commands run and the files written. Whether a command or a write succeeds is decided by an oracle that sees the history so far. `Shell.Host` is the object the phases act on. `run_command`, `fs::write`, `fs::read`, `read_to_string` and package-manager detection are its methods.
- **Plans: the step language.** A function of the tool that is a straight sequence of `?`-propagated steps is modelled as a list of steps. The steps are a command, a command whose failure is ignored, a command with a fallback, a file write, a read-replace-write edit, an early error, and a branch on the detected package manager. `Plans.Run` gives the meaning: the steps run in order up to the first failure.
  - Each phase method is proved to do exactly what its plan says.
  - The loops of the tool (the essential packages, the firewall rules, the backup script, the deployments, the rollback, the user input, the report) are imperative methods with loop invariants.
- **Rollback.** The rollback manager is a class over a sequence of snapshots.
- **ServerForge: the phase runner.** `main` is modelled as a straight-line method on one rollback manager, proved against a function of the whole run.

## Model

| member | source | states |
|---|---|---|
| Rollback.RollbackManager.constructor | src/rollback.rs:25-29 | a new manager holds no snapshot |
| Rollback.RollbackManager.CreateSnapshot | src/rollback.rs:36-43 | one empty snapshot is appended and its id is the number of snapshots before the call, so ids run 0, 1, 2, … |
| Rollback.RollbackManager.AddFileChange | src/rollback.rs:55-65 | an existing file's bytes at the time of the call are appended to snapshot `id` only; a missing file gives the not-found error and no snapshot changes, whatever the id, because the read comes before the index |
| Rollback.RollbackManager.AddPackageInstalled | src/rollback.rs:77-86 | the package is appended to snapshot `id`; every other snapshot is unchanged; an out-of-range id is excluded by the precondition |
| Rollback.RollbackManager.CommitSnapshot | src/rollback.rs:96-99 | always succeeds and changes nothing |
| Rollback.RollbackManager.RollbackSnapshot | src/rollback.rs:126-141 | restores the recorded files in order, then detects the package manager (even with no package), then removes the packages in order; the first failure ends it |
| Rollback.RollbackManager.RollbackAll | src/rollback.rs:106-115 | undoes every snapshot newest first and stops at the first failing undo; the snapshot list is not changed |
| Rollback.RollbackManager.RollbackTo | src/rollback.rs:152-166 | an id past the end fails with "Invalid snapshot ID" before any undo; otherwise snapshots from the newest down to `id` are undone, newest first; the list is not changed |
| Rollback.RollbackManager.UndoDownTo | src/rollback.rs:160-162 | the loop both rollbacks share: the undos of snapshots `low..` newest first, stopping at the first failure |
| Rollback.Restores | src/rollback.rs:128-131 | one write of the captured bytes per recorded change, in recording order |
| Rollback.Removals | src/rollback.rs:135-138 | one `remove -y` command per recorded package, in recording order |
| Rollback.RestoresPrefix | src/rollback.rs:128-131 | after the first k restores succeed, each path holds its last capture among those k, and the other paths are untouched |
| Rollback.UndoRestores | src/rollback.rs:126-141 | after a successful undo of a snapshot, a path recorded twice holds the later capture, and an unrecorded path is untouched |
| Rollback.RollbackRestores | src/rollback.rs:106-115 | after a successful `rollback_all`, each path holds the capture from the oldest snapshot that recorded it |
| Rollback.OldestWins | src/rollback.rs:109-111 | a capture in the oldest snapshot decides what the rollback restores |
| Rollback.RollbackToRoundTrip | src/rollback.rs:152-166 | round trip: a file recorded with contents C1 in snapshot `id` holds exactly C1 after a successful `rollback_to(id)`, whatever it held before |
| Rollback.RollbackToKeepsOlder | src/rollback.rs:160-162 | `rollback_to(id)` leaves alone every path that no snapshot from `id` on recorded |
| Rollback.EmptyRollbackInert | src/rollback.rs:126-141 | undoing snapshots that recorded nothing changes no file and issues no command; it fails, with the detection error, exactly when there is a snapshot and no package manager |
| Rollback.UndoScript | src/rollback.rs:128-138 | when nothing fails, an undo is the restores in recording order followed by the removals in recording order |
| Distro.Detect | src/distro.rs:27-37 | Apt if /usr/bin/apt exists, else Yum if /usr/bin/yum exists, else Dnf if /usr/bin/dnf exists, else "Unsupported package manager" |
| Distro.DetectOnlyProbesBinaries | src/distro.rs:28-36 | detection depends on nothing but the existence of the three binaries |
| Distro.UpdateCommands | src/distro.rs:50-64 | every update command runs the detected manager's own tool |
| Distro.ToolsDistinct | src/distro.rs:82-86 | the three managers use three different tools |
| Distro.InstallUninstallPair | src/distro.rs:78-112 | install and uninstall use the same tool and the same package and differ only in the verb; each is one command that determines the manager and the package |
| Config.Default | src/config.rs:52-65 | distro "ubuntu", backup "daily", updates "weekly", empty role and security level, all three flags false, no apps, no rules |
| Machine.RunCommand | src/utils.rs:144-158 | the command is recorded; it succeeds exactly when the process exits with success; a failure's message is "Command failed: tool [args]" followed by the stderr text; a failure to start returns that error |
| Machine.FailureMessage | src/utils.rs:148-153 | the message names the tool right after "Command failed: " and ends with the process's stderr |
| Machine.WriteFile | src/utils.rs:219 | the write is recorded; on success the path holds the new bytes, on failure no file changes |
| Machine.ReadFile | src/rollback.rs:60 | reading succeeds exactly for an existing path and gives its bytes |
| Machine.ReadToString | src/setup.rs:181 | reading as text succeeds exactly for an existing file holding valid UTF-8, and the text encodes back to the file's bytes |
| Utf8.DecodeEncode | src/setup.rs:181-186 | text written to a file reads back as the same text |
| Utf8.EncodeDecode | src/setup.rs:181-186 | bytes that read as text are exactly the encoding of that text |
| Utf8.EncodeAppend | src/utils.rs:174-219 | the encoding of a concatenation is the concatenation of the encodings |
| Utf8.EncodeAscii | src/security.rs:161-163 | ASCII text is written one byte per character |
| Text.ReplaceAllAbsent | src/updates.rs:124-126 | replacing a pattern that does not occur leaves the text unchanged |
| Text.ReplaceAllPresent | src/updates.rs:124-126 | replacing a pattern that occurs makes the replacement occur |
| Text.ReplaceChainAbsent | src/setup.rs:182-185 | a chain of replacements none of whose patterns occurs leaves the text unchanged |
| Text.TrimStartSpec | src/utils.rs:109 | `trim_start` keeps a suffix that does not start with white space, and every character it drops is white space |
| Text.TrimEndSpec | src/utils.rs:109 | `trim_end` keeps a prefix that does not end with white space, and every character it drops is white space |
| Text.TrimSpec | src/utils.rs:109 | `trim` keeps a contiguous piece of the input that neither starts nor ends with white space, and everything before and after it is white space, so it is the longest such piece |
| Text.TrimIdempotent | src/utils.rs:109 | trimming twice is trimming once |
| Text.TrimFixed | src/utils.rs:109 | text with no white space at either end is its own trim |
| Text.YesAnswers | src/utils.rs:59 | an answer lowercases to "y" exactly when it is "y" or "Y" |
| Text.ParseUsizeAccepts | src/utils.rs:78 | `parse::<usize>` accepts exactly an optional '+' followed by one or more digits whose value fits in 64 bits, and yields that value |
| Text.ParseDecimal | src/utils.rs:78 | the decimal text of any count up to the 64-bit maximum parses back to that count |
| Text.FormatAt | src/containerization.rs:339-362 | `format!` places the argument right after each literal piece and the next literal piece right after it |
| Plans.RunAppend | src/setup.rs:39-42 | `a()?; b()?` runs `b` only from where `a` succeeded, and fails with `a`'s error otherwise |
| Plans.RunFrame | src/utils.rs:144-158 | commands change no file: a path that no step writes keeps its contents whatever the outcome |
| Plans.RunExtends | src/utils.rs:144-158 | what has happened stays recorded: the trace only grows |
| Plans.PutLands | src/utils.rs:219 | a file a plan writes, and no later step rewrites, holds the written bytes when the plan succeeds |
| Plans.KeepsFiles | src/utils.rs:144-158 | a plan that writes no file leaves the file system unchanged |
| Plans.InstallAllRuns | src/distro.rs:78-88 | an install through the detected manager is one `<tool> install -y <packages>` command; with no manager it fails with the detection error and does nothing |
| Plans.ObligingExecs | src/utils.rs:144-158 | when every command succeeds, a command list issues exactly those commands, in order |
| Shell.Host.RunCommand | src/utils.rs:144-158 | the host's state after the command is the one `Machine.RunCommand` describes |
| Shell.Host.WriteFile | src/utils.rs:126 | the host's state after the write is the one `Machine.WriteFile` describes |
| Shell.Host.ReadFile | src/rollback.rs:60 | the bytes of an existing file; the not-found error otherwise |
| Shell.Host.PackageManager | src/distro.rs:27-37 | the result of detection on the current file system |
| Shell.Host.Perform | src/setup.rs:39-42 | steps run in order up to the first failure, as `Plans.Run` says |
| Phase.RunPhase | src/security.rs:36-43 | one snapshot is created; the phase's steps run up to the first failure; the snapshot list grows by exactly one empty snapshot |
| Phase.PerformEach | src/deployment.rs:37-42 | the items are handled in list order, stopping at the first failure |
| Phase.RunEachPhase | src/deployment.rs:31-47 | one snapshot around the per-item loop |
| Setup.UpdateSystemAgrees | src/setup.rs:61-76 | ubuntu runs `apt update` then `apt upgrade -y`, centos `yum update -y`, fedora `dnf upgrade -y`, the same commands as the distro module's update for that manager; any other distro fails with no command |
| Setup.EssentialPackagesViaManager | src/setup.rs:90-122 | one `install -y` per name of the fixed nine-item list, in list order, through the distro's tool; any other distro fails with no command |
| Setup.InstallEssentialPackages | src/setup.rs:103-121 | the loop issues exactly that plan, stopping at the first failure |
| Setup.FirewallOrder | src/setup.rs:136-165 | three default rules, then one rule per custom rule in configuration order, then `ufw enable` on ubuntu or `firewall-cmd --reload` on centos/fedora |
| Setup.SetupFirewall | src/setup.rs:136-165 | the loop issues exactly the firewall plan, stopping at the first failure |
| Setup.SshRewrite | src/setup.rs:179-186 | sshd_config is read as text, rewritten by the three replacements in order and written back; an unreadable file stops the step before any write |
| Setup.SshUntouched | src/setup.rs:181-188 | a config containing none of the three patterns is written back byte for byte, and sshd is restarted only after that write succeeded |
| Setup.InitialSetup | src/setup.rs:34-48 | update, essential packages, firewall, then SSH, stopping at the first error, inside one snapshot |
| Security.AdvancedGate | src/security.rs:94-116 | below "advanced" nothing happens, whatever the distro; "advanced" on a distro other than ubuntu, centos or fedora fails with no effect |
| Security.AdvancedBranches | src/security.rs:97-111 | ubuntu installs apparmor and then enforces it; centos and fedora install SELinux through yum (also on fedora) and then write the SELinux config |
| Security.RootkitSequence | src/security.rs:129-142 | rkhunter and chkrootkit are installed through the detected manager, then `rkhunter --update`, then `rkhunter --propupd` |
| Security.ScanCronLine | src/security.rs:161-162 | the scan runs Sundays at 02:00 as root, and its output goes to /var/log/security_scan.log |
| Security.ScansInstalled | src/security.rs:152-166 | after a successful scan set-up, both the scan script and the cron entry hold their texts |
| Security.ImplementSecurityMeasures | src/security.rs:30-47 | fail2ban, the advanced measures, rootkit detection, then scans, stopping at the first error, inside one snapshot |
| Updates.AutoUpgradesSchedule | src/updates.rs:89-99 | "weekly" gives period 7 on both keys; every other schedule (daily, monthly, anything) gives the daily content, never an error |
| Updates.UpdatesDispatch | src/updates.rs:36-45 | a distro other than ubuntu, centos or fedora fails with no effect; the three supported ones start with `install -y` through their own tool: apt on ubuntu, yum on centos, dnf on fedora |
| Updates.UbuntuOrder | src/updates.rs:63-106 | install, then the unattended-upgrades file, then the schedule file, then enable and start, in that order |
| Updates.ApplyUpdatesRewrite | src/updates.rs:124-126 | every "apply_updates = no" becomes "apply_updates = yes" and none is left afterwards; text without it is unchanged |
| Updates.RpmSequence | src/updates.rs:120-158 | an unreadable configuration stops the set-up after the install, with nothing written and no service enabled; otherwise the rewritten text is written, then the unit is enabled, then started |
| Updates.SetupAutomaticUpdates | src/updates.rs:30-49 | the dispatch on the distro inside one snapshot |
| Monitoring.SetupMonitoring | src/monitoring.rs:27-45 | with monitoring off: success, no command, no snapshot; with monitoring on: one snapshot around the four steps in order, stopping at the first error |
| Monitoring.ToolsBranches | src/monitoring.rs:56-116 | Apt refreshes and installs Prometheus from the package; Yum and Dnf build it from source, then fetch the Grafana repository file and install Grafana through their own tool |
| Monitoring.MonitoringByManager | src/monitoring.rs:56-116 | when every command succeeds, the tools step issues exactly the detected manager's branch |
| Monitoring.NodeExporterByManager | src/monitoring.rs:171-188 | the node exporter is the Apt package on Apt and a source build otherwise, then it is started and then enabled |
| Backup.CronTable | src/backup.rs:82-98 | hourly, daily and weekly select a nine-character schedule; the three lines share the same user and command suffix; any other frequency fails with "Invalid backup frequency" |
| Backup.DefaultFrequencyAccepted | src/backup.rs:87 | the default frequency "daily" is accepted, as "0 2 * * *" |
| Backup.ScheduleEffect | src/backup.rs:82-98 | an unknown frequency writes no file; a successful schedule leaves the cron file holding the frequency's line |
| Backup.BuildScript | src/backup.rs:126-132 | the loop builds the header, "restic backup", one " dir" per directory in order, and the tag line |
| Backup.WordsJoined | src/backup.rs:126-132 | the directory list reads back from the script word by word, in order |
| Backup.RoleScript | src/backup.rs:115-132 | the script of each role backs up exactly that role's directories; an unknown role backs up none |
| Backup.SetupBackupLocations | src/backup.rs:113-138 | `restic init`, then the script, then `chmod +x`, stopping at the first error |
| Backup.InitFirst | src/backup.rs:123-135 | when `restic init` fails, the script is not written and chmod does not run |
| Backup.SetupBackupSystem | src/backup.rs:34-50 | install, schedule, then locations, inside one snapshot |
| Deployment.AppDispatch | src/deployment.rs:59-71 | exactly nginx, apache, mysql, postgresql, php, nodejs and python are deployable; any other name fails with "Unsupported application: name" and issues nothing |
| Deployment.ApacheFallback | src/deployment.rs:113-119 | the httpd command runs only when the apache2 command failed, and decides the outcome then |
| Deployment.PostgresqlInitdb | src/deployment.rs:160-187 | `postgresql-setup --initdb` runs exactly when the manager is not Apt, right after the server install |
| Deployment.PhpBranches | src/deployment.rs:201-231 | php, php-fpm and the manager's MySQL module are installed; the web module (libapache2-mod-php or php-apache) is added exactly for the "web" role; Yum and Dnf differ only in the tool |
| Deployment.DeployApplications | src/deployment.rs:31-47 | the applications in list order, stopping at the first failure, inside one snapshot |
| Deployment.UnsupportedStops | src/deployment.rs:31-71 | an unsupported name in the list fails the phase there, after the applications before it |
| Deployment.PasswordAlphabet | src/deployment.rs:448-464 | a password is 20 characters, each from the 73-character set of letters, digits and ")(*&^%$#@!~"; none is a quote or a backslash |
| Deployment.EveryPasswordPossible | src/deployment.rs:448-464 | every 20-character string over the set is produced by some draws |
| Deployment.ConfigDispatch | src/deployment.rs:299-378 | only nginx and apache are web servers and only mysql and postgresql are databases; any other name fails with the matching error and no effect |
| Deployment.PasswordKept | src/deployment.rs:386-438 | the generated password is the one in the database statement and the one saved to the database's password file |
| Containerization.DockerBranches | src/containerization.rs:107-197 | Apt prepares the repository in six commands ending with `apt update` and the install; Yum and Dnf use three; the last command installs the Docker packages through the manager |
| Containerization.SetupDocker | src/containerization.rs:29-41 | install then configure inside one snapshot |
| Containerization.DaemonConfigured | src/containerization.rs:207-229 | after a successful set-up, daemon.json holds its text, written after the group commands and followed by a Docker restart |
| Containerization.KubernetesInstall | src/containerization.rs:247-275 | with no package manager, the install fails with no effect; otherwise, when every command succeeds, it issues the fixed tool commands and then the install of VirtualBox, minikube's virtualisation driver, through the manager |
| Containerization.SetupKubernetes | src/containerization.rs:55-67 | install then configure inside one snapshot |
| Containerization.ManifestNames | src/containerization.rs:339-362 | the application's name appears in all five name slots of the manifest |
| Containerization.ManifestImage | src/containerization.rs:339-362 | the image is the name followed by ":latest" |
| Containerization.ManifestInjective | src/containerization.rs:339-362 | two applications with the same manifest have the same name |
| Containerization.KubernetesDeployed | src/containerization.rs:337-386 | the manifest is written to `{app}-deployment.yaml`, applied from that file, then exposed, in that order |
| Containerization.DockerTolerance | src/containerization.rs:400-412 | a failed pull stops the deployment; stop and rm failures are ignored; the run's outcome decides the result; no file changes |
| Containerization.ContainerSwitch | src/containerization.rs:315-322 | with Kubernetes every step is a Kubernetes deployment step, otherwise every step is a Docker step and no file is written |
| Containerization.DeployContainers | src/containerization.rs:82-97 | the applications in list order, stopping at the first failure, inside one snapshot |
| Utils.AnswerTrimmed | src/utils.rs:104-110 | every answer is trimmed |
| Utils.Answers | src/utils.rs:79-88 | n answers, in entry order |
| Utils.PushAnswers | src/utils.rs:78-81 | one prompt loop pushes the next `n` answers, in order, onto the list |
| Utils.GetUserInput | src/utils.rs:54-91 | the loops read exactly the configuration `UserInput` describes |
| Utils.PlatformAnswers | src/utils.rs:55-76 | monitoring and containers are on exactly for "y"/"Y"; Kubernetes is asked and set only with containers; the text fields are trimmed answers |
| Utils.ListsAnswers | src/utils.rs:78-88 | the app and rule lists have exactly as many entries as the numbers entered, each a trimmed answer |
| Utils.SessionSettings | src/utils.rs:55-76 | the answers a configuration would be typed as give back its scalar settings |
| Utils.SessionReadsBack | src/utils.rs:54-91 | round trip: typing a configuration's answers yields that configuration |
| Utils.UserInputAnswerable | src/utils.rs:54-91 | every configuration read from the terminal is one that round-trips |
| Utils.AppendBullets | src/utils.rs:189-191 | the loop appends one "- item\n" line per item, in order |
| Utils.BuildReport | src/utils.rs:174-196 | title, the eight settings in fixed order, the applications section, then the rules section |
| Utils.BulletsReadBack | src/utils.rs:188-196 | the bullet lines read back as the list, for items without a newline |
| Utils.GenerateReport | src/utils.rs:172-222 | the report text followed by the system information is written to /root/server_setup_report.txt |
| ServerForge.PhaseOrder | src/main.rs:56-115 | the five common phases come first; Docker and the containers run exactly with containers; Kubernetes only with both flags; the applications run exactly without containers |
| ServerForge.StopCounts | src/main.rs:56-115 | a stopped run stops at one of its phases, after that phase created its snapshot |
| ServerForge.FailedRunIsInert | src/main.rs:56-115 | after a failed phase, the rollback changes nothing; the run ends with that phase's fixed failure message, or with the rollback's detection error when no package manager exists |
| ServerForge.ProvisionedOutcome | src/main.rs:49-119 | bad input ends the run with nothing done; the configuration is saved before anything else; a successful run wrote the report last |
| ServerForge.Abandon | src/main.rs:58-59 | `rollback_all()?`; its own error wins over the phase message |
| ServerForge.PhaseOf | src/main.rs:56-115 | each phase runs its function; every phase except a disabled monitoring phase adds one snapshot |
| ServerForge.Attempt | src/main.rs:56-60 | one phase: on error, rollback and return; otherwise the run continues with the rest |
| ServerForge.RunCommonPhases | src/main.rs:56-88 | the five common phases in order |
| ServerForge.RunContainerPhases | src/main.rs:91-110 | Docker, Kubernetes when asked for, then the containers |
| ServerForge.RunClusterPhases | src/main.rs:98-110 | Kubernetes only when asked for, then the containers |
| ServerForge.RunPlatformPhases | src/main.rs:91-119 | the container or application branch, then the report |
| ServerForge.WriteReport | src/main.rs:117-119 | the report of a run whose phases all succeeded |
| ServerForge.Provision | src/main.rs:43-120 | `main` from the input on behaves as `Provisioned` describes |

## Left out

- Rollback.RollbackManager.AddFileChange / AddPackageInstalled: the source indexes the snapshot list directly and panics on an out-of-range id, although its doc comments promise an error for an invalid id. The model excludes that case with a precondition (for `add_file_change` only when the file exists, since a missing file fails first with the not-found error).
- Rollback.RollbackManager.CreateSnapshot: the model follows the code, which returns the new snapshot's index (`len() - 1`), so a fresh manager's first id is 0; the repository's own test of `create_snapshot` expects an id greater than 0, which the code does not give.
- Logging (`setup_logging`, the `info!`/`error!` lines) is not modelled; it has no effect on the outcome.
- Processes are not executed. A command is an entry in the host's trace, and an oracle decides its outcome and stderr. Commands change no file in the model, and shell syntax passed as arguments (`|`, `>`, `$(...)`) is an opaque string.
- The JSON serialisation of the configuration is a parameter (`serialize`), since it is done by serde.
- The system-information block of the report (uname, lscpu, free) is a parameter, since it is external output.
- Terminal input is a list of lines. A line past the end reads as the empty answer, and stdin read errors are not modelled.
- `to_lowercase` is modelled on ASCII only. The comparison with "y" is decided the same way for every answer.
- Machine.RunCommand: the process's stderr is given as text, so the lossy UTF-8 conversion of its bytes is not modelled.
- Machine.ReadFile: a read fails only when the path is missing or, for text, when the bytes are not UTF-8. Failures on an existing path (permission denied, a directory, an I/O error) are not modelled, because files are a map from paths to bytes; this affects the reads of the rollback manager, of the SSH set-up and of the RPM update set-up.
- Machine.FailureMessage: the `{:?}` escaping of arguments covers quote, backslash, NUL, tab, line feed and carriage return; the `\u{..}` escapes of other control and unprintable characters are not modelled.
- The contents of the constant templates (vhosts, Prometheus configuration, systemd units, daemon.json, the fail2ban jail, the unattended-upgrades body) are opaque constants.
- Deployment.Password: the random generator is a supplied list of 20 draws below 73, so the model states the length and the alphabet only.
- `create_sample_web_app` and `setup_firewall_rules` in src/deployment.rs are not modelled; nothing in the tool calls them.
- `RefCell` borrowing is not modelled; the snapshots are a plain field of the manager class.
- The firewalld port rule is modelled as written: "--add-port=" and the rule are two separate arguments.
- The manifest file path is relative to the working directory and is modelled as that relative path.
- A clone of a configuration equals the original field by field; Dafny configurations are values, so no separate operation is modelled.
- `usize` is a 64-bit width; no other integer width matters in the core.
