/** The package managers the tool supports, how it detects the one a host uses, and the
    command each package operation becomes. */
module Distro {
  import opened Wrappers
  import opened Machine

  datatype PackageManager = Apt | Yum | Dnf

  const AptBinary := "/usr/bin/apt"
  const YumBinary := "/usr/bin/yum"
  const DnfBinary := "/usr/bin/dnf"
  const Unsupported := "Unsupported package manager"

  /** `get_package_manager`: the first of apt, yum and dnf whose binary exists. */
  function Detect(files: Files): (r: Result<PackageManager>)
    ensures r == Ok(Apt) <==> AptBinary in files
    ensures r == Ok(Yum) <==> AptBinary !in files && YumBinary in files
    ensures r == Ok(Dnf) <==> AptBinary !in files && YumBinary !in files && DnfBinary in files
    ensures r.Err? ==> r.message == Unsupported
  {
    if AptBinary in files then Ok(Apt)
    else if YumBinary in files then Ok(Yum)
    else if DnfBinary in files then Ok(Dnf)
    else Err(Unsupported)
  }

  /** Detection depends on nothing but the existence of the three binaries. */
  lemma DetectOnlyProbesBinaries(f: Files, g: Files)
    requires forall p :: p in {AptBinary, YumBinary, DnfBinary} ==> (p in f <==> p in g)
    ensures Detect(f) == Detect(g)
  {
    assert AptBinary in {AptBinary, YumBinary, DnfBinary};
    assert YumBinary in {AptBinary, YumBinary, DnfBinary};
    assert DnfBinary in {AptBinary, YumBinary, DnfBinary};
  }

  /** The program each manager is driven by. */
  function Tool(pm: PackageManager): string {
    match pm
    case Apt => "apt"
    case Yum => "yum"
    case Dnf => "dnf"
  }

  /** `install_package`: one command, `<tool> install -y <package>`. */
  function Install(pm: PackageManager, package: string): Command {
    Command(Tool(pm), ["install", "-y", package])
  }

  /** `uninstall_package`: one command, `<tool> remove -y <package>`. */
  function Uninstall(pm: PackageManager, package: string): Command {
    Command(Tool(pm), ["remove", "-y", package])
  }

  /** `update_system` of the distro module: apt refreshes then upgrades, yum updates, dnf
      upgrades, each unattended. */
  function UpdateCommands(pm: PackageManager): (cmds: seq<Command>)
    ensures forall i :: 0 <= i < |cmds| ==> cmds[i].tool == Tool(pm)
  {
    match pm
    case Apt => [Command("apt", ["update"]), Command("apt", ["upgrade", "-y"])]
    case Yum => [Command("yum", ["update", "-y"])]
    case Dnf => [Command("dnf", ["upgrade", "-y"])]
  }

  /** Every manager has its own program, so a command names the manager it was issued for. */
  lemma ToolsDistinct(pm: PackageManager, qm: PackageManager)
    ensures Tool(pm) == Tool(qm) <==> pm == qm
  {
    if pm != qm {
      assert Tool(pm)[0] != Tool(qm)[0];
    }
  }

  /** Installing and uninstalling go through the same program and differ only in the verb; both
      name the package and the manager they act on. */
  lemma InstallUninstallPair(pm: PackageManager, qm: PackageManager, p: string, q: string)
    ensures Install(pm, p).tool == Uninstall(pm, p).tool
    ensures Install(pm, p).args[1..] == Uninstall(pm, p).args[1..]
    ensures Install(pm, p).args[0] != Uninstall(pm, p).args[0]
    ensures Install(pm, p) == Install(qm, q) <==> pm == qm && p == q
    ensures Uninstall(pm, p) == Uninstall(qm, q) <==> pm == qm && p == q
    ensures Install(pm, p) != Uninstall(qm, q)
  {
    ToolsDistinct(pm, qm);
    if Install(pm, p) == Install(qm, q) {
      assert Install(pm, p).args[2] == p;
    }
    if Uninstall(pm, p) == Uninstall(qm, q) {
      assert Uninstall(pm, p).args[2] == p;
    }
    assert Install(pm, p).args[0][0] != Uninstall(qm, q).args[0][0];
  }
}
