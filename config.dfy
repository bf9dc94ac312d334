/** The answers that drive a run of the tool. */
module Config {

  /** The `Config` record; Rust's derived `Clone` is Dafny's value semantics. */
  datatype Config = Config(
    linuxDistro: string,
    serverRole: string,
    securityLevel: string,
    monitoring: bool,
    backupFrequency: string,
    deployedApps: seq<string>,
    customFirewallRules: seq<string>,
    updateSchedule: string,
    useContainers: bool,
    useKubernetes: bool)

  /** `Config::default()`: an Ubuntu host with daily backups and weekly updates, no role, no
      security level, nothing to deploy and every option off. */
  function Default(): (c: Config)
    ensures c.linuxDistro == "ubuntu" && c.backupFrequency == "daily" && c.updateSchedule == "weekly"
    ensures c.serverRole == "" && c.securityLevel == ""
    ensures !c.monitoring && !c.useContainers && !c.useKubernetes
    ensures c.deployedApps == [] && c.customFirewallRules == []
  {
    Config(
      linuxDistro := "ubuntu",
      serverRole := "",
      securityLevel := "",
      monitoring := false,
      backupFrequency := "daily",
      deployedApps := [],
      customFirewallRules := [],
      updateSchedule := "weekly",
      useContainers := false,
      useKubernetes := false)
  }
}
