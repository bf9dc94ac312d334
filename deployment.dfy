/** Application deployment: web servers, databases and language runtimes, one per configured
    application, and the helpers that configure web servers and databases. */
module Deployment {
  import opened Wrappers
  import opened Utf8
  import opened Machine
  import opened Distro
  import opened Plans
  import opened Shell
  import opened Rollback
  import opened Config
  import opened Phase

  function Start(unit: string): Step {
    Exec(Command("systemctl", ["start", unit]))
  }

  function Enable(unit: string): Step {
    Exec(Command("systemctl", ["enable", unit]))
  }

  /** `deploy_nginx`. */
  const NginxPlan: seq<Step> := [InstallAll(["nginx"]), Start("nginx"), Enable("nginx")]

  /** `deploy_apache`: the Debian package is apache2, the RPM one httpd; the units are tried
      under the Debian name first. */
  const ApachePlan: seq<Step> := [
    OnManager([Exec(Command("apt", ["install", "-y", "apache2"]))],
              [Exec(Command("yum", ["install", "-y", "httpd"]))],
              [Exec(Command("dnf", ["install", "-y", "httpd"]))]),
    Fallback(Command("systemctl", ["start", "apache2"]), Command("systemctl", ["start", "httpd"])),
    Fallback(Command("systemctl", ["enable", "apache2"]), Command("systemctl", ["enable", "httpd"]))]

  /** `deploy_mysql`. */
  const MysqlPlan: seq<Step> := [
    InstallAll(["mysql-server"]), Start("mysql"), Enable("mysql"),
    Exec(Command("mysql_secure_installation", []))]

  /** What `deploy_postgresql` installs on a host with manager `pm`; RPM hosts also initialise
      the database cluster. */
  function PostgresqlInstall(pm: PackageManager): seq<Step> {
    match pm
    case Apt => [Exec(Command("apt", ["install", "-y", "postgresql", "postgresql-contrib"]))]
    case Yum => [Exec(Command("yum", ["install", "-y", "postgresql-server", "postgresql-contrib"])),
                 Exec(Command("postgresql-setup", ["--initdb"]))]
    case Dnf => [Exec(Command("dnf", ["install", "-y", "postgresql-server", "postgresql-contrib"])),
                 Exec(Command("postgresql-setup", ["--initdb"]))]
  }

  /** `deploy_postgresql`. */
  const PostgresqlPlan: seq<Step> := [
    OnManager(PostgresqlInstall(Apt), PostgresqlInstall(Yum), PostgresqlInstall(Dnf)),
    Start("postgresql"), Enable("postgresql")]

  const InitDb := Exec(Command("postgresql-setup", ["--initdb"]))

  /** The cluster is initialised exactly on hosts whose manager is not APT, after the install. */
  lemma PostgresqlInitdb(pm: PackageManager)
    ensures InitDb in PostgresqlInstall(pm) <==> pm != Apt
    ensures pm != Apt ==> PostgresqlInstall(pm) == [Exec(Command(Tool(pm), ["install", "-y", "postgresql-server", "postgresql-contrib"])), InitDb]
  {
  }

  /** What `deploy_php` installs on a host with manager `pm` for a server of role `role`. */
  function PhpInstall(pm: PackageManager, role: string): seq<Step> {
    match pm
    case Apt =>
      [Exec(Command("apt", ["install", "-y", "php", "php-fpm", "php-mysql"]))]
      + (if role == "web" then [Exec(Command("apt", ["install", "-y", "libapache2-mod-php"]))] else [])
    case Yum => PhpRpm("yum", role)
    case Dnf => PhpRpm("dnf", role)
  }

  function PhpRpm(tool: string, role: string): seq<Step> {
    [Exec(Command(tool, ["install", "-y", "php", "php-fpm", "php-mysqlnd"]))]
    + (if role == "web" then [Exec(Command(tool, ["install", "-y", "php-apache"]))] else [])
  }

  /** `deploy_php`. */
  function PhpPlan(role: string): seq<Step> {
    [OnManager(PhpInstall(Apt, role), PhpInstall(Yum, role), PhpInstall(Dnf, role)),
     Start("php-fpm"), Enable("php-fpm")]
  }

  /** PHP is installed with the host's own tool; the Apache module is added, as a second install,
      exactly when the server's role is "web" (libapache2-mod-php on APT, php-apache otherwise). */
  lemma PhpBranches(pm: PackageManager, role: string)
    ensures |PhpInstall(pm, role)| == (if role == "web" then 2 else 1)
    ensures forall i :: 0 <= i < |PhpInstall(pm, role)| ==>
              PhpInstall(pm, role)[i].Exec? && PhpInstall(pm, role)[i].cmd.tool == Tool(pm)
              && PhpInstall(pm, role)[i].cmd.args[..2] == ["install", "-y"]
    ensures role == "web" ==>
              PhpInstall(pm, role)[1].cmd.args[2..] == [if pm == Apt then "libapache2-mod-php" else "php-apache"]
    ensures PhpInstall(pm, role)[0].cmd.args[2..] == ["php", "php-fpm", if pm == Apt then "php-mysql" else "php-mysqlnd"]
  {
  }

  /** `deploy_nodejs`; the shell syntax in its arguments is passed through uninterpreted. */
  const NodejsPlan: seq<Step> := [
    Exec(Command("curl", ["-o-", "https://raw.githubusercontent.com/nvm-sh/nvm/v0.38.0/install.sh", "|", "bash"])),
    Exec(Command("source", ["~/.nvm/nvm.sh"])),
    Exec(Command("nvm", ["install", "node"])),
    Exec(Command("nvm", ["use", "node"])),
    Exec(Command("npm", ["install", "-g", "pm2"]))]

  /** `deploy_python`. */
  const PythonPlan: seq<Step> := [
    OnManager([Exec(Command("apt", ["install", "-y", "python3", "python3-pip", "python3-venv"]))],
              [Exec(Command("yum", ["install", "-y", "python3", "python3-pip"]))],
              [Exec(Command("dnf", ["install", "-y", "python3", "python3-pip"]))]),
    Exec(Command("pip3", ["install", "virtualenv"]))]

  const UnsupportedApplication := "Unsupported application: "

  predicate Deployable(app: string) {
    app in {"nginx", "apache", "mysql", "postgresql", "php", "nodejs", "python"}
  }

  /** `deploy_app`. */
  function AppPlan(app: string, role: string): seq<Step> {
    match app
    case "nginx" => NginxPlan
    case "apache" => ApachePlan
    case "mysql" => MysqlPlan
    case "postgresql" => PostgresqlPlan
    case "php" => PhpPlan(role)
    case "nodejs" => NodejsPlan
    case "python" => PythonPlan
    case _ => [Abort(UnsupportedApplication + app)]
  }

  /** The seven applications are deployed; any other name is refused with its name in the message
      before any command is issued. */
  lemma AppDispatch(o: Oracle, w: World, app: string, role: string)
    ensures AppPlan(app, role) != [] && (AppPlan(app, role)[0].Abort? <==> !Deployable(app))
    ensures !Deployable(app) ==> Run(o, w, AppPlan(app, role)) == Exit(Fail(UnsupportedApplication + app), w)
  {
  }

  /** Apache's units are started (and enabled) under the name httpd only when the apache2 name
      failed; the step passes when either name works. */
  lemma ApacheFallback(o: Oracle, w: World, verb: string)
    ensures var first, second := Command("systemctl", [verb, "apache2"]), Command("systemctl", [verb, "httpd"]);
            var e := RunStep(o, w, Fallback(first, second));
            (o(w.trace, Ran(first)) == Success ==> e == Exit(Pass, World(w.files, w.trace + [Ran(first)])))
            && (o(w.trace, Ran(first)) != Success ==>
                  e.world.trace == w.trace + [Ran(first), Ran(second)]
                  && (e.outcome.Pass? <==> o(w.trace + [Ran(first)], Ran(second)) == Success))
  {
  }

  function AppsOf(role: string): string -> seq<Step> {
    app => AppPlan(app, role)
  }

  /** `deploy_applications` without its snapshot. */
  function ApplicationsPlan(c: Config): seq<Step> {
    Each(c.deployedApps, AppsOf(c.serverRole))
  }

  /** `deploy_applications`: the applications in list order inside one snapshot, stopping at the
      first failure. */
  method DeployApplications(h: Host, rb: RollbackManager, c: Config) returns (r: Outcome)
    modifies h, rb
    ensures Exit(r, h.World()) == Run(h.oracle, old(h.World()), ApplicationsPlan(c))
    ensures rb.snapshots == old(rb.snapshots) + [Fresh]
  {
    r := RunEachPhase(h, rb, c.deployedApps, AppsOf(c.serverRole));
  }

  /** An application list holding a name that cannot be deployed always fails: everything before
      that name runs as it would alone, and nothing after it runs. */
  lemma UnsupportedStops(o: Oracle, w: World, c: Config, k: nat)
    requires k < |c.deployedApps| && !Deployable(c.deployedApps[k])
    ensures var before := Run(o, w, Each(c.deployedApps[..k], AppsOf(c.serverRole)));
            Run(o, w, ApplicationsPlan(c)) ==
              if before.outcome.Fail? then before
              else Exit(Fail(UnsupportedApplication + c.deployedApps[k]), before.world)
  {
    var apps, f := c.deployedApps, AppsOf(c.serverRole);
    assert apps == apps[..k] + apps[k..];
    EachAppend(apps[..k], apps[k..], f);
    RunAppend(o, w, Each(apps[..k], f), Each(apps[k..], f));
    var before := Run(o, w, Each(apps[..k], f));
    if before.outcome.Pass? {
      RunAppend(o, before.world, f(apps[k]), Each(apps[k + 1..], f));
      assert apps[k..][1..] == apps[k + 1..];
      AppDispatch(o, before.world, apps[k], c.serverRole);
    }
  }

  /** The characters the password generator draws from: letters, digits and eleven symbols. */
  const Upper: string := seq(26, i requires 0 <= i < 26 => ('A' as int + i) as char)
  const Lower: string := seq(26, i requires 0 <= i < 26 => ('a' as int + i) as char)
  const Digits: string := seq(10, i requires 0 <= i < 10 => ('0' as int + i) as char)
  const Symbols := ")(*&^%$#@!~"
  const Charset: string := Upper + Lower + Digits + Symbols
  const PasswordLength := 20

  /** `generate_secure_password`, given the generator's 20 draws from `0..CHARSET.len()`. */
  function Password(draws: seq<nat>): (pw: string)
    requires |draws| == PasswordLength && forall i :: 0 <= i < |draws| ==> draws[i] < |Charset|
  {
    seq(PasswordLength, i requires 0 <= i < PasswordLength => Charset[draws[i]])
  }

  /** A password is 20 characters long and each is a letter, a digit or one of the eleven
      symbols; none is a quote or a backslash, so it stays inside the single-quoted SQL literal it
      is set with. */
  lemma PasswordAlphabet(draws: seq<nat>)
    requires |draws| == PasswordLength && forall i :: 0 <= i < |draws| ==> draws[i] < |Charset|
    ensures var pw := Password(draws);
            |pw| == PasswordLength
            && (forall i :: 0 <= i < |pw| ==> pw[i] in Charset)
            && (forall i :: 0 <= i < |pw| ==>
                  'A' <= pw[i] <= 'Z' || 'a' <= pw[i] <= 'z' || '0' <= pw[i] <= '9' || pw[i] in Symbols)
            && (forall i :: 0 <= i < |pw| ==> pw[i] != '\'' && pw[i] != '\\')
  {
    var pw := Password(draws);
    assert |Charset| == 73;
    forall i | 0 <= i < |pw|
      ensures 'A' <= pw[i] <= 'Z' || 'a' <= pw[i] <= 'z' || '0' <= pw[i] <= '9' || pw[i] in Symbols
    {
      var d := draws[i];
      if d < 26 {
        assert pw[i] == Upper[d];
      } else if d < 52 {
        assert pw[i] == Lower[d - 26];
      } else if d < 62 {
        assert pw[i] == Digits[d - 52];
      } else {
        assert pw[i] == Symbols[d - 62];
      }
    }
  }

  function IndexOf(s: string, c: char): (k: nat)
    requires c in s
    ensures k < |s| && s[k] == c
  {
    if s[0] == c then 0 else 1 + IndexOf(s[1..], c)
  }

  /** Conversely, every 20-character string over the alphabet is a password the generator can
      produce. */
  lemma EveryPasswordPossible(pw: string)
    requires |pw| == PasswordLength && forall i :: 0 <= i < |pw| ==> pw[i] in Charset
    ensures exists draws: seq<nat> ::
              |draws| == PasswordLength && (forall i :: 0 <= i < |draws| ==> draws[i] < |Charset|)
              && Password(draws) == pw
  {
    var draws := seq(PasswordLength, i requires 0 <= i < PasswordLength => IndexOf(Charset, pw[i]));
    assert Password(draws) == pw;
  }

  const NginxSite := "/etc/nginx/sites-available/default"
  const NginxConfig :=
    "\nserver {\n    listen 80 default_server;\n    listen [::]:80 default_server;\n"
    + "    root /var/www/html;\n    index index.html index.htm index.nginx-debian.html;\n"
    + "    server_name _;\n    location / {\n        try_files $uri $uri/ =404;\n    }\n}\n"
  const ApacheSite := "/etc/apache2/sites-available/000-default.conf"
  const ApacheConfig :=
    "\n<VirtualHost *:80>\n    ServerAdmin webmaster@localhost\n    DocumentRoot /var/www/html\n"
    + "    ErrorLog ${APACHE_LOG_DIR}/error.log\n    CustomLog ${APACHE_LOG_DIR}/access.log combined\n"
    + "</VirtualHost>\n"
  const UnsupportedWebServer := "Unsupported web server: "

  /** `setup_web_server_config`. */
  function WebServerConfigPlan(app: string): seq<Step> {
    match app
    case "nginx" => [Put(NginxSite, Encode(NginxConfig)), Exec(Command("systemctl", ["reload", "nginx"]))]
    case "apache" =>
      [Put(ApacheSite, Encode(ApacheConfig)),
       Fallback(Command("systemctl", ["reload", "apache2"]), Command("systemctl", ["reload", "httpd"]))]
    case _ => [Abort(UnsupportedWebServer + app)]
  }

  const MysqlPasswordFile := "/root/.mysql_root_password"
  const PostgresPasswordFile := "/root/.postgres_password"
  const UnsupportedDatabase := "Unsupported database: "

  /** `setup_mysql` with the password `pw`. */
  function MysqlSetupPlan(pw: string): seq<Step> {
    [Exec(Command("mysql", ["-e", "ALTER USER 'root'@'localhost' IDENTIFIED BY '" + pw + "';"])),
     Exec(Command("mysql", ["-e", "DELETE FROM mysql.user WHERE User='';"])),
     Exec(Command("mysql", ["-e", "FLUSH PRIVILEGES;"])),
     Put(MysqlPasswordFile, Encode(pw))]
  }

  /** `setup_postgresql` with the password `pw`. */
  function PostgresSetupPlan(pw: string): seq<Step> {
    [Exec(Command("sudo", ["-u", "postgres", "psql", "-c", "ALTER USER postgres PASSWORD '" + pw + "';"])),
     Put(PostgresPasswordFile, Encode(pw))]
  }

  /** `setup_database`, given the generator's draws for the password. */
  function DatabasePlan(db: string, draws: seq<nat>): seq<Step>
    requires |draws| == PasswordLength && forall i :: 0 <= i < |draws| ==> draws[i] < |Charset|
  {
    match db
    case "mysql" => MysqlSetupPlan(Password(draws))
    case "postgresql" => PostgresSetupPlan(Password(draws))
    case _ => [Abort(UnsupportedDatabase + db)]
  }

  /** Only nginx and apache have a web-server configuration, and only mysql and postgresql a
      database setup; any other name is an error naming it, before any effect. */
  lemma ConfigDispatch(o: Oracle, w: World, name: string, draws: seq<nat>)
    requires |draws| == PasswordLength && forall i :: 0 <= i < |draws| ==> draws[i] < |Charset|
    ensures name !in {"nginx", "apache"} <==> WebServerConfigPlan(name)[0].Abort?
    ensures name !in {"nginx", "apache"} ==>
              Run(o, w, WebServerConfigPlan(name)) == Exit(Fail(UnsupportedWebServer + name), w)
    ensures name !in {"mysql", "postgresql"} <==> DatabasePlan(name, draws)[0].Abort?
    ensures name !in {"mysql", "postgresql"} ==>
              Run(o, w, DatabasePlan(name, draws)) == Exit(Fail(UnsupportedDatabase + name), w)
  {
  }

  /** When the database setup succeeds, the password file holds exactly the password that the
      database user was given. */
  lemma PasswordKept(o: Oracle, w: World, db: string, draws: seq<nat>)
    requires |draws| == PasswordLength && forall i :: 0 <= i < |draws| ==> draws[i] < |Charset|
    requires db in {"mysql", "postgresql"}
    ensures var plan, pw := DatabasePlan(db, draws), Password(draws);
            var file := if db == "mysql" then MysqlPasswordFile else PostgresPasswordFile;
            var e := Run(o, w, plan);
            plan[0].cmd.args[|plan[0].cmd.args| - 1] == DatabaseStatement(db, pw)
            && (e.outcome.Pass? ==> file in e.world.files && e.world.files[file] == Encode(pw))
  {
    var plan := DatabasePlan(db, draws);
    PutLands(o, w, plan, |plan| - 1);
  }

  /** The statement that sets the password of the database's administrative user. */
  function DatabaseStatement(db: string, pw: string): string {
    if db == "mysql" then "ALTER USER 'root'@'localhost' IDENTIFIED BY '" + pw + "';"
    else "ALTER USER postgres PASSWORD '" + pw + "';"
  }
}
