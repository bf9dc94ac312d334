/** The tool's helpers around a run: reading the answers that make up a configuration, and the
    report written at the end. `run_command` is `Machine.RunCommand`. */
module Utils {
  import opened Wrappers
  import opened Utf8
  import opened Text
  import opened Machine
  import opened Shell
  import opened Config

  /** `prompt`: the `k`-th line the user typed, without surrounding white space; once input is
      exhausted `read_line` reads nothing, so the answer is empty. */
  function Answer(lines: seq<string>, k: nat): string {
    if k < |lines| then Trim(lines[k]) else ""
  }

  /** An answer has no surrounding white space left. */
  lemma AnswerTrimmed(lines: seq<string>, k: nat)
    ensures Trim(Answer(lines, k)) == Answer(lines, k)
  {
    if k < |lines| {
      TrimIdempotent(lines[k]);
    }
  }

  /** The answers from line `from` on, `n` of them. */
  function Answers(lines: seq<string>, from: nat, n: nat): (r: seq<string>)
    ensures |r| == n && forall i :: 0 <= i < n ==> r[i] == Answer(lines, from + i)
  {
    seq(n, i requires 0 <= i < n => Answer(lines, from + i))
  }

  lemma AnswersSnoc(lines: seq<string>, from: nat, n: nat)
    ensures Answers(lines, from, n + 1) == Answers(lines, from, n) + [Answer(lines, from + n)]
  {
    var a, b := Answers(lines, from, n + 1), Answers(lines, from, n) + [Answer(lines, from + n)];
    forall i | 0 <= i < n + 1
      ensures a[i] == b[i]
    {
      if i < n {
        assert b[i] == Answers(lines, from, n)[i];
      }
    }
  }

  /** The line holding the number of applications: after seven answers, and after an eighth
      (whether to use Kubernetes) only when containers were chosen. */
  function CountLine(lines: seq<string>): nat {
    if IsYes(Answer(lines, 6)) then 8 else 7
  }

  /** The configuration the first seven answers give, every other field at its default. */
  function Settings(lines: seq<string>): Config {
    Default().(
      linuxDistro := Answer(lines, 0),
      serverRole := Answer(lines, 1),
      securityLevel := Answer(lines, 2),
      monitoring := IsYes(Answer(lines, 3)),
      backupFrequency := Answer(lines, 4),
      updateSchedule := Answer(lines, 5),
      useContainers := IsYes(Answer(lines, 6)))
  }

  /** The settings with the Kubernetes answer, which is asked for only when containers are used. */
  function Platform(lines: seq<string>): Config {
    var c := Settings(lines);
    if c.useContainers then c.(useKubernetes := IsYes(Answer(lines, 7))) else c
  }

  /** The two lists, each read as a count on line `k` (and on the line after the first list)
      followed by that many entries, or the error of the first count that does not parse. */
  function ReadLists(lines: seq<string>, k: nat): Result<(seq<string>, seq<string>)> {
    match ParseUsize(Answer(lines, k))
    case Err(m) => Err(m)
    case Ok(apps) =>
      match ParseUsize(Answer(lines, k + 1 + apps))
      case Err(m) => Err(m)
      case Ok(rules) => Ok((Answers(lines, k + 1, apps), Answers(lines, k + 2 + apps, rules)))
  }

  /** `get_user_input` on the lines `lines`: the configuration, or the error of the first count
      that does not parse. */
  function UserInput(lines: seq<string>): Result<Config> {
    match ReadLists(lines, CountLine(lines))
    case Err(m) => Err(m)
    case Ok((apps, rules)) => Ok(Platform(lines).(deployedApps := apps, customFirewallRules := rules))
  }

  /** One `for` loop of `get_user_input`: `n` prompts from line `from` on, each answer pushed onto
      `items`. */
  method PushAnswers(lines: seq<string>, from: nat, n: nat, items: seq<string>) returns (r: seq<string>)
    ensures r == items + Answers(lines, from, n)
  {
    r := items;
    var i := 0;
    while i < n
      invariant 0 <= i <= n
      invariant r == items + Answers(lines, from, i)
    {
      AnswersSnoc(lines, from, i);
      r := r + [Answer(lines, from + i)];
      i := i + 1;
    }
  }

  /** `get_user_input`, line by line: a cursor moves over the lines as each question is asked. */
  method GetUserInput(lines: seq<string>) returns (r: Result<Config>)
    ensures r == UserInput(lines)
  {
    var c := Settings(lines);
    var next := 7;
    if c.useContainers {
      c := c.(useKubernetes := IsYes(Answer(lines, 7)));
      next := 8;
    }
    assert c == Platform(lines) && next == CountLine(lines);
    var count := ParseUsize(Answer(lines, next));
    if count.Err? {
      return Err(count.message);
    }
    ghost var base := c;
    assert base.deployedApps == [] && base.customFirewallRules == [];
    var apps := PushAnswers(lines, next + 1, count.value, c.deployedApps);
    assert apps == Answers(lines, next + 1, count.value);
    c := c.(deployedApps := apps);
    next := next + 1 + count.value;
    var rulesCount := ParseUsize(Answer(lines, next));
    if rulesCount.Err? {
      return Err(rulesCount.message);
    }
    var rules := PushAnswers(lines, next + 1, rulesCount.value, c.customFirewallRules);
    assert rules == Answers(lines, next + 1, rulesCount.value);
    c := c.(customFirewallRules := rules);
    assert ReadLists(lines, CountLine(lines)) == Ok((apps, rules));
    assert c == base.(deployedApps := apps, customFirewallRules := rules);
    r := Ok(c);
  }

  /** A yes/no question answered as the tool records it. */
  function YesNo(b: bool): string {
    if b then "y" else "n"
  }

  /** The lines a user types to obtain `c`: the seven answers, the Kubernetes answer only when
      containers are used, then each list preceded by its length. */
  function Session(c: Config): seq<string> {
    [c.linuxDistro, c.serverRole, c.securityLevel, YesNo(c.monitoring), c.backupFrequency,
     c.updateSchedule, YesNo(c.useContainers)]
    + (if c.useContainers then [YesNo(c.useKubernetes)] else [])
    + [Decimal(|c.deployedApps|)] + c.deployedApps
    + [Decimal(|c.customFirewallRules|)] + c.customFirewallRules
  }

  /** The configurations a session can produce: no text with surrounding white space, Kubernetes
      only together with containers, and lists no longer than a usize can count. */
  predicate Answerable(c: Config) {
    Trim(c.linuxDistro) == c.linuxDistro && Trim(c.serverRole) == c.serverRole
    && Trim(c.securityLevel) == c.securityLevel && Trim(c.backupFrequency) == c.backupFrequency
    && Trim(c.updateSchedule) == c.updateSchedule
    && (forall i :: 0 <= i < |c.deployedApps| ==> Trim(c.deployedApps[i]) == c.deployedApps[i])
    && (forall i :: 0 <= i < |c.customFirewallRules| ==>
          Trim(c.customFirewallRules[i]) == c.customFirewallRules[i])
    && (c.useKubernetes ==> c.useContainers)
    && |c.deployedApps| <= UsizeMax && |c.customFirewallRules| <= UsizeMax
  }

  /** The first answers of a session give back the configuration's settings. */
  lemma SessionSettings(c: Config)
    requires Answerable(c)
    ensures Platform(Session(c)) == c.(deployedApps := [], customFirewallRules := [])
    ensures CountLine(Session(c)) == if c.useContainers then 8 else 7
  {
    var lines := Session(c);
    YesAnswers("y");
    YesAnswers("n");
    assert Answer(lines, 6) == YesNo(c.useContainers);
    if c.useContainers {
      assert Answer(lines, 7) == YesNo(c.useKubernetes);
    }
    assert Answer(lines, 0) == c.linuxDistro && Answer(lines, 1) == c.serverRole;
    assert Answer(lines, 2) == c.securityLevel && Answer(lines, 3) == YesNo(c.monitoring);
    assert Answer(lines, 4) == c.backupFrequency && Answer(lines, 5) == c.updateSchedule;
  }

  /** The rest of a session gives back the configuration's two lists. */
  lemma SessionLists(c: Config)
    requires Answerable(c)
    ensures ReadLists(Session(c), if c.useContainers then 8 else 7) == Ok((c.deployedApps, c.customFirewallRules))
  {
    var lines := Session(c);
    var k := if c.useContainers then 8 else 7;
    var n, m := |c.deployedApps|, |c.customFirewallRules|;
    assert lines[k] == Decimal(n);
    ParseDecimal(n);
    DecimalTrimmed(n);
    assert Answer(lines, k) == Decimal(n);
    assert Answers(lines, k + 1, n) == c.deployedApps;
    assert lines[k + 1 + n] == Decimal(m);
    ParseDecimal(m);
    DecimalTrimmed(m);
    assert Answer(lines, k + 1 + n) == Decimal(m);
    assert Answers(lines, k + 2 + n, m) == c.customFirewallRules;
  }

  /** Round trip: answering with a configuration's session reads that configuration back. */
  lemma SessionReadsBack(c: Config)
    requires Answerable(c)
    ensures UserInput(Session(c)) == Ok(c)
  {
    SessionSettings(c);
    SessionLists(c);
  }

  /** Digits carry no white space. */
  lemma DecimalTrimmed(n: nat)
    ensures Trim(Decimal(n)) == Decimal(n)
  {
    var d := Decimal(n);
    assert IsDigit(d[0]) && IsDigit(d[|d| - 1]);
    TrimFixed(d);
  }

  /** The settings: the flags are set exactly by "y" or "Y", Kubernetes only together with
      containers, and no text keeps surrounding white space. */
  lemma PlatformAnswers(lines: seq<string>)
    ensures var c := Platform(lines);
            (c.monitoring <==> Answer(lines, 3) in {"y", "Y"})
            && (c.useContainers <==> Answer(lines, 6) in {"y", "Y"})
            && (c.useKubernetes <==> c.useContainers && Answer(lines, 7) in {"y", "Y"})
            && Trim(c.linuxDistro) == c.linuxDistro && Trim(c.serverRole) == c.serverRole
            && Trim(c.securityLevel) == c.securityLevel && Trim(c.backupFrequency) == c.backupFrequency
            && Trim(c.updateSchedule) == c.updateSchedule
  {
    YesAnswers(Answer(lines, 3));
    YesAnswers(Answer(lines, 6));
    YesAnswers(Answer(lines, 7));
    forall k | 0 <= k < 6 {
      AnswerTrimmed(lines, k);
    }
  }

  /** Each list has as many entries as its count line says, and none keeps surrounding white
      space. */
  lemma ListsAnswers(lines: seq<string>, k: nat)
    requires ReadLists(lines, k).Ok?
    ensures var (apps, rules) := ReadLists(lines, k).value;
            ParseUsize(Answer(lines, k)) == Ok(|apps|)
            && ParseUsize(Answer(lines, k + 1 + |apps|)) == Ok(|rules|)
            && |apps| <= UsizeMax && |rules| <= UsizeMax
            && (forall i :: 0 <= i < |apps| ==> Trim(apps[i]) == apps[i])
            && (forall i :: 0 <= i < |rules| ==> Trim(rules[i]) == rules[i])
  {
    var n := ParseUsize(Answer(lines, k)).value;
    CountBound(Answer(lines, k));
    var m := ParseUsize(Answer(lines, k + 1 + n)).value;
    CountBound(Answer(lines, k + 1 + n));
    var apps, rules := Answers(lines, k + 1, n), Answers(lines, k + 2 + n, m);
    assert ReadLists(lines, k).value == (apps, rules);
    AnswersTrimmed(lines, k + 1, n);
    AnswersTrimmed(lines, k + 2 + n, m);
  }

  /** A count that parses fits in a usize. */
  lemma CountBound(s: string)
    requires ParseUsize(s).Ok?
    ensures ParseUsize(s).value <= UsizeMax
  {
    ParseUsizeAccepts(s);
  }

  lemma AnswersTrimmed(lines: seq<string>, from: nat, n: nat)
    ensures forall i :: 0 <= i < n ==> Trim(Answers(lines, from, n)[i]) == Answers(lines, from, n)[i]
  {
    forall i | 0 <= i < n ensures Trim(Answers(lines, from, n)[i]) == Answers(lines, from, n)[i] {
      AnswerTrimmed(lines, from + i);
    }
  }

  /** Every configuration the answers produce is one a session can produce. */
  lemma UserInputAnswerable(lines: seq<string>)
    requires UserInput(lines).Ok?
    ensures Answerable(UserInput(lines).value)
  {
    PlatformAnswers(lines);
    ListsAnswers(lines, CountLine(lines));
  }

  const ReportPath := "/root/server_setup_report.txt"
  const ReportTitle := "Server Setup Report\n===================\n\n"

  /** Rust's `{}` of a `bool`. */
  function BoolText(b: bool): string {
    if b then "true" else "false"
  }

  /** The eight configuration lines of the report, in their fixed order. */
  function SettingLines(c: Config): string {
    "Linux Distribution: " + c.linuxDistro + "\n"
    + "Server Role: " + c.serverRole + "\n"
    + "Security Level: " + c.securityLevel + "\n"
    + "Monitoring Enabled: " + BoolText(c.monitoring) + "\n"
    + "Backup Frequency: " + c.backupFrequency + "\n"
    + "Update Schedule: " + c.updateSchedule + "\n"
    + "Containerization: " + BoolText(c.useContainers) + "\n"
    + "Kubernetes: " + BoolText(c.useKubernetes) + "\n"
  }

  /** One list entry of the report. */
  function Bullet(item: string): string {
    "- " + item + "\n"
  }

  /** One entry per item, in list order. */
  function Bullets(items: seq<string>): string
    decreases |items|
  {
    if items == [] then [] else Bullet(items[0]) + Bullets(items[1..])
  }

  const AppsTitle := "\nDeployed Applications:\n"
  const RulesTitle := "\nCustom Firewall Rules:\n"
  const SystemTitle := "\nSystem Information:\n"

  /** The report up to its system-information block. */
  function ReportText(c: Config): string {
    ReportTitle + SettingLines(c) + AppsTitle + Bullets(c.deployedApps) + RulesTitle
    + Bullets(c.customFirewallRules) + SystemTitle
  }

  lemma {:induction false} BulletsSnoc(items: seq<string>, item: string)
    ensures Bullets(items + [item]) == Bullets(items) + Bullet(item)
    decreases |items|
  {
    if items == [] {
      assert [] + [item] == [item];
    } else {
      assert (items + [item])[1..] == items[1..] + [item];
      BulletsSnoc(items[1..], item);
    }
  }

  /** `for item in items { report.push_str(&format!("- {}\n", item)); }` */
  method AppendBullets(report: string, items: seq<string>) returns (r: string)
    ensures r == report + Bullets(items)
  {
    r := report;
    var i := 0;
    while i < |items|
      invariant 0 <= i <= |items|
      invariant r == report + Bullets(items[..i])
    {
      BulletsSnoc(items[..i], items[i]);
      assert items[..i + 1] == items[..i] + [items[i]];
      r := r + Bullet(items[i]);
      i := i + 1;
    }
    assert items[..i] == items;
  }

  /** The report text of `generate_report`, built by appending as the source does. */
  method BuildReport(c: Config) returns (report: string)
    ensures report == ReportText(c)
  {
    report := ReportTitle;
    report := report + SettingLines(c);
    report := report + AppsTitle;
    report := AppendBullets(report, c.deployedApps);
    report := report + RulesTitle;
    report := AppendBullets(report, c.customFirewallRules);
    report := report + SystemTitle;
  }

  /** `generate_report`: the report, followed by the system information `system` (the output of
      uname, lscpu and free as the host gives it), written to its fixed path. */
  method GenerateReport(h: Host, c: Config, system: string) returns (r: Outcome)
    modifies h
    ensures Exit(r, h.World()) == WriteFile(h.oracle, old(h.World()), ReportPath, Encode(ReportText(c) + system))
  {
    var report := BuildReport(c);
    r := h.WriteFile(ReportPath, Encode(report + system));
  }

  /** The first line of `s` and what follows its line feed, or None when `s` has no line feed. */
  function SplitLine(s: string): (r: Option<(string, string)>)
    ensures r.Some? ==> |r.value.1| < |s|
    decreases |s|
  {
    if s == [] then None
    else if s[0] == '\n' then Some(([], s[1..]))
    else match SplitLine(s[1..])
      case None => None
      case Some((line, rest)) => Some(([s[0]] + line, rest))
  }

  /** The entries of a list section of the report, read back line by line. */
  function ParseBullets(s: string): Option<seq<string>>
    decreases |s|
  {
    if s == [] then Some([])
    else if |s| < 2 || s[..2] != "- " then None
    else match SplitLine(s[2..])
      case None => None
      case Some((item, rest)) =>
        match ParseBullets(rest)
        case None => None
        case Some(items) => Some([item] + items)
  }

  lemma {:induction false} SplitLineAt(line: string, rest: string)
    requires '\n' !in line
    ensures SplitLine(line + "\n" + rest) == Some((line, rest))
    decreases |line|
  {
    if line == [] {
      assert line + "\n" + rest == "\n" + rest;
    } else {
      assert (line + "\n" + rest)[1..] == line[1..] + "\n" + rest;
      SplitLineAt(line[1..], rest);
      assert [line[0]] + line[1..] == line;
    }
  }

  /** Round trip: entries without a line feed are read back from their list section exactly, in
      order. */
  lemma {:induction false} BulletsReadBack(items: seq<string>)
    requires forall i :: 0 <= i < |items| ==> '\n' !in items[i]
    ensures ParseBullets(Bullets(items)) == Some(items)
    decreases |items|
  {
    if items != [] {
      var rest := Bullets(items[1..]);
      var s := Bullets(items);
      assert s == "- " + items[0] + "\n" + rest;
      assert s[..2] == "- ";
      assert s[2..] == items[0] + "\n" + rest;
      SplitLineAt(items[0], rest);
      BulletsReadBack(items[1..]);
      assert [items[0]] + items[1..] == items;
    }
  }
}
