/** The operator actions of `ambar.py` as transitions of the installer's world:
    the files it reads and writes and the commands it hands to the shell, in
    order. A strict command (`runShellCommandStrict`) that exits non-zero raises,
    and the exception ends the script; a lenient one (`runShellCommand`) has its
    status ignored. */
module Lifecycle {
  import opened Text
  import opened Ipv4
  import opened Configuration
  import opened Compose
  import opened Sysctl

  /** A shell command. Paths inside the installation directory are implicit. */
  datatype Command =
    | SetKernelParam(key: string, value: string)  // sysctl -w key=value
    | PullImage(image: string)                    // docker pull image
    | ComposePull                                 // docker-compose -f .../docker-compose.yml pull
    | ComposeUp                                   // docker-compose -f .../docker-compose.yml -p ambar up -d
    | ComposeDown                                 // docker-compose -f .../docker-compose.yml -p ambar down
    | RemoveContainersOf(image: string)           // docker rm -f of every container whose ancestor is image
    | RemoveTree(path: string)                    // rm -rf path
    | RemoveFile(path: string)                    // rm -f path
    | FetchConfig(url: string)                    // wget -O .../config.json url
    | FetchTemplate(url: string)                  // wget -O .../docker-compose.template.yml url

  /** The runner's behaviour: the commands that exit non-zero, and what the two
      downloads deliver when they succeed. */
  datatype Runner = Runner(failing: set<Command>, remoteConfig: Config, remoteTemplate: string)

  /** Everything an action can read or change. */
  datatype World = World(
    config: Config,                // the in-memory `configuration` dict
    configFile: Option<Config>,    // config.json (None: absent)
    templateFile: Option<string>,  // docker-compose.template.yml
    composeFile: Option<string>,   // docker-compose.yml, the deployment descriptor
    sysctlConf: string,            // /etc/sysctl.conf
    log: seq<Command>)             // commands handed to the shell so far

  /** The world after a step, and whether the script is still running
      (false: an exception ended it). */
  datatype Step = Step(world: World, ok: bool)

  // ---------------------------------------------------------------------------
  // Building blocks

  /** Strict commands in order; the first one that fails ends the script. */
  function RunStrict(w: World, r: Runner, cmds: seq<Command>): (s: Step)
    ensures s.world.(log := w.log) == w
    decreases |cmds|
  {
    if |cmds| == 0 then Step(w, true)
    else
      var w1 := w.(log := w.log + [cmds[0]]);
      if cmds[0] in r.failing then Step(w1, false) else RunStrict(w1, r, cmds[1..])
  }

  /** A single strict command. */
  lemma RunStrictSingle(w: World, r: Runner, cmd: Command)
    ensures RunStrict(w, r, [cmd]) == Step(w.(log := w.log + [cmd]), cmd !in r.failing)
  {
    assert [cmd][1..] == [];
  }

  /** The first of several strict commands. */
  lemma RunStrictFirst(w: World, r: Runner, cmds: seq<Command>)
    requires |cmds| > 0
    ensures RunStrict(w, r, cmds) ==
              if cmds[0] in r.failing then Step(w.(log := w.log + [cmds[0]]), false)
              else RunStrict(w.(log := w.log + [cmds[0]]), r, cmds[1..])
  {
  }

  /** The strict run of `cmds` from position `k` on, one command at a time. */
  lemma RunStrictAt(w: World, r: Runner, cmds: seq<Command>, k: nat)
    requires k < |cmds|
    ensures RunStrict(w, r, cmds[k..]) ==
              if cmds[k] in r.failing then Step(w.(log := w.log + [cmds[k]]), false)
              else RunStrict(w.(log := w.log + [cmds[k]]), r, cmds[k + 1..])
  {
    assert cmds[k..][1..] == cmds[k + 1..];
  }

  /** How many of `cmds` a strict run issues: up to and including the first failing one. */
  function Issued(cmds: seq<Command>, failing: set<Command>): (n: nat)
    ensures n <= |cmds|
    decreases |cmds|
  {
    if |cmds| == 0 then 0
    else if cmds[0] in failing then 1
    else 1 + Issued(cmds[1..], failing)
  }

  /** `setRunTimeOsConstants` (ambar.py:105-111). */
  const LiveTuningCommands: seq<Command> := [
    SetKernelParam("vm.max_map_count", "262144"),
    SetKernelParam("net.ipv4.ip_local_port_range", "\"15000 61000\""),
    SetKernelParam("net.ipv4.tcp_fin_timeout", "30"),
    SetKernelParam("net.core.somaxconn", "1024"),
    SetKernelParam("net.core.netdev_max_backlog", "2000"),
    SetKernelParam("net.ipv4.tcp_max_syn_backlog", "2048")
  ]

  /** `pullImages` (ambar.py:113-118). */
  function PullCommands(c: Config): seq<Command>
  {
    [PullImage(c.dockerRepo + "/ambar-crawler:latest"),
     PullImage(c.dockerRepo + "/ambar-pipeline:latest"),
     ComposePull]
  }

  /** `stop` (ambar.py:246-254): crawlers, pipelines, then the compose project. */
  function StopCommands(c: Config): seq<Command>
  {
    [RemoveContainersOf(c.dockerRepo + "/ambar-crawler"),
     RemoveContainersOf(c.dockerRepo + "/ambar-pipeline"),
     ComposeDown]
  }

  /** The files `uninstall` removes after the data directory, as written:
      relative to the working directory. */
  const UninstallFiles: seq<string> := ["./config.json", "./docker-compose.template.yml", "./docker-compose.yml"]

  /** `generateDockerCompose`: read the template, render, overwrite the descriptor.
      A missing template raises. */
  function Generate(w: World): Step
    requires Enriched(w.config)
  {
    match w.templateFile
    case None => Step(w, false)
    case Some(t) => Step(w.(composeFile := Some(Render(t, w.config))), true)
  }

  /** `downloadDockerComposeTemplate` with the key spelled `dockerComposeTemplate`. */
  function DownloadTemplate(w: World, r: Runner): (s: Step)
    ensures s.world.(log := w.log, templateFile := w.templateFile) == w
  {
    var fetched := RunStrict(w, r, [FetchTemplate(w.config.dockerComposeTemplate)]);
    if fetched.ok then Step(fetched.world.(templateFile := Some(r.remoteTemplate)), true) else fetched
  }

  /** `downloadDockerComposeTemplate` as written (ambar.py:197): the URL is looked
      up under the key `'dockerCom   poseTemplate'`. */
  function DownloadTemplateAsWritten(w: World, r: Runner): Step
  {
    match TopLevelString(w.config, "dockerCom   poseTemplate")
    case None => Step(w, false)
    case Some(url) =>
      var fetched := RunStrict(w, r, [FetchTemplate(url)]);
      if fetched.ok then Step(fetched.world.(templateFile := Some(r.remoteTemplate)), true) else fetched
  }

  /** `loadConfigFromFile`: a missing file raises; otherwise parse and enrich. */
  function LoadConfig(w: World): Step
  {
    match w.configFile
    case None => Step(w, false)
    case Some(c) => Step(w.(config := Enrich(c)), true)
  }

  /** `loadFromWeb`: download config.json, then load it. */
  function LoadFromWeb(w: World, r: Runner, url: string): Step
  {
    var fetched := RunStrict(w, r, [FetchConfig(url)]);
    if fetched.ok then LoadConfig(fetched.world.(configFile := Some(r.remoteConfig))) else fetched
  }

  // ---------------------------------------------------------------------------
  // The install prompts

  /** The host prompt (ambar.py:205-214): `y` in any case takes the machine
      address, an address the check accepts is taken as typed (lower-cased),
      anything else ends the install. */
  function HostChoice(answer: string, machineAddress: string): Option<string>
  {
    var a := Lower(answer);
    if a == "y" then Some(machineAddress)
    else if IsValidIpV4(a) then Some(a)
    else None
  }

  /** The port prompt (ambar.py:218-227): the new port for both endpoints, or
      None to keep the ports (`y`, or an answer `int()` rejects or that lies
      outside [0, 65535], which is only reported). */
  function PortChoice(answer: string): Option<string>
  {
    var a := Lower(answer);
    if a == "y" then None
    else
      match ParseInt(a)
      case Some(n) => if 0 <= n <= 65535 then Some(a) else None
      case None => None
  }

  // ---------------------------------------------------------------------------
  // The actions

  /** The configuration after the prompts accepted host `host`. */
  function Prompted(c: Config, host: string, portAnswer: string): (r: Config)
    requires Enriched(c)
    ensures Enriched(r)
  {
    var withHost := WithHosts(c, host);
    match PortChoice(portAnswer)
    case Some(port) => WithPorts(withHost, port)
    case None => withHost
  }

  /** ambar.py:230-235: persist `c`, render, pull, tune the kernel for good. */
  function Deploy(w: World, r: Runner, c: Config): Step
    requires Enriched(c)
  {
    var rendered := Generate(w.(config := c, configFile := Some(c)));
    if !rendered.ok then rendered
    else
      var pulled := RunStrict(rendered.world, r, PullCommands(c));
      if !pulled.ok then pulled
      else Step(pulled.world.(sysctlConf := Tuned(pulled.world.sysctlConf)), true)
  }

  /** The deployment tail overwrites the loaded configuration with `c`. */
  lemma DeployOverwritesConfig(w: World, r: Runner, c: Config)
    requires Enriched(c)
    ensures Deploy(w.(config := c), r, c) == Deploy(w, r, c)
  {
    assert w.(config := c).(config := c, configFile := Some(c)) == w.(config := c, configFile := Some(c));
  }

  /** `install` (ambar.py:199-235) on a loaded configuration. */
  function AfterInstall(w: World, r: Runner, machineAddress: string, hostAnswer: string, portAnswer: string): Step
    requires Enriched(w.config)
  {
    var fetched := DownloadTemplate(w, r);
    if !fetched.ok then fetched
    else
      match HostChoice(hostAnswer, machineAddress)
      case None => fetched
      case Some(host) => Deploy(fetched.world, r, Prompted(w.config, host, portAnswer))
  }

  /** `install` past a successful download and an accepted host is `Deploy`. */
  lemma InstallSteps(w: World, r: Runner, machineAddress: string, hostAnswer: string, portAnswer: string, host: string)
    requires Enriched(w.config)
    requires DownloadTemplate(w, r).ok && HostChoice(hostAnswer, machineAddress) == Some(host)
    ensures AfterInstall(w, r, machineAddress, hostAnswer, portAnswer) ==
              Deploy(DownloadTemplate(w, r).world, r, Prompted(w.config, host, portAnswer))
  {
  }

  /** `install` with the download as written. */
  function AfterInstallAsWritten(w: World, r: Runner, machineAddress: string, hostAnswer: string, portAnswer: string): Step
    requires Enriched(w.config)
  {
    var fetched := DownloadTemplateAsWritten(w, r);
    if !fetched.ok then fetched
    else AfterInstall(w, r, machineAddress, hostAnswer, portAnswer)
  }

  /** `update` with the download as written. */
  function AfterUpdateAsWritten(w: World, r: Runner): Step
    requires Enriched(w.config)
  {
    var fetched := DownloadTemplateAsWritten(AfterStop(w), r);
    if !fetched.ok then fetched else AfterUpdate(w, r)
  }

  /** `start` (ambar.py:237-244): live tuning, render, bring the project up. */
  function AfterStart(w: World, r: Runner): Step
    requires Enriched(w.config)
  {
    var tuned := RunStrict(w, r, LiveTuningCommands);
    if !tuned.ok then tuned
    else
      var rendered := Generate(tuned.world);
      if !rendered.ok then rendered else RunStrict(rendered.world, r, [ComposeUp])
  }

  /** `stop`: every command is lenient, so the runner does not matter. */
  function AfterStop(w: World): World
  {
    w.(log := w.log + StopCommands(w.config))
  }

  /** `update` (ambar.py:256-261). */
  function AfterUpdate(w: World, r: Runner): Step
    requires Enriched(w.config)
  {
    var fetched := DownloadTemplate(AfterStop(w), r);
    if !fetched.ok then fetched
    else
      var rendered := Generate(fetched.world);
      if !rendered.ok then rendered
      else
        var pulled := RunStrict(rendered.world, r, PullCommands(w.config));
        if !pulled.ok then pulled else AfterStart(pulled.world, r)
  }

  /** `restart` (ambar.py:263-265). */
  function AfterRestart(w: World, r: Runner): Step
    requires Enriched(w.config)
  {
    AfterStart(AfterStop(w), r)
  }

  /** `reset` (ambar.py:267-277). */
  function AfterReset(w: World, answer: string): Step
  {
    if Lower(answer) != "y" then Step(w, true)
    else
      var stopped := AfterStop(w);
      Step(stopped.(log := stopped.log + [RemoveTree(w.config.dataPath)]), true)
  }

  /** `uninstall` (ambar.py:279-292). The three `rm -f` paths are relative to
      the working directory: when that is the installation directory
      (`inInstallDir`) they delete config.json, the template and the
      descriptor; otherwise they miss them. `rm -f` ignores a missing file. */
  function AfterUninstall(w: World, answer: string, inInstallDir: bool): Step
  {
    if Lower(answer) != "y" then Step(w, true)
    else
      var stopped := AfterStop(w);
      var removed := stopped.(log := stopped.log + [RemoveTree(w.config.dataPath)] +
                                     [RemoveFile(UninstallFiles[0]), RemoveFile(UninstallFiles[1]), RemoveFile(UninstallFiles[2])]);
      if inInstallDir then Step(removed.(configFile := None, templateFile := None, composeFile := None), true)
      else Step(removed, true)
  }

  datatype Action = Install | Start | Stop | Restart | Update | Reset | Uninstall

  /** The command-line options the actions read, and whether the script runs
      from the installation directory, its own. */
  datatype Options = Options(useLocalConfig: bool, configUrl: string, inInstallDir: bool)

  /** What the operator types at the prompts, and the machine address the
      installer looks up. */
  datatype Answers = Answers(machineAddress: string, host: string, port: string, confirmation: string)

  /** The dispatch at ambar.py:297-334: load the configuration (from the web
      for an install without `--useLocalConfig`), then run the action. */
  function Execute(w: World, r: Runner, action: Action, opts: Options, answers: Answers): Step
  {
    var loaded := if action == Install && !opts.useLocalConfig then LoadFromWeb(w, r, opts.configUrl) else LoadConfig(w);
    if !loaded.ok then loaded
    else
      var v := loaded.world;
      match action
      case Install => AfterInstall(v, r, answers.machineAddress, answers.host, answers.port)
      case Start => AfterStart(v, r)
      case Stop => Step(AfterStop(v), true)
      case Restart => AfterRestart(v, r)
      case Update => AfterUpdate(v, r)
      case Reset => AfterReset(v, answers.confirmation)
      case Uninstall => AfterUninstall(v, answers.confirmation, opts.inInstallDir)
  }
}
