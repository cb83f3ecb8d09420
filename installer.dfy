/** The installer script as an object: the in-memory configuration and the
    files it touches are fields, each function of `ambar.py` that reads or
    changes them is a method that updates them in place, and every method is
    proved to leave exactly the world its specification in `Lifecycle`
    describes. */
module Installation {
  import opened Text
  import opened Ipv4
  import opened Configuration
  import opened Compose
  import opened Sysctl
  import opened Lifecycle

  class Installer {
    var config: Config
    var configFile: Option<Config>
    var templateFile: Option<string>
    var composeFile: Option<string>
    var sysctlConf: string
    var log: seq<Command>
    /** The shell the commands run in. */
    const runner: Runner

    /** The fields as one value. */
    ghost function State(): World
      reads this
    {
      World(config, configFile, templateFile, composeFile, sysctlConf, log)
    }

    constructor (w: World, r: Runner)
      ensures State() == w && runner == r
    {
      config := w.config;
      configFile := w.configFile;
      templateFile := w.templateFile;
      composeFile := w.composeFile;
      sysctlConf := w.sysctlConf;
      log := w.log;
      runner := r;
    }

    /** `runShellCommandStrict` (ambar.py:62-63): false means the command
        exited non-zero and raised. */
    method RunShellCommandStrict(cmd: Command) returns (ok: bool)
      modifies this
      ensures State() == old(State()).(log := old(log) + [cmd])
      ensures ok <==> cmd !in runner.failing
    {
      log := log + [cmd];
      ok := cmd !in runner.failing;
    }

    /** `runShellCommand` (ambar.py:65-66): the status is reported, not raised. */
    method RunShellCommand(cmd: Command) returns (exitedZero: bool)
      modifies this
      ensures State() == old(State()).(log := old(log) + [cmd])
      ensures exitedZero <==> cmd !in runner.failing
    {
      log := log + [cmd];
      exitedZero := cmd !in runner.failing;
    }

    /** `writeOsConstantIfNotExist` (ambar.py:88-90): append the line when the
        key does not occur in the snapshot. */
    method WriteOsConstantIfNotExist(snapshot: string, key: string, value: string)
      modifies this
      ensures State() == old(State()).(sysctlConf := old(sysctlConf) + LineIfMissing(snapshot, Param(key, value)))
    {
      if Find(snapshot, key) == -1 {
        sysctlConf := sysctlConf + key + "=" + value + "\n";
      }
    }

    /** `setOsConstants` (ambar.py:92-103): one snapshot, six conditional appends. */
    method SetOsConstants()
      modifies this
      ensures State() == old(State()).(sysctlConf := Tuned(old(sysctlConf)))
    {
      var snapshot := sysctlConf;
      var params := KernelParams;
      assert params[0..] == params;
      TunedProgress(snapshot, sysctlConf, 0);
      WriteOsConstantIfNotExist(snapshot, params[0].key, params[0].value);
      TunedProgress(snapshot, sysctlConf, 1);
      WriteOsConstantIfNotExist(snapshot, params[1].key, params[1].value);
      TunedProgress(snapshot, sysctlConf, 2);
      WriteOsConstantIfNotExist(snapshot, params[2].key, params[2].value);
      TunedProgress(snapshot, sysctlConf, 3);
      WriteOsConstantIfNotExist(snapshot, params[3].key, params[3].value);
      TunedProgress(snapshot, sysctlConf, 4);
      WriteOsConstantIfNotExist(snapshot, params[4].key, params[4].value);
      TunedProgress(snapshot, sysctlConf, 5);
      WriteOsConstantIfNotExist(snapshot, params[5].key, params[5].value);
      assert params[6..] == [];
    }

    /** `setRunTimeOsConstants` (ambar.py:105-111). */
    method SetRunTimeOsConstants() returns (ok: bool)
      modifies this
      ensures State() == RunStrict(old(State()), runner, LiveTuningCommands).world
      ensures ok == RunStrict(old(State()), runner, LiveTuningCommands).ok
    {
      var cmds := LiveTuningCommands;
      ghost var w := State();
      assert cmds[0..] == cmds;
      RunStrictAt(w, runner, cmds, 0);
      ok := RunShellCommandStrict(cmds[0]);
      if ok {
        RunStrictAt(State(), runner, cmds, 1);
        ok := RunShellCommandStrict(cmds[1]);
        if ok {
          RunStrictAt(State(), runner, cmds, 2);
          ok := RunShellCommandStrict(cmds[2]);
          if ok {
            RunStrictAt(State(), runner, cmds, 3);
            ok := RunShellCommandStrict(cmds[3]);
            if ok {
              RunStrictAt(State(), runner, cmds, 4);
              ok := RunShellCommandStrict(cmds[4]);
              if ok {
                RunStrictAt(State(), runner, cmds, 5);
                ok := RunShellCommandStrict(cmds[5]);
                assert cmds[6..] == [];
              }
            }
          }
        }
      }
    }

    /** `pullImages` (ambar.py:113-118). */
    method PullImages() returns (ok: bool)
      modifies this
      ensures State() == RunStrict(old(State()), runner, PullCommands(old(config))).world
      ensures ok == RunStrict(old(State()), runner, PullCommands(old(config))).ok
    {
      var dockerRepo := config.dockerRepo;
      ghost var cmds := PullCommands(config);
      RunStrictFirst(State(), runner, cmds);
      ok := RunShellCommandStrict(PullImage(dockerRepo + "/ambar-crawler:latest"));
      if !ok { return; }
      RunStrictFirst(State(), runner, cmds[1..]);
      ok := RunShellCommandStrict(PullImage(dockerRepo + "/ambar-pipeline:latest"));
      if !ok { return; }
      assert cmds[1..][1..] == [ComposePull];
      RunStrictSingle(State(), runner, ComposePull);
      ok := RunShellCommandStrict(ComposePull);
    }

    /** `generateDockerCompose` (ambar.py:126-178); a missing template raises. */
    method GenerateDockerCompose() returns (ok: bool)
      requires Enriched(config)
      modifies this
      ensures State() == Generate(old(State())).world && ok == Generate(old(State())).ok
    {
      match templateFile
      case None =>
        ok := false;
      case Some(composeTemplate) =>
        composeFile := Some(Render(composeTemplate, config));
        ok := true;
    }

    /** `loadConfigFromFile` (ambar.py:180-189): parse, then add each missing
        `public_uri` in place. */
    method LoadConfigFromFile() returns (ok: bool)
      modifies this
      ensures State() == LoadConfig(old(State())).world && ok == LoadConfig(old(State())).ok
      ensures ok ==> Enriched(config)
    {
      if configFile.None? {
        return false;
      }
      config := configFile.value;
      if config.api.external.publicUri.None? {
        var e := config.api.external;
        config := config.(api := config.api.(external := e.(publicUri := Some(e.protocol + "://" + e.host + ":" + e.port))));
      }
      if config.fe.external.publicUri.None? {
        var e := config.fe.external;
        config := config.(fe := config.fe.(external := e.(publicUri := Some(e.protocol + "://" + e.host + ":" + e.port))));
      }
      ok := true;
    }

    /** `loadFromWeb` (ambar.py:191-193). */
    method LoadFromWeb(configUrl: string) returns (ok: bool)
      modifies this
      ensures State() == Lifecycle.LoadFromWeb(old(State()), runner, configUrl).world
      ensures ok == Lifecycle.LoadFromWeb(old(State()), runner, configUrl).ok
      ensures ok ==> Enriched(config)
    {
      RunStrictSingle(State(), runner, FetchConfig(configUrl));
      ok := RunShellCommandStrict(FetchConfig(configUrl));
      if !ok { return; }
      configFile := Some(runner.remoteConfig);
      ok := LoadConfigFromFile();
    }

    /** `downloadDockerComposeTemplate` (ambar.py:195-197), with the key spelled
        `dockerComposeTemplate`. */
    method DownloadDockerComposeTemplate() returns (ok: bool)
      modifies this
      ensures State() == DownloadTemplate(old(State()), runner).world
      ensures ok == DownloadTemplate(old(State()), runner).ok
    {
      RunStrictSingle(State(), runner, FetchTemplate(config.dockerComposeTemplate));
      ok := RunShellCommandStrict(FetchTemplate(config.dockerComposeTemplate));
      if ok {
        templateFile := Some(runner.remoteTemplate);
      }
    }

    /** The host prompt of `install` (ambar.py:204-214): both hosts take the
        answer's choice; false when the answer is refused and `install` returns. */
    method AskHost(machineAddress: string, hostAnswer: string) returns (accepted: bool)
      modifies this
      ensures accepted <==> HostChoice(hostAnswer, machineAddress).Some?
      ensures accepted ==> State() == old(State()).(config := WithHosts(old(config), HostChoice(hostAnswer, machineAddress).value))
      ensures !accepted ==> State() == old(State())
    {
      var userInput := Lower(hostAnswer);
      var host;
      if userInput == "y" {
        host := machineAddress;
      } else if IsValidIpV4(userInput) {
        host := userInput;
      } else {
        return false;
      }
      config := config.(api := config.api.(external := config.api.external.(host := host)));
      config := config.(fe := config.fe.(external := config.fe.external.(host := host)));
      accepted := true;
    }

    /** The port prompt of `install` (ambar.py:216-227): an accepted port
        becomes both ports; a refused one is only reported. */
    method AskPort(portAnswer: string)
      modifies this
      ensures PortChoice(portAnswer).Some? ==> State() == old(State()).(config := WithPorts(old(config), PortChoice(portAnswer).value))
      ensures PortChoice(portAnswer).None? ==> State() == old(State())
    {
      var userInput := Lower(portAnswer);
      if userInput != "y" {
        var userPort := ParseInt(userInput);
        if userPort.Some? && 0 <= userPort.value <= 65535 {
          config := config.(api := config.api.(external := config.api.external.(port := userInput)));
          config := config.(fe := config.fe.(external := config.fe.external.(port := userInput)));
        }
      }
    }

    /** `install` (ambar.py:199-235). */
    method Install(machineAddress: string, hostAnswer: string, portAnswer: string) returns (ok: bool)
      requires Enriched(config)
      modifies this
      ensures State() == AfterInstall(old(State()), runner, machineAddress, hostAnswer, portAnswer).world
      ensures ok == AfterInstall(old(State()), runner, machineAddress, hostAnswer, portAnswer).ok
    {
      ghost var start := State();
      ok := DownloadDockerComposeTemplate();
      if !ok { return; }
      ghost var fetched := State();
      assert DownloadTemplate(start, runner) == Step(fetched, true);

      var accepted := AskHost(machineAddress, hostAnswer);
      if !accepted { return; }
      ghost var host := HostChoice(hostAnswer, machineAddress).value;
      AskPort(portAnswer);
      ghost var c := Prompted(start.config, host, portAnswer);
      assert State() == fetched.(config := c);
      InstallSteps(start, runner, machineAddress, hostAnswer, portAnswer, host);
      DeployOverwritesConfig(fetched, runner, c);
      ok := Deploy();
    }

    /** The tail of `install` (ambar.py:229-235): persist the configuration,
        render, pull, tune sysctl.conf for good. */
    method Deploy() returns (ok: bool)
      requires Enriched(config)
      modifies this
      ensures State() == Lifecycle.Deploy(old(State()), runner, old(config)).world
      ensures ok == Lifecycle.Deploy(old(State()), runner, old(config)).ok
    {
      configFile := Some(config);
      ok := GenerateDockerCompose();
      if !ok { return; }
      ok := PullImages();
      if !ok { return; }
      SetOsConstants();
    }

    /** `start` (ambar.py:237-244); the wait and the messages are not modelled. */
    method Start() returns (ok: bool)
      requires Enriched(config)
      modifies this
      ensures State() == AfterStart(old(State()), runner).world && ok == AfterStart(old(State()), runner).ok
    {
      ok := SetRunTimeOsConstants();
      if !ok { return; }
      ok := GenerateDockerCompose();
      if !ok { return; }
      ok := RunShellCommandStrict(ComposeUp);
    }

    /** `stop` (ambar.py:246-254). */
    method Stop()
      modifies this
      ensures State() == AfterStop(old(State()))
    {
      var dockerRepo := config.dockerRepo;
      var _ := RunShellCommand(RemoveContainersOf(dockerRepo + "/ambar-crawler"));
      var _ := RunShellCommand(RemoveContainersOf(dockerRepo + "/ambar-pipeline"));
      var _ := RunShellCommand(ComposeDown);
    }

    /** `update` (ambar.py:256-261). */
    method Update() returns (ok: bool)
      requires Enriched(config)
      modifies this
      ensures State() == AfterUpdate(old(State()), runner).world && ok == AfterUpdate(old(State()), runner).ok
    {
      Stop();
      ok := DownloadDockerComposeTemplate();
      if !ok { return; }
      ok := GenerateDockerCompose();
      if !ok { return; }
      ok := PullImages();
      if !ok { return; }
      ok := Start();
    }

    /** `restart` (ambar.py:263-265). */
    method Restart() returns (ok: bool)
      requires Enriched(config)
      modifies this
      ensures State() == AfterRestart(old(State()), runner).world && ok == AfterRestart(old(State()), runner).ok
    {
      Stop();
      ok := Start();
    }

    /** `reset` (ambar.py:267-277). */
    method Reset(answer: string)
      modifies this
      ensures State() == AfterReset(old(State()), answer).world
    {
      var dataPath := config.dataPath;
      var choice := Lower(answer);
      if choice != "y" {
        return;
      }
      Stop();
      var _ := RunShellCommand(RemoveTree(dataPath));
    }

    /** `uninstall` (ambar.py:279-292); `inInstallDir` says whether the
        working directory, which the three `rm -f` paths are relative to, is
        the installation directory. */
    method Uninstall(answer: string, inInstallDir: bool)
      modifies this
      ensures State() == AfterUninstall(old(State()), answer, inInstallDir).world
    {
      var dataPath := config.dataPath;
      var choice := Lower(answer);
      if choice != "y" {
        return;
      }
      Stop();
      var _ := RunShellCommand(RemoveTree(dataPath));
      var _ := RunShellCommand(RemoveFile("./config.json"));
      if inInstallDir { configFile := None; }
      var _ := RunShellCommand(RemoveFile("./docker-compose.template.yml"));
      if inInstallDir { templateFile := None; }
      var _ := RunShellCommand(RemoveFile("./docker-compose.yml"));
      if inInstallDir { composeFile := None; }
    }

    /** The dispatch (ambar.py:297-334): load the configuration, run the action. */
    method Run(action: Action, opts: Options, answers: Answers) returns (ok: bool)
      modifies this
      ensures State() == Execute(old(State()), runner, action, opts, answers).world
      ensures ok == Execute(old(State()), runner, action, opts, answers).ok
    {
      if action == Action.Install && !opts.useLocalConfig {
        ok := LoadFromWeb(opts.configUrl);
      } else {
        ok := LoadConfigFromFile();
      }
      if !ok { return; }
      match action
      case Install =>
        ok := Install(answers.machineAddress, answers.host, answers.port);
      case Start =>
        ok := Start();
      case Stop =>
        Stop();
      case Restart =>
        ok := Restart();
      case Update =>
        ok := Update();
      case Reset =>
        Reset(answers.confirmation);
      case Uninstall =>
        Uninstall(answers.confirmation, opts.inInstallDir);
    }
  }
}
