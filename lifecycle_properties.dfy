/** What the operator actions promise: which commands each issues and in which
    order, what a failing command cuts off, which files each may change, how
    the install prompts decide, and the key misspelling of the template
    download. */
module LifecycleProperties {
  import opened Text
  import opened Ipv4
  import opened Configuration
  import opened Compose
  import opened Sysctl
  import opened Lifecycle

  // ---------------------------------------------------------------------------
  // Strict commands

  /** A strict run issues its commands in order up to and including the first
      failing one, succeeds exactly when none fails, and changes nothing but
      the log. */
  lemma {:induction false} RunStrictOutcome(w: World, r: Runner, cmds: seq<Command>)
    ensures var s := RunStrict(w, r, cmds);
            var n := Issued(cmds, r.failing);
            s.world == w.(log := w.log + cmds[..n]) &&
            (s.ok <==> forall i :: 0 <= i < |cmds| ==> cmds[i] !in r.failing) &&
            (s.ok ==> n == |cmds|) &&
            (!s.ok ==> n > 0 && cmds[n - 1] in r.failing) &&
            (forall i :: 0 <= i < n - 1 ==> cmds[i] !in r.failing)
    decreases |cmds|
  {
    if |cmds| > 0 {
      var w1 := w.(log := w.log + [cmds[0]]);
      if cmds[0] !in r.failing {
        RunStrictOutcome(w1, r, cmds[1..]);
        var n := Issued(cmds[1..], r.failing);
        assert cmds[..n + 1] == [cmds[0]] + cmds[1..][..n];
        assert w.log + cmds[..n + 1] == w1.log + cmds[1..][..n];
        forall i | 0 <= i < |cmds[1..]| && cmds[1..][i] !in r.failing
          ensures cmds[i + 1] !in r.failing
        {
        }
      } else {
        assert cmds[..1] == [cmds[0]];
      }
    }
  }

  /** Strict commands that all succeed: every one is issued. */
  lemma RunStrictAllSucceed(w: World, r: Runner, cmds: seq<Command>)
    requires forall i :: 0 <= i < |cmds| ==> cmds[i] !in r.failing
    ensures RunStrict(w, r, cmds) == Step(w.(log := w.log + cmds), true)
  {
    RunStrictOutcome(w, r, cmds);
    assert cmds[..|cmds|] == cmds;
  }

  /** A strict run succeeds exactly when none of its commands fails. */
  lemma RunStrictSucceedsExactly(w: World, r: Runner, cmds: seq<Command>)
    ensures RunStrict(w, r, cmds).ok <==> forall i :: 0 <= i < |cmds| ==> cmds[i] !in r.failing
  {
    RunStrictOutcome(w, r, cmds);
  }

  /** The live tuning of `start` sets the same parameters to the same values,
      in the same order, as the persistent tuning of `install`. */
  lemma LiveTuningMatchesPersistent()
    ensures |LiveTuningCommands| == |KernelParams|
    ensures forall i :: 0 <= i < |KernelParams| ==>
              LiveTuningCommands[i] == SetKernelParam(KernelParams[i].key, KernelParams[i].value)
  {
  }

  // ---------------------------------------------------------------------------
  // The template download and its misspelt key

  /** The corrected download fetches the configured URL and, when the fetch
      succeeds, the template file holds what the runner delivered. */
  lemma DownloadTemplateOutcome(w: World, r: Runner)
    ensures var s := DownloadTemplate(w, r);
            var fetch := FetchTemplate(w.config.dockerComposeTemplate);
            s.world.log == w.log + [fetch] &&
            (s.ok <==> fetch !in r.failing) &&
            s.world.templateFile == (if s.ok then Some(r.remoteTemplate) else w.templateFile)
  {
    RunStrictOutcome(w, r, [FetchTemplate(w.config.dockerComposeTemplate)]);
  }

  /** As written, the download raises `KeyError` for every configuration,
      before any command is issued. */
  lemma DownloadAsWrittenAlwaysFails(w: World, r: Runner)
    ensures DownloadTemplateAsWritten(w, r) == Step(w, false)
  {
    assert "dockerCom   poseTemplate" != "dockerComposeTemplate" by {
      assert "dockerCom   poseTemplate"[9] != "dockerComposeTemplate"[9];
    }
    assert "dockerCom   poseTemplate" != "dockerRepo" && "dockerCom   poseTemplate" != "dataPath";
  }

  /** Hence, as written, `install` never gets past its first line: no prompt,
      no file written, no command issued. */
  lemma InstallAsWrittenNeverInstalls(w: World, r: Runner, machineAddress: string, hostAnswer: string, portAnswer: string)
    requires Enriched(w.config)
    ensures AfterInstallAsWritten(w, r, machineAddress, hostAnswer, portAnswer) == Step(w, false)
  {
    DownloadAsWrittenAlwaysFails(w, r);
  }

  /** And, as written, `update` stops the deployment and then fails, leaving it down. */
  lemma UpdateAsWrittenLeavesStopped(w: World, r: Runner)
    requires Enriched(w.config)
    ensures AfterUpdateAsWritten(w, r) == Step(AfterStop(w), false)
  {
    DownloadAsWrittenAlwaysFails(AfterStop(w), r);
  }

  // ---------------------------------------------------------------------------
  // start, stop, restart, update

  /** `start` succeeds exactly when every live tuning command and the compose
      up succeed and a template is present; then it has issued exactly those
      commands, in order, and the descriptor is the render of the template.
      Whatever happens, only the log and the descriptor change. */
  lemma StartOutcome(w: World, r: Runner)
    requires Enriched(w.config)
    ensures var s := AfterStart(w, r);
            (s.ok <==> (forall i :: 0 <= i < |LiveTuningCommands| ==> LiveTuningCommands[i] !in r.failing) &&
                       w.templateFile.Some? && ComposeUp !in r.failing) &&
            (s.ok ==> s.world == w.(composeFile := Some(Render(w.templateFile.value, w.config)),
                                    log := w.log + LiveTuningCommands + [ComposeUp])) &&
            s.world.(log := w.log, composeFile := w.composeFile) == w
  {
    var cmds := LiveTuningCommands;
    RunStrictSucceedsExactly(w, r, cmds);
    if RunStrict(w, r, cmds).ok {
      RunStrictAllSucceed(w, r, cmds);
      var tuned := w.(log := w.log + cmds);
      if w.templateFile.Some? {
        RunStrictSingle(Generate(tuned).world, r, ComposeUp);
      }
    }
  }

  /** `stop` issues its three teardown commands whatever their status, and
      changes nothing else. */
  lemma StopOutcome(w: World)
    ensures AfterStop(w).log == w.log + StopCommands(w.config)
    ensures AfterStop(w).(log := w.log) == w
    ensures |AfterStop(w).log| == |w.log| + 3 && AfterStop(w).log[|w.log| + 2] == ComposeDown
  {
  }

  /** `restart` is `stop` then `start`: when it succeeds, the teardown comes
      first and the project is brought up last. */
  lemma RestartOutcome(w: World, r: Runner)
    requires Enriched(w.config)
    ensures var s := AfterRestart(w, r);
            (s.ok <==> AfterStart(w, r).ok) &&
            (s.ok ==> s.world.log == w.log + StopCommands(w.config) + LiveTuningCommands + [ComposeUp])
  {
    StartOutcome(w, r);
    StartOutcome(AfterStop(w), r);
  }

  /** `update` on success: stop, fetch the template, pull, then start; the
      descriptor is the render of the fresh template and the configuration is
      untouched. */
  lemma UpdateOutcome(w: World, r: Runner)
    requires Enriched(w.config)
    ensures var s := AfterUpdate(w, r);
            (s.ok <==> FetchTemplate(w.config.dockerComposeTemplate) !in r.failing &&
                       (forall i :: 0 <= i < 3 ==> PullCommands(w.config)[i] !in r.failing) &&
                       (forall i :: 0 <= i < |LiveTuningCommands| ==> LiveTuningCommands[i] !in r.failing) &&
                       ComposeUp !in r.failing) &&
            (s.ok ==> s.world == w.(templateFile := Some(r.remoteTemplate),
                                    composeFile := Some(Render(r.remoteTemplate, w.config)),
                                    log := w.log + StopCommands(w.config) + [FetchTemplate(w.config.dockerComposeTemplate)] +
                                           PullCommands(w.config) + LiveTuningCommands + [ComposeUp]))
  {
    var stopped := AfterStop(w);
    DownloadTemplateOutcome(stopped, r);
    var fetched := DownloadTemplate(stopped, r);
    if fetched.ok {
      var rendered := Generate(fetched.world);
      var pulls := PullCommands(w.config);
      RunStrictSucceedsExactly(rendered.world, r, pulls);
      var pulled := RunStrict(rendered.world, r, pulls);
      if pulled.ok {
        RunStrictAllSucceed(rendered.world, r, pulls);
        StartOutcome(pulled.world, r);
      }
    }
  }

  // ---------------------------------------------------------------------------
  // reset and uninstall

  /** `reset` does anything only when the operator answers `y` or `Y`; then it
      stops the deployment and removes the data directory. No file of the
      installer changes either way. */
  lemma ResetOutcome(w: World, answer: string)
    ensures var s := AfterReset(w, answer);
            s.ok && s.world.(log := w.log) == w &&
            (s.world.log == w.log <==> answer != "y" && answer != "Y") &&
            ((answer == "y" || answer == "Y") ==>
               s.world.log == w.log + StopCommands(w.config) + [RemoveTree(w.config.dataPath)])
  {
    LowerIsY(answer);
    if answer == "y" || answer == "Y" {
      assert |AfterReset(w, answer).world.log| == |w.log| + 4;
    }
  }

  /** `uninstall` asks the same question and does what `reset` does, then
      removes the three installer files: from the world when it runs from the
      installation directory, from nowhere otherwise. */
  lemma UninstallOutcome(w: World, answer: string, inInstallDir: bool)
    ensures var s := AfterUninstall(w, answer, inInstallDir);
            var yes := answer == "y" || answer == "Y";
            s.ok &&
            s.world.(log := w.log) ==
              (if yes && inInstallDir then w.(configFile := None, templateFile := None, composeFile := None) else w) &&
            (s.world.log == w.log <==> !yes) &&
            (yes ==>
               s.world.log == AfterReset(w, answer).world.log +
                              [RemoveFile("./config.json"), RemoveFile("./docker-compose.template.yml"),
                               RemoveFile("./docker-compose.yml")])
  {
    LowerIsY(answer);
    if answer == "y" || answer == "Y" {
      assert |AfterUninstall(w, answer, inInstallDir).world.log| == |w.log| + 7;
    }
  }

  /** After a confirmed `uninstall` from the installation directory, every
      action but a web install fails on the missing config.json and issues
      no command. */
  lemma UninstallEndsInstallation(w: World, r: Runner, answer: string, action: Action, opts: Options, answers: Answers)
    requires answer == "y" || answer == "Y"
    requires action != Install || opts.useLocalConfig
    ensures var u := AfterUninstall(w, answer, true).world;
            Execute(u, r, action, opts, answers) == Step(u, false)
  {
    UninstallOutcome(w, answer, true);
    MissingConfigAborts(AfterUninstall(w, answer, true).world, r, action, opts, answers);
  }

  /** The loaded configuration, config.json and sysctl.conf are as in `w`. */
  predicate KeepsSettings(s: Step, w: World)
  {
    s.world.config == w.config && s.world.configFile == w.configFile && s.world.sysctlConf == w.sysctlConf
  }

  lemma UpdateKeepsSettings(w: World, r: Runner)
    requires Enriched(w.config)
    ensures KeepsSettings(AfterUpdate(w, r), w)
  {
    var fetched := DownloadTemplate(AfterStop(w), r);
    if fetched.ok {
      var rendered := Generate(fetched.world);
      var pulled := RunStrict(rendered.world, r, PullCommands(w.config));
      if pulled.ok {
        StartOutcome(pulled.world, r);
      }
    }
  }

  /** Only `install` writes config.json or /etc/sysctl.conf and only `install`
      changes the loaded configuration; `uninstall` keeps config.json only when
      it runs outside the installation directory. */
  lemma OnlyInstallPersists(w: World, r: Runner, answer: string, inInstallDir: bool)
    requires Enriched(w.config)
    ensures KeepsSettings(AfterStart(w, r), w)
    ensures KeepsSettings(Step(AfterStop(w), true), w)
    ensures KeepsSettings(AfterRestart(w, r), w)
    ensures KeepsSettings(AfterUpdate(w, r), w)
    ensures KeepsSettings(AfterReset(w, answer), w)
    ensures KeepsSettings(AfterUninstall(w, answer, false), w)
    ensures var s := AfterUninstall(w, answer, inInstallDir);
            s.world.config == w.config && s.world.sysctlConf == w.sysctlConf
  {
    StartOutcome(w, r);
    StartOutcome(AfterStop(w), r);
    UpdateKeepsSettings(w, r);
  }

  // ---------------------------------------------------------------------------
  // The install prompts

  /** Lower-casing leaves text without upper-case ASCII letters alone. */
  lemma LowerNoUpper(s: string)
    requires forall i :: 0 <= i < |s| ==> !('A' <= s[i] <= 'Z')
    ensures Lower(s) == s
  {
  }

  /** The host prompt: `y` or `Y` takes the machine address, every address the
      check accepts is taken as typed, and nothing else is taken. */
  lemma HostChoiceDecides(answer: string, machineAddress: string)
    ensures (answer == "y" || answer == "Y") ==> HostChoice(answer, machineAddress) == Some(machineAddress)
    ensures HostChoice(answer, machineAddress).None? <==> Lower(answer) != "y" && !IsValidIpV4(Lower(answer))
    ensures HostChoice(answer, machineAddress).Some? ==>
              HostChoice(answer, machineAddress).value == machineAddress ||
              IsValidIpV4(HostChoice(answer, machineAddress).value)
  {
    LowerIsY(answer);
  }

  /** Every IPv4 address typed in dotted-quad form is taken as the host. */
  lemma HostChoiceTakesAddresses(a: nat, b: nat, c: nat, d: nat, machineAddress: string)
    requires a <= 255 && b <= 255 && c <= 255 && d <= 255
    ensures HostChoice(FormatIpV4(a, b, c, d), machineAddress) == Some(FormatIpV4(a, b, c, d))
  {
    var s := FormatIpV4(a, b, c, d);
    FormatIsValid(a, b, c, d);
    var parts := Split(s, ".");
    JoinSplit(s, ".");
    OctetHasNoDot(parts[0]);
    forall i | 0 <= i < |s| ensures !('A' <= s[i] <= 'Z') {
      OctetDigitsAndDots(s, i);
    }
    LowerNoUpper(s);
    assert |s| != 1 by { ValidLength(s); }
  }

  /** Every character of an accepted address is a digit or a dot. */
  lemma OctetDigitsAndDots(s: string, i: int)
    requires IsValidIpV4(s) && 0 <= i < |s|
    ensures IsDigit(s[i]) || s[i] == '.'
  {
    var parts := Split(s, ".");
    JoinSplit(s, ".");
    var p0, p1, p2, p3 := parts[0], parts[1], parts[2], parts[3];
    assert parts == [p0, p1, p2, p3];
    assert s == p0 + "." + (p1 + "." + (p2 + "." + p3)) by {
      assert Join([p3], ".") == p3;
      assert Join([p2, p3], ".") == p2 + "." + p3;
      assert Join([p1, p2, p3], ".") == p1 + "." + (p2 + "." + p3);
    }
    DotJoin(p2, p3);
    DotJoin(p1, p2 + "." + p3);
    DotJoin(p0, p1 + "." + (p2 + "." + p3));
  }

  predicate DigitsOrDots(x: string)
  {
    forall i :: 0 <= i < |x| ==> IsDigit(x[i]) || x[i] == '.'
  }

  /** Two texts of digits and dots joined by a dot are digits and dots. */
  lemma DotJoin(a: string, b: string)
    requires DigitsOrDots(a) && DigitsOrDots(b)
    ensures DigitsOrDots(a + "." + b)
  {
    var t := a + "." + b;
    forall i | 0 <= i < |t| ensures IsDigit(t[i]) || t[i] == '.' {
      if i < |a| {
        assert t[i] == a[i];
      } else if i > |a| {
        assert t[i] == b[i - |a| - 1];
      }
    }
  }

  /** An accepted address is at least seven characters long. */
  lemma ValidLength(s: string)
    requires IsValidIpV4(s)
    ensures |s| >= 7
  {
    ValidHasThreeDots(s);
    var parts := Split(s, ".");
    JoinSplit(s, ".");
    var p0, p1, p2, p3 := parts[0], parts[1], parts[2], parts[3];
    assert parts == [p0, p1, p2, p3];
    assert Join([p3], ".") == p3;
    assert Join([p2, p3], ".") == p2 + "." + p3;
    assert Join([p1, p2, p3], ".") == p1 + "." + (p2 + "." + p3);
  }

  /** The port prompt takes exactly the answers `int()` reads (in ASCII
      digits) as a number in [0, 65535], kept as typed after lower-casing; `y` keeps the ports. */
  lemma PortChoiceDecides(answer: string)
    ensures (answer == "y" || answer == "Y") ==> PortChoice(answer).None?
    ensures PortChoice(answer).Some? <==>
              Lower(answer) != "y" && ParseInt(Lower(answer)).Some? && 0 <= ParseInt(Lower(answer)).value <= 65535
    ensures PortChoice(answer).Some? ==> PortChoice(answer).value == Lower(answer)
  {
    LowerIsY(answer);
  }

  /** A port answer that starts or ends with one of the separators U+001C to
      U+001F is refused, so the ports stay, as `int()` raises on it. */
  lemma PortChoiceRefusesSeparators(answer: string)
    requires |answer| > 0 && (IsSeparator(answer[0]) || IsSeparator(answer[|answer| - 1]))
    ensures PortChoice(answer).None?
  {
    var a := Lower(answer);
    assert a[0] == LowerChar(answer[0]) && a[|a| - 1] == LowerChar(answer[|answer| - 1]);
    ParseIntRejectsSeparators(a);
  }

  /** Every port number typed in decimal is accepted up to 65535 and refused above. */
  lemma PortChoiceTakesNumbers(n: nat)
    ensures n <= 65535 ==> PortChoice(NatToDecimal(n)) == Some(NatToDecimal(n))
    ensures n > 65535 ==> PortChoice(NatToDecimal(n)).None?
  {
    var s := NatToDecimal(n);
    DigitsLowered(s);
    ParseIntNatToDecimal(n);
    assert s != "y" by { assert IsDigit(s[0]); }
    assert PortChoice(s) == if 0 <= n <= 65535 then Some(s) else None;
  }

  lemma DigitsLowered(s: string)
    requires AllDigits(s)
    ensures Lower(s) == s
  {
    forall i | 0 <= i < |s| ensures !('A' <= s[i] <= 'Z') { assert IsDigit(s[i]); }
    LowerNoUpper(s);
  }

  /** After the prompts accepted host `h`: both hosts are `h`; an accepted port
      answer becomes both ports, so the two ports clash and every later render
      drops the API port entries; a refused one keeps the ports; the public URIs
      are not refreshed; nothing else changes. */
  lemma PromptedConfig(c: Config, h: string, portAnswer: string)
    requires Enriched(c)
    ensures var p := Prompted(c, h, portAnswer);
            p.api.external.host == h && p.fe.external.host == h &&
            p.api.external.publicUri == c.api.external.publicUri &&
            p.fe.external.publicUri == c.fe.external.publicUri &&
            p.api.external.protocol == c.api.external.protocol &&
            p.fe.external.protocol == c.fe.external.protocol &&
            (PortChoice(portAnswer).Some? ==>
               p.api.external.port == PortChoice(portAnswer).value &&
               p.fe.external.port == PortChoice(portAnswer).value && PortsClash(p)) &&
            (PortChoice(portAnswer).None? ==>
               p.api.external.port == c.api.external.port && p.fe.external.port == c.fe.external.port) &&
            WithoutEndpoints(p) == WithoutEndpoints(c)
  {
  }

  /** The configuration apart from the two external endpoints. */
  function WithoutEndpoints(c: Config): Config
  {
    c.(api := c.api.(external := Endpoint("", "", "", None)),
       fe := c.fe.(external := Endpoint("", "", "", None)))
  }

  // ---------------------------------------------------------------------------
  // install

  /** A host answer that is refused ends `install` after the template download:
      no configuration, descriptor or sysctl.conf is written, no image pulled. */
  lemma InstallRefusedHost(w: World, r: Runner, machineAddress: string, hostAnswer: string, portAnswer: string)
    requires Enriched(w.config)
    requires Lower(hostAnswer) != "y" && !IsValidIpV4(Lower(hostAnswer))
    ensures var s := AfterInstall(w, r, machineAddress, hostAnswer, portAnswer);
            s == DownloadTemplate(w, r) &&
            s.world.config == w.config && s.world.configFile == w.configFile &&
            s.world.composeFile == w.composeFile && s.world.sysctlConf == w.sysctlConf &&
            s.world.log == w.log + [FetchTemplate(w.config.dockerComposeTemplate)]
  {
    DownloadTemplateOutcome(w, r);
  }

  /** The tail of `install` once the host is accepted: with a template at hand
      it succeeds exactly when the pulls do, and then it has persisted `c`,
      rendered the template with it, pulled, and tuned sysctl.conf. */
  lemma DeployOutcome(w: World, r: Runner, c: Config)
    requires Enriched(c) && w.templateFile.Some?
    ensures var s := Deploy(w, r, c);
            (s.ok <==> forall i :: 0 <= i < 3 ==> PullCommands(c)[i] !in r.failing) &&
            (s.ok ==> s.world == w.(config := c, configFile := Some(c),
                                    composeFile := Some(Render(w.templateFile.value, c)),
                                    sysctlConf := Tuned(w.sysctlConf),
                                    log := w.log + PullCommands(c)))
  {
    var rendered := Generate(w.(config := c, configFile := Some(c)));
    RunStrictOutcome(rendered.world, r, PullCommands(c));
    assert PullCommands(c)[..3] == PullCommands(c);
  }

  /** With an accepted host, `install` succeeds exactly when the template
      download and the three pulls succeed; then it has persisted the prompted
      configuration, rendered the fresh template with it, issued the download
      and the pulls in order, and tuned sysctl.conf. */
  lemma InstallOutcome(w: World, r: Runner, machineAddress: string, hostAnswer: string, portAnswer: string)
    requires Enriched(w.config)
    requires HostChoice(hostAnswer, machineAddress).Some?
    ensures var s := AfterInstall(w, r, machineAddress, hostAnswer, portAnswer);
            var c := Prompted(w.config, HostChoice(hostAnswer, machineAddress).value, portAnswer);
            (s.ok <==> FetchTemplate(w.config.dockerComposeTemplate) !in r.failing &&
                       forall i :: 0 <= i < 3 ==> PullCommands(c)[i] !in r.failing) &&
            (s.ok ==> s.world == w.(config := c, configFile := Some(c), templateFile := Some(r.remoteTemplate),
                                    composeFile := Some(Render(r.remoteTemplate, c)),
                                    sysctlConf := Tuned(w.sysctlConf),
                                    log := w.log + [FetchTemplate(w.config.dockerComposeTemplate)] + PullCommands(c)))
  {
    DownloadTemplateOutcome(w, r);
    var fetched := DownloadTemplate(w, r);
    var c := Prompted(w.config, HostChoice(hostAnswer, machineAddress).value, portAnswer);
    if fetched.ok {
      DeployOutcome(fetched.world, r, c);
      assert AfterInstall(w, r, machineAddress, hostAnswer, portAnswer) == Deploy(fetched.world, r, c);
    }
  }

  /** A configuration written by `install` loads back unchanged, public URIs
      included: a later `start` renders the descriptor `install` rendered, and
      a public URI derived before the prompts keeps the old host and port. */
  lemma InstalledConfigReloads(w: World, r: Runner, machineAddress: string, hostAnswer: string, portAnswer: string)
    requires Enriched(w.config)
    requires HostChoice(hostAnswer, machineAddress).Some?
    requires AfterInstall(w, r, machineAddress, hostAnswer, portAnswer).ok
    ensures var s := AfterInstall(w, r, machineAddress, hostAnswer, portAnswer);
            var loaded := LoadConfig(s.world);
            loaded.ok && loaded.world == s.world &&
            loaded.world.config.api.external.publicUri == w.config.api.external.publicUri &&
            loaded.world.config.fe.external.publicUri == w.config.fe.external.publicUri &&
            (AfterStart(loaded.world, r).ok ==> AfterStart(loaded.world, r).world.composeFile == s.world.composeFile)
  {
    InstallOutcome(w, r, machineAddress, hostAnswer, portAnswer);
    var c := Prompted(w.config, HostChoice(hostAnswer, machineAddress).value, portAnswer);
    PromptedConfig(w.config, HostChoice(hostAnswer, machineAddress).value, portAnswer);
    EnrichIdempotent(c);
    var s := AfterInstall(w, r, machineAddress, hostAnswer, portAnswer);
    StartOutcome(s.world, r);
  }

  // ---------------------------------------------------------------------------
  // The dispatch

  /** Every action but a web install reads config.json first; without it the
      script fails before issuing any command. */
  lemma MissingConfigAborts(w: World, r: Runner, action: Action, opts: Options, answers: Answers)
    requires w.configFile.None?
    requires action != Install || opts.useLocalConfig
    ensures Execute(w, r, action, opts, answers) == Step(w, false)
  {
  }

  /** A web install whose configuration download fails issues nothing else. */
  lemma WebInstallFetchFails(w: World, r: Runner, opts: Options, answers: Answers)
    requires !opts.useLocalConfig && FetchConfig(opts.configUrl) in r.failing
    ensures Execute(w, r, Install, opts, answers) == Step(w.(log := w.log + [FetchConfig(opts.configUrl)]), false)
  {
  }

  /** Every action runs on the configuration it loads: once config.json is
      read (or, for a web install, downloaded), the configuration held in
      memory before does not matter. */
  lemma ActionIgnoresPriorConfig(w: World, c: Config, r: Runner, action: Action, opts: Options, answers: Answers)
    requires if action == Install && !opts.useLocalConfig then FetchConfig(opts.configUrl) !in r.failing
             else w.configFile.Some?
    ensures Execute(w.(config := c), r, action, opts, answers) == Execute(w, r, action, opts, answers)
  {
    if action == Install && !opts.useLocalConfig {
      RunStrictSingle(w, r, FetchConfig(opts.configUrl));
      RunStrictSingle(w.(config := c), r, FetchConfig(opts.configUrl));
    }
  }
}
