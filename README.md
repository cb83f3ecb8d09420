# Ambar installer, modelled in Dafny

`ambar.py` installs and operates an Ambar deployment on one host. Its core:

- `generateDockerCompose` renders the deployment descriptor (`docker-compose.yml`).
  It runs the template text through a fixed, ordered chain of Python
  `str.replace` calls. When the front-end and API ports are equal, it first
  deletes the two API port entries.
- `loadConfigFromFile` enriches the parsed configuration. Each external
  endpoint without a `public_uri` gets `protocol://host:port`.
- `setOsConstants` tunes `/etc/sysctl.conf` persistently.
  `setRunTimeOsConstants` tunes the running kernel.
- The seven operator actions (`install`, `start`, `stop`, `restart`, `update`,
  `reset`, `uninstall`) run strict and lenient shell commands in a fixed order.
  They read and write the installer's files.

The model has these parts:

- `text.dfy` (module `Text`): the Python string operations the script relies on.
  - `str.replace`, proved equal to Python's `r.join(s.split(p))`.
  - `find`, `strip`, ASCII `lower`, `str(n)` and `int(s)`.
- `ipv4.dfy` (module `Ipv4`): the dotted-quad check behind `isValidIpV4Address`.
- `configuration.dfy` (module `Configuration`): the configuration record and the `public_uri` enrichment.
- `compose.dfy` (module `Compose`): the render as a fold of replace steps.
  - The steps come in source order: paths, the conditional deletion, then every other value.
  - The last pattern is `${API_PUBLIC_URI`, without its closing brace, as written.
- `template.dfy` (module `Template`): what the render does to a template made of text and `${NAME}` placeholders.
  - Each placeholder is replaced on its own by the value the source lists for it.
  - `${API_PUBLIC_URI}` keeps a `}` after the URI.
- `sysctl.dfy` (module `Sysctl`): the persistent tuning, which is idempotent.
- `lifecycle.dfy` (module `Lifecycle`): every action as a function over a `World` value.
  - The world holds the configuration, config.json, the template, the descriptor, sysctl.conf and the log of shell commands.
  - A `Runner` value says which commands fail and what the downloads deliver.
  - A failing strict command ends the script: the `Step` comes back with `ok == false`.
- `lifecycle_properties.dfy` (module `LifecycleProperties`): what each action does.
  - Which commands it issues, in which order, and what a failure cuts off.
  - Which files it may change, and how the install prompts decide.
- `installer.dfy` (module `Installation`): class `Installer`, with the script's state as fields.
  - Each function of `ambar.py` that reads or changes the installer's state is a method that updates those fields in place.
  - `isValidIpV4Address` is the predicate `Ipv4.IsValidIpV4`, and the file read in `getDockerComposeTemplate` is modelled by the world's `templateFile`, which `GenerateDockerCompose` reads.
  - `getMachineIpAddress` and `checkRequirements` are not part of this model (see "Left out").
  - Each method is proved to produce exactly the world its `Lifecycle` function describes.

The code and the design description disagree in some places. The model follows the code:

- An install port answer that `int()` rejects or that lies outside [0, 65535] does not abort the install. It is only reported, and both ports stay as they were (ambar.py:226-227).
- The two ports are compared after `strip()` (ambar.py:135).
- A web install writes config.json with the download (ambar.py:192). So an install that fails later still leaves a configuration file behind.
- `uninstall` removes `./config.json`, `./docker-compose.template.yml` and `./docker-compose.yml` relative to the working directory (ambar.py:289-291).
  - Every other installer file is reached through the script's own directory. `/etc/sysctl.conf` is an absolute path (ambar.py:94, 97).
  - Whether the working directory is the installation directory is an input (`Options.inInstallDir`). When it is, `uninstall` deletes the three files and a later action fails on the missing config.json. Otherwise the `rm -f` commands miss them and the files stay.

## Model

| member | source | states |
|---|---|---|
| Text.ReplaceAll | ambar.py:129-175 | Python's `s.replace(pat, rep)`: every non-overlapping occurrence of `pat`, scanned from the left, becomes `rep`; an empty `pat` inserts `rep` around every character. Its reference is `Text.ReplaceAllIsJoinSplit` |
| Text.Split | ambar.py:136-137 | Python's `s.split(sep)`: the pieces between the non-overlapping occurrences of `sep`, at least one of them |
| Text.Join | ambar.py:136-137 | Python's `sep.join(parts)`; `Text.JoinSplit` makes it the inverse of `Split` |
| Text.Find | ambar.py:89 | `find` returns -1 exactly when the key does not occur; otherwise it returns the first index where it occurs |
| Text.ReplaceAllIsJoinSplit | ambar.py:129-175 | every replace step equals Python's `rep.join(s.split(pat))` |
| Text.ReplaceAllAbsent | ambar.py:129-175 | a replace step whose pattern does not occur changes nothing |
| Text.JoinSplit | ambar.py:136-137 | `sep.join(s.split(sep)) == s`: deletion by replacement keeps every piece between occurrences |
| Text.StripBlank | ambar.py:135 | a strip removes exactly the leading and trailing run of the chosen kind of whitespace, and what is left starts and ends with another character |
| Text.Strip | ambar.py:135 | `strip()` removes exactly the leading and trailing `str.isspace` characters |
| Text.IntStrip | ambar.py:221 | the whitespace `int()` skips, removed from both ends: every `str.isspace` character except the separators U+001C to U+001F, whatever else the text holds |
| Text.Lower | ambar.py:205 | ASCII `str.lower()`: the same length, each character lower-cased on its own |
| Text.ParseInt | ambar.py:221 | `int()` on a string: the text after `IntStrip`, read as an optional sign and decimal digits with single underscores between digits, or None where Python raises `ValueError`; `Text.ParseIntNatToDecimal` and `Text.ParseIntShape` state it |
| Text.LowerIsY | ambar.py:205-206 | a lower-cased answer equals `y` exactly when it was `y` or `Y` |
| Text.NatToDecimal | ambar.py:147-148 | `str(n)` is canonical decimal digits whose value is `n` |
| Text.CanonicalDigits | ambar.py:147-148 | canonical digit strings are exactly the `str` of their value |
| Text.ParseIntNatToDecimal | ambar.py:221 | `int(str(n)) == n` |
| Text.ParseIntShape | ambar.py:221 | text `int()` accepts is, once stripped as `IntStrip` does, an optional sign followed by digits and underscores |
| Text.ParseIntRejectsSeparators | ambar.py:221 | text that starts or ends with one of U+001C to U+001F is a `ValueError` |
| Ipv4.IsValidIpV4 | ambar.py:48-60 | `isValidIpV4Address` with `inet_pton`: exactly four dot-separated parts, each one to three digits without a leading zero and at most 255; `Ipv4.FormatIsValid` and `Ipv4.ValidIsFormatted` state it both ways |
| Ipv4.FormatIsValid | ambar.py:48-60 | every dotted quad of four byte values passes `isValidIpV4Address` |
| Ipv4.ValidIsFormatted | ambar.py:48-60 | every accepted text is the canonical dotted quad of its four values |
| Ipv4.ValidHasThreeDots | ambar.py:48-60 | an accepted address has exactly three dots, the extra condition of the `inet_aton` fallback |
| Configuration.TopLevelString | ambar.py:196-197 | `configuration[key]` finds a string exactly for `dockerRepo`, `dataPath` and `dockerComposeTemplate`; any other key is a `KeyError` |
| Configuration.WithPublicUri | ambar.py:184-187 | a missing `public_uri` becomes `protocol://host:port`, a present one is kept, and no other field changes |
| Configuration.Enrich | ambar.py:184-187 | after loading, both endpoints have a `public_uri`, each derived as `WithPublicUri` does; everything else is unchanged |
| Configuration.EnrichIdempotent | ambar.py:180-189 | loading an already loaded configuration changes nothing |
| Configuration.WithHosts | ambar.py:207-211 | the prompt sets both hosts and changes nothing else |
| Configuration.WithPorts | ambar.py:224-225 | the prompt sets both ports and changes nothing else |
| Compose.ApplyRules | ambar.py:129-175 | the chain of `str.replace` calls, each on the result of the one before |
| Compose.Rules | ambar.py:129-175 | the replace steps in source order: the paths, the two deletions when the stripped ports are equal, then every other value |
| Compose.Render | ambar.py:126-178 | `generateDockerCompose`'s text: the template through every step of `Rules` |
| Compose.ApplyRulesAppend | ambar.py:129-175 | running two blocks of replace steps in a row equals running their concatenation |
| Compose.ElisionDeletes | ambar.py:135-137 | when the stripped ports are equal, both API port entries are deleted, each as `"".join(s.split(entry))`; otherwise the text is untouched |
| Compose.RenderStages | ambar.py:129-175 | the render is: paths, then the conditional deletion, then every value; no port is substituted before the deletion |
| Template.StepsOverPieces | ambar.py:129-175 | over text free of `$`, the chain acts on each placeholder separately and copies the text between placeholders |
| Template.RenderPieceValue | ambar.py:129-175 | a placeholder becomes the value of the first step whose pattern it begins with, or stays as it is when none matches |
| Template.RulesArePlaceholderRules | ambar.py:129-175 | with distinct ports and `$`-free values, every step is a placeholder step that cannot reach past its closing brace |
| Template.SubstitutionPatterns | ambar.py:129-175 | for every loaded configuration, every substitution step's pattern is `${` and a name free of `$` and `}`, except perhaps its last character |
| Template.CatalogAgrees | ambar.py:129-175 | for every loaded configuration, whatever its ports and values: the first substitution step that matches each of the 27 placeholders gives it the value the source lists for it; numbers go through `str()`; `mode`, `showFilePreview` and `analyticsToken` default to `ce`, `false` and the empty string |
| Template.RenderCatalogued | ambar.py:126-178 | the descriptor is the template with each listed placeholder replaced by its value and all text kept |
| Template.LastStepKeepsBrace | ambar.py:175 | the last step turns `${API_PUBLIC_URI}` into the public URI followed by `}` |
| Template.PublicUriKeepsBrace | ambar.py:129-175 | for every loaded configuration, `${API_PUBLIC_URI}` renders as the public URI followed by `}` |
| Template.PlainTextUnchanged | ambar.py:126-178 | for every loaded configuration, text without `$` renders to itself |
| Sysctl.LineIfMissing | ambar.py:88-90 | `key=value` and a newline when `find` does not locate the key in the snapshot, nothing otherwise |
| Sysctl.MissingLines | ambar.py:92-103 | the lines appended for the six parameters, in order, all judged against one snapshot |
| Sysctl.Tuned | ambar.py:92-103 | sysctl.conf after `setOsConstants`: the old content followed by the missing lines |
| Sysctl.TunedHasEveryKey | ambar.py:92-103 | after tuning, every one of the six keys occurs in sysctl.conf |
| Sysctl.NothingMissing | ambar.py:88-90 | when every key already occurs, nothing is appended |
| Sysctl.AllMissing | ambar.py:88-103 | when no key occurs, all six lines are appended in order |
| Sysctl.TunedIdempotent | ambar.py:92-103 | tuning a tuned file appends nothing |
| Lifecycle.Generate | ambar.py:120-178 | a missing template raises; otherwise the descriptor becomes the render of the template and nothing else changes |
| Lifecycle.LoadConfig | ambar.py:180-189 | a missing config.json raises; otherwise the loaded configuration is the file's, enriched |
| Lifecycle.LoadFromWeb | ambar.py:191-193 | a strict `wget` of config.json; when it succeeds, the downloaded file is written and loaded |
| Lifecycle.DownloadTemplateAsWritten | ambar.py:195-197 | the template download as written, its URL looked up under the misspelt key |
| Lifecycle.HostChoice | ambar.py:204-214 | the host prompt; `LifecycleProperties.HostChoiceDecides` states it |
| Lifecycle.PortChoice | ambar.py:216-227 | the port prompt; `LifecycleProperties.PortChoiceDecides` states it |
| Lifecycle.Deploy | ambar.py:229-235 | write config.json, render, pull, then tune sysctl.conf; `LifecycleProperties.DeployOutcome` states it |
| Lifecycle.AfterInstall | ambar.py:199-235 | `install` with the corrected download; `LifecycleProperties.InstallOutcome` and `LifecycleProperties.InstallRefusedHost` state it |
| Lifecycle.AfterInstallAsWritten | ambar.py:199-200 | `install` with the download as written |
| Lifecycle.AfterStart | ambar.py:237-244 | `start`; `LifecycleProperties.StartOutcome` states it |
| Lifecycle.AfterStop | ambar.py:246-254 | `stop`: three lenient commands whose status is ignored |
| Lifecycle.AfterUpdate | ambar.py:256-261 | `update` with the corrected download; `LifecycleProperties.UpdateOutcome` states it |
| Lifecycle.AfterUpdateAsWritten | ambar.py:256-258 | `update` with the download as written |
| Lifecycle.AfterRestart | ambar.py:263-265 | `restart`: `stop`, then `start` |
| Lifecycle.AfterReset | ambar.py:267-277 | `reset`; `LifecycleProperties.ResetOutcome` states it |
| Lifecycle.AfterUninstall | ambar.py:279-292 | `uninstall`, given whether it runs from the installation directory; `LifecycleProperties.UninstallOutcome` states it |
| Lifecycle.Execute | ambar.py:297-334 | the dispatch, with the line-197 download corrected (as written: `AfterInstallAsWritten`, `AfterUpdateAsWritten`): load the configuration, from the web for an install without `--useLocalConfig`, then run the action; `LifecycleProperties.MissingConfigAborts`, `LifecycleProperties.WebInstallFetchFails`, `LifecycleProperties.UninstallEndsInstallation` and `LifecycleProperties.ActionIgnoresPriorConfig` state it |
| Lifecycle.RunStrict | ambar.py:62-63 | a strict run changes nothing but the command log |
| Lifecycle.DownloadTemplate | ambar.py:195-197 | the corrected download changes only the log and the template file |
| Lifecycle.Prompted | ambar.py:204-227 | the configuration after the prompts still carries both public URIs |
| LifecycleProperties.RunStrictOutcome | ambar.py:62-63 | strict commands are issued in order up to and including the first failing one; the run succeeds exactly when none fails |
| LifecycleProperties.RunStrictAllSucceed | ambar.py:62-63 | when no command fails, every one is issued and the run succeeds |
| LifecycleProperties.LiveTuningMatchesPersistent | ambar.py:98-111 | live tuning sets the same six parameters to the same values, in the same order, as persistent tuning |
| LifecycleProperties.DownloadTemplateOutcome | ambar.py:195-197 | the corrected download fetches the configured URL; the template is replaced exactly when the fetch succeeds |
| LifecycleProperties.DownloadAsWrittenAlwaysFails | ambar.py:197 | as written, the download raises for every configuration before issuing any command |
| LifecycleProperties.InstallAsWrittenNeverInstalls | ambar.py:199-200 | as written, `install` changes nothing and fails |
| LifecycleProperties.UpdateAsWrittenLeavesStopped | ambar.py:256-258 | as written, `update` stops the deployment and then fails |
| LifecycleProperties.StartOutcome | ambar.py:237-244 | `start` succeeds exactly when live tuning and compose up succeed and a template exists; then the descriptor is rendered from the configuration; only the log and the descriptor change |
| LifecycleProperties.StopOutcome | ambar.py:246-254 | `stop` issues both container removals and compose down whatever their status, and changes nothing else |
| LifecycleProperties.RestartOutcome | ambar.py:263-265 | `restart` succeeds exactly when `start` would; the teardown comes first and compose up last |
| LifecycleProperties.UpdateOutcome | ambar.py:256-261 | `update` succeeds exactly when the fetch, the pulls, live tuning and compose up succeed; it re-renders from the fresh template and keeps the configuration |
| LifecycleProperties.ResetOutcome | ambar.py:267-277 | `reset` acts only on `y`/`Y`; it then stops and removes the data directory; no installer file changes |
| LifecycleProperties.UninstallOutcome | ambar.py:279-292 | `uninstall` acts only on `y`/`Y`; it then does what `reset` does and issues the three `rm -f` commands; run from the installation directory it deletes config.json, the template and the descriptor, and otherwise no file changes |
| LifecycleProperties.UninstallEndsInstallation | ambar.py:279-334 | after a confirmed `uninstall` from the installation directory, every action but a web install fails before issuing any command |
| LifecycleProperties.UpdateKeepsSettings | ambar.py:256-261 | `update` leaves the configuration, config.json and sysctl.conf as they were |
| LifecycleProperties.OnlyInstallPersists | ambar.py:237-292 | no action but `install` writes config.json or sysctl.conf, or changes the loaded configuration; `uninstall` run outside the installation directory keeps config.json too; run from it, it still keeps the loaded configuration and sysctl.conf |
| LifecycleProperties.HostChoiceDecides | ambar.py:204-214 | `y`/`Y` takes the machine address; the answer is refused exactly when, lower-cased, it is neither `y` nor an address the check accepts; what is taken is the machine address or an accepted address |
| LifecycleProperties.HostChoiceTakesAddresses | ambar.py:209-211 | every dotted-quad IPv4 address is taken as typed |
| LifecycleProperties.PortChoiceDecides | ambar.py:216-227 | exactly the answers `int()` reads (in ASCII digits) as a number in [0, 65535] change the ports, kept as typed; `y` keeps them |
| LifecycleProperties.PortChoiceRefusesSeparators | ambar.py:219-227 | an answer starting or ending with one of U+001C to U+001F, such as `"\x1c8080"` or `"\x1c8080\u3000"`, leaves the ports as they were |
| LifecycleProperties.PortChoiceTakesNumbers | ambar.py:220-225 | a decimal port up to 65535 is taken; anything above is refused |
| LifecycleProperties.PromptedConfig | ambar.py:204-227 | the prompts set both hosts and, when accepted, both ports, which then clash; public URIs and every other field stay |
| LifecycleProperties.InstallRefusedHost | ambar.py:212-214 | a refused host ends `install` after the download: no configuration, descriptor or sysctl.conf is written, no image pulled |
| LifecycleProperties.DeployOutcome | ambar.py:229-235 | the install tail succeeds exactly when the pulls do; it persists the configuration, renders, pulls and tunes sysctl.conf |
| LifecycleProperties.InstallOutcome | ambar.py:199-235 | with an accepted host, `install` succeeds exactly when the download and the pulls do; then the whole new world is fixed |
| LifecycleProperties.InstalledConfigReloads | ambar.py:180-189 | after a successful install, loading config.json gives back the same world with the original public URIs, and a later successful `start` renders the same descriptor |
| LifecycleProperties.MissingConfigAborts | ambar.py:297-334 | without config.json, every action except a web install fails before issuing any command |
| LifecycleProperties.WebInstallFetchFails | ambar.py:191-193 | a web install whose configuration download fails issues nothing else |
| LifecycleProperties.ActionIgnoresPriorConfig | ambar.py:297-334 | once config.json is read, or downloaded for a web install, the configuration held before makes no difference to any action |
| Installation.Installer.constructor | ambar.py:294-297 | before any action runs, the installer holds the host state it was given and the given runner |
| Installation.Installer.RunShellCommandStrict | ambar.py:62-63 | logs the command; `ok` is false exactly when it fails |
| Installation.Installer.RunShellCommand | ambar.py:65-66 | logs the command and reports its status |
| Installation.Installer.WriteOsConstantIfNotExist | ambar.py:88-90 | appends `key=value` exactly when the key is missing from the snapshot |
| Installation.Installer.SetOsConstants | ambar.py:92-103 | sysctl.conf becomes its tuned form, all six checks judged against one snapshot |
| Installation.Installer.SetRunTimeOsConstants | ambar.py:105-111 | the six live tuning commands as a strict run |
| Installation.Installer.PullImages | ambar.py:113-118 | the three pulls as a strict run |
| Installation.Installer.GenerateDockerCompose | ambar.py:126-178 | the descriptor becomes the render of the template; a missing template fails |
| Installation.Installer.LoadConfigFromFile | ambar.py:180-189 | loads and enriches config.json; the result is enriched |
| Installation.Installer.LoadFromWeb | ambar.py:191-193 | downloads config.json, then loads it |
| Installation.Installer.DownloadDockerComposeTemplate | ambar.py:195-197 | the corrected template download |
| Installation.Installer.AskHost | ambar.py:204-214 | accepted exactly when `HostChoice` takes the answer; then both hosts are set |
| Installation.Installer.AskPort | ambar.py:216-227 | an accepted port answer sets both ports; otherwise nothing changes |
| Installation.Installer.Deploy | ambar.py:229-235 | the last steps of an install: the new state is `Deploy` of the old one, the enriched config written out first |
| Installation.Installer.Install | ambar.py:199-235 | the new state is `AfterInstall` of the old one |
| Installation.Installer.Start | ambar.py:237-244 | the new state is `AfterStart` of the old one |
| Installation.Installer.Stop | ambar.py:246-254 | the new state is `AfterStop` of the old one |
| Installation.Installer.Update | ambar.py:256-261 | the new state is `AfterUpdate` of the old one |
| Installation.Installer.Restart | ambar.py:263-265 | the new state is `AfterRestart` of the old one |
| Installation.Installer.Reset | ambar.py:267-277 | the new state is `AfterReset` of the old one |
| Installation.Installer.Uninstall | ambar.py:279-292 | the new state is `AfterUninstall` of the old one for the given working directory |
| Installation.Installer.Run | ambar.py:297-334 | the new state is `Execute` of the old one for the chosen action, with the line-197 download corrected (as written: `AfterInstallAsWritten`, `AfterUpdateAsWritten`) |

## Left out

- Argument parsing, the banner, `--version`, every `print` and the 30-second wait (`--nowait`) are left out. They change no file and issue no command that the model tracks.
- `checkRequirements` is left out: it checks that docker and docker-compose are installed and that the script runs as root.
- `getMachineIpAddress` shells out to `ip route`. The machine address it returns is an input of `install`.
- Reading and writing files, JSON parsing and serialising, and `wget` are modelled by the world's fields and the runner. `wget -O` opens its target before it connects, so any failed download leaves config.json or the template empty; the model keeps the old file.
- Image pulls, compose up and down, and the shell are outcomes chosen by the runner. What the commands do to the containers is not modelled.
- `Ipv4.IsValidIpV4` states the dotted quad that `socket.inet_pton` accepts. The `inet_aton` fallback, used where `inet_pton` is missing, is left out; `Ipv4.ValidHasThreeDots` only shows that the condition it adds holds for every accepted address.
- `Text.Lower` covers ASCII letters only: Unicode case mapping is not modelled.
- `Text.ParseInt` reads ASCII digits only. Python's `int()` also reads non-ASCII decimal digits in text that is not all ASCII; the model refuses them. Its whitespace handling follows `int()`: the separators U+001C to U+001F are never skipped, in any text.
- `Configuration`: endpoints under a `local` key and any configuration key the render does not read are not modelled.
- `Configuration`: an `analyticsToken` key present with a JSON `null` (which makes `str.replace` raise) is not modelled; the key is either a string or absent.
- Template.RenderCatalogued: proved only when the two ports differ and no substituted value contains a `$`. When the ports clash, the conditional deletion runs first; `Compose.ElisionDeletes` states what it does. A value containing `$` can form a new placeholder, which a later step may then replace.
- Template.RenderCatalogued: covers templates whose placeholders are the 27 names the source replaces. A placeholder whose name starts with `API_PUBLIC_URI` is also hit by the last step; that case is not stated.
- Lifecycle.RunStrict: a command that raises for a reason other than its exit status, such as a missing shell, is treated like a failing command.
- A sysctl.conf that cannot be read or appended to is not modelled: `setOsConstants` always succeeds in the model.
- Configuration: the typed record always holds every key the script reads. A config.json that lacks one is not modelled. In the script that is a `KeyError` (ambar.py:114, 163-172, 184-187); for `start` it comes after live tuning has run. Likewise `mode` or `showFilePreview` present with a JSON `null` is not modelled; each is either a string or absent.
- Configuration: a config.json that carries the misspelt key `'dockerCom   poseTemplate'` is not modelled, since `Config` has no such field; with it, ambar.py:197 would fetch from that key's URL.
- Template: every theorem about placeholders is stated for templates whose plain text has no `$` (`WellFormed` of a `Lit` piece). A `$` outside a placeholder is not covered; `Template.PlainTextUnchanged` covers text that has no placeholder at all.
- Lifecycle.HostChoice: a host answer with an embedded NUL character makes `inet_pton` raise `ValueError`, which nothing catches (ambar.py:49-58), so the script ends. The model treats such an answer as refused: the install stops after the download in both cases, but the model reports success.
- `rm -f` and `rm -rf` failures (for example, missing permissions) are not modelled: their status is ignored, and the model takes the files as removed whenever `uninstall` runs from the installation directory. The data directory's contents are not part of the world.

## Findings

| source | as written | input that shows it | evidently intended | confidence | as-written member | corrected member |
|---|---|---|---|---|---|---|
| ambar.py:197 | the template URL is looked up under the key `'dockerCom   poseTemplate'`, which the distributed config.json does not have (the model's `Config` has no such field), so the lookup raises `KeyError` | any configuration, e.g. the one `install` just loaded; line 196 prints the URL from `dockerComposeTemplate`, then line 197 raises | look the URL up under `dockerComposeTemplate`, as line 196 does | not executed | Lifecycle.DownloadTemplateAsWritten (LifecycleProperties.DownloadAsWrittenAlwaysFails, LifecycleProperties.InstallAsWrittenNeverInstalls, LifecycleProperties.UpdateAsWrittenLeavesStopped) | Lifecycle.DownloadTemplate (LifecycleProperties.DownloadTemplateOutcome, LifecycleProperties.InstallOutcome) |
