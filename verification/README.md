# BitBoxBase: a verified model

The BitBoxBase is a Bitcoin and Lightning node appliance. This project models the parts of its software
in which state, arithmetic or interleaving is hard to get right, and proves what they promise. Where the
code keeps less than it promises, the section below says so, with the lemma that gives the condition and
the one that gives the input.

`dafny verify dfyconfig.toml` checks everything.

## The parts

- **Template engine** (`Template`, `TemplateOptions`, `TemplateProofs`, `TemplateConfusion`, `TemplateIdempotence`,
  `TemplateAccounting`, on the string operations of `Text`). `bbbconfgen` scans every line for `{{...}}` and then replaces one
  placeholder after the other in a line that changes under its hands. This is shown to be one
  simultaneous substitution for exactly those stores whose values cannot be confused with a placeholder,
  to be idempotent (except for CR LF), and to count what it says it counts; what each option does to a line is
  stated letter by letter.
- **Generated configuration** (`ConfigTemplates`, `ConfigTexts`, `ConfigEngine`, `ConfigWording`, `BaseSystem`,
  `ConfigScripts`, `ConfigValues`, `ConfigViews`, `ConfigLines`, `ConfigFacts`, `ConfigRuns`). The configuration scripts set Redis keys,
  regenerate files and restart services. The scripts are programs of elementary operations that a step
  machine carries out while services die and restart in between; `ConfigScripts` has the branches as
  methods, each proved to be its program; what each command leaves in Redis, in the files and of the units, for every
  pattern of failures, is written out in `ConfigValues`. Whenever bitcoind starts, whoever starts it, its credentials may
  be refreshed: that can happen between any two operations, and runs to its end before the command goes
  on. bitcoin.conf, lightningd.conf, electrs.conf and the firewall rules stay what the engine makes of
  their templates and the current values, character by character; torrc does not.
- **Initial block download** (`IbdGating`, `IbdOverlap`, on the same step machine). lightningd and electrs
  do not run while `bitcoind:ibd` is 1, and what a start from outside the running command does to that.
- **Image update** (`UpdateProtocol`, `UpdateChecks`, `UpdateStatuses`). A status in Redis carries an update across crashes
  and reboots. The step machine has crashes, lost writes and failing commands everywhere; the script
  itself is a class whose execution is proved to be a run of that machine, and each stage leaves the status it documents.
- **Middleware** (`BaseUpdate`, `ProgressLine`, `RpcConn`). The update call with its progress events, and
  the connection on which RPC answers and notifications share a channel.
- **Event fan-out** (`EventHub`, `EventHubProofs`, `EventHubRuns`, `EventHubTheorems`). Listener, connecting handlers and
  the loops of every client as interleaved steps over one mutex and unbuffered channels.
- **Supervisor** (`Supervisor`, `SupervisorProofs`). Rate limits of restarts and the tracking of the
  initial block download, whatever fails.
- **Kernels** (`FanControl`; `RespPipe`, on `Decimal`). Fan hysteresis with truncating arithmetic, and the
  encoder of the Redis serialization protocol with a decoder for sections "Arrays" and "Bulk strings" of
  its specification.

## Where the code keeps less than it says

- `bbbconfgen` re-reads what it has substituted. With a given store it does a simultaneous substitution on
  every line if and only if no value contains a placeholder that is replaced by something else, or ends in
  the beginning of one, which what follows it on the line can complete (`TemplateConfusion.OnePassIff`); a
  store with such a value is in `TemplateConfusion.ValueIsRescanned`.
- A second generation changes a file exactly if it contains CR LF (`TemplateIdempotence.GenerateTwice`);
  two carriage returns before a line feed are such an input (`TemplateIdempotence.CarriageReturnsAreLost`).
- Switching tor leaves torrc as it was, although its template reads `tor:base:enabled`. Over any run torrc
  agrees with Redis if and only if tor is off now as it was at the last generation of torrc
  (`ConfigRuns.TorrcAgreesIff`); the tor command and the clearnet command break it
  (`ConfigRuns.TorCommandLeavesTorrc`, `ConfigRuns.ClearnetCommandLeavesTorrc`).
- bitcoin.conf says once how to listen and how to connect if and only if the two switches are recognisably
  on or off and no value that is shown contains a line feed followed by a line that says it again
  (`ConfigFacts.OneListenOnion`, `ConfigFacts.ProxyOrOnlyNet`; such credentials in
  `ConfigFacts.LineFeedBreaks`). The commands store only 0 and 1 in the switches and pass line feeds on
  only from their arguments.
- An install is harmless to the check script if and only if the script stands where it has done nothing an
  install would undo and neither status is stale (`UpdateProtocol.InstallIsHarmlessIff`); any state is safe
  if and only if both statuses and the script's place are earned (`UpdateProtocol.SafeIffSound`). A history
  without a single failure in which a second install makes the script commit what it has not verified, and
  one in which a lost write leaves a stale status, are `UpdateProtocol.ConcurrentInstallIsUnsafe` and
  `UpdateProtocol.StaleIsReachable`.
- The event hub can lose its mutex for good: exactly if the listener still has to send to a client whose
  write loop has left and waits for the same mutex (`EventHubTheorems.HeldForeverIffDoomed`,
  `EventHubTheorems.DoomIsReachable`).
- Restoring a saved Redis is the only event that can make lightningd or electrs run during initial block
  download, and does so exactly if it declares the download while one runs
  (`IbdGating.OnlyRestoresBreak`). Commands must not overlap, though: a start of one of the two from
  outside the command that enters the download is harmless if and only if their stop is still to come, the
  download is already declared, or bitcoind is down and stays so (`IbdOverlap.ForeignStartIff`,
  `IbdOverlap.EveryPosition`); an operator's restart at the wrong moment is `IbdOverlap.OverlapBreaks`.
- The fan controller's message asks for tmin < tmax, its check lets tmin == tmax pass, and exactly then the
  first reading divides by zero (`FanControl.Control`).
- Notifications of an unsupported version are reported as dropped and processed all the same. Dropping them
  would change nothing if and only if every update notification that can be parsed has the supported
  version (`BaseUpdate.DropsUnsupportedIff`, with `BaseUpdate.UnsupportedIsAnnounced`).
- The shell expands words with glob characters on their way to Redis: commands arrive as written if and
  only if every word is expanded to itself, as words without such characters are and patterns that match
  nothing (`RespPipe.PipeRoundTrip`, `RespPipe.StarIsExpanded`). A last line without a line feed never
  arrives (`RespPipe.UnterminatedLineIsLost`).

Two oddities turn out harmless. `redis_get` makes -1 of a missing key, so the check script's branch for a
missing status never runs (`UpdateProtocol.RedisGet`); with that status, as with any it does not know, the script runs through without
doing anything (`UpdateProtocol.UnknownStatusDoesNothing`). `checkBlockHeight` drops the error of its
query, which then reads as height 0 and refuses (`SupervisorProofs.DroppedErrorIsHarmless`).

## Model

| member | source | states |
|---|---|---|
| `Template.ReplacePlaceholders` | tools/bbbconfgen/bbbconfgen.go:194-263 | the inner loop as written yields the line, the decision to write it, the counters and the panic that the recursive specification of the loop gives |
| `Template.ParseTemplate` | tools/bbbconfgen/bbbconfgen.go:166-286 | the whole program yields the file, the counters and the panic of its specification, line by line |
| `TemplateOptions.LineUnlessFalse` | tools/bbbconfgen/bbbconfgen.go:221-229 | for all text around it, every key and store: a line with `#check` or `#rmLineFalse` is left out exactly if the key is missing or its value is empty, 0, or false, no or n in any letter case, and is otherwise written without the placeholder; the counters are given |
| `TemplateOptions.LineUnlessTrue` | tools/bbbconfgen/bbbconfgen.go:231-239 | a line with `#rmLineTrue` is left out exactly if the value is 1, or true, yes or y in any letter case |
| `TemplateOptions.ValueIsShown` | tools/bbbconfgen/bbbconfgen.go:241-244 | under every other option a value that is there takes the place of the placeholder |
| `TemplateOptions.OptionIsTaken` | tools/bbbconfgen/bbbconfgen.go:246-260 | without a value, in any letter case, `#rm` leaves nothing, `#rmLine` leaves the line out, `#default:` without words leaves nothing, and any other option leaves the placeholder as it is; one counter moves, the one of the option |
| `TemplateOptions.ValueOrDefault` | tools/bbbconfgen/bbbconfgen.go:255-258 | the words behind `#default:` stand in for a missing value, with one space between them |
| `TemplateOptions.ValueOrKept` | tools/bbbconfgen/bbbconfgen.go:211-261 | a placeholder of one word becomes the value or stays; `#output:` in any letter case leaves the line out uncounted |
| `TemplateOptions.PanicEnds` | tools/bbbconfgen/bbbconfgen.go:202-206 | a placeholder without a word ends the program: nothing behind it is read or written |
| `TemplateOptions.BlankPanics` | tools/bbbconfgen/bbbconfgen.go:202-206 | the same for the last line |
| `TemplateOptions.WhiteSpace` | tools/bbbconfgen/bbbconfgen.go:205-205 | the words of a placeholder are separated by the code points with the Unicode property White_Space |
| `TemplateOptions.FalseValues` | tools/bbbconfgen/bbbconfgen.go:223-223 | the values that count as false, letter by letter; the long s folds like an s |
| `TemplateOptions.TrueValues` | tools/bbbconfgen/bbbconfgen.go:233-233 | the values that count as true |
| `TemplateProofs.LoopIsOnePass` | tools/bbbconfgen/bbbconfgen.go:181-263 | for brace-free, non-blank placeholders whose values contain no `{{` and do not end in `{`, replacing one placeholder after the other everywhere in the changing line equals substituting every leftmost shortest match by its own resolution at once; the line is dropped exactly if some placeholder asks for it |
| `TemplateProofs.GenerateIsOnePass` | tools/bbbconfgen/bbbconfgen.go:183-273 | the generated file is the concatenation of these one-pass lines, and the program does not panic |
| `TemplateIdempotence.GenerateTwice` | tools/bbbconfgen/bbbconfgen.go:183-273 | feeding the output back with the same store rewrites it line by line and reproduces it if and only if it contains no CR LF |
| `TemplateIdempotence.CarriageReturnsAreLost` | tools/bbbconfgen/bbbconfgen.go:183-273 | a template, good for every store, whose output contains CR LF and is changed by the second generation |
| `TemplateAccounting.LoopCounts` | tools/bbbconfgen/bbbconfgen.go:194-263 | every visited placeholder adds one to the counter of its kind and to no other |
| `TemplateAccounting.FileAccounting` | tools/bbbconfgen/bbbconfgen.go:168-282 | over any file without blank placeholders the seven counters sum to the placeholders visited (those before the first output specifier of a line) and the line counter is the number of lines written |
| `TemplateAccounting.WrittenInAnyOrder` | tools/bbbconfgen/bbbconfgen.go:194-272 | whether a line is written does not depend on the order of its placeholders, output specifiers among them or not |
| `TemplateAccounting.CountedInAnyOrder` | tools/bbbconfgen/bbbconfgen.go:194-263 | without an output specifier the counters do not depend on it either |
| `TemplateAccounting.OutputSpecifierHides` | tools/bbbconfgen/bbbconfgen.go:211-215 | with one they do: a placeholder behind it is not counted, one before it is |
| `TemplateConfusion.OnePassIff` | tools/bbbconfgen/bbbconfgen.go:181-263 | for every store: the program does a simultaneous substitution on every line of brace-free, non-blank placeholders, repeated and adjacent ones included, if and only if no value contains a placeholder that is replaced by something else and none ends in a proper beginning of one |
| `TemplateConfusion.ConfusingValueBreaks` | tools/bbbconfgen/bbbconfgen.go:241-244 | for every store and confusing value there is a line of two placeholders whose result differs from the simultaneous substitution, whatever the counters |
| `TemplateConfusion.ValueIsRescanned` | tools/bbbconfgen/bbbconfgen.go:241-244 | a concrete store with which the program is no simultaneous substitution |
| `ConfigEngine.GenerateIsWritten` | tools/bbbconfgen/bbbconfgen.go:183-273 | for every template file of well-formed lines, with any spacing in its placeholders and any lines without placeholders and output specifiers in between, and every store whose values cannot open a placeholder: the character-level engine copies the fixed lines, leaves out the output specifiers, and writes the others as the model shows them |
| `ConfigEngine.GenerateIsRender` | tools/bbbconfgen/bbbconfgen.go:183-273 | for a file of nothing but such lines, printed with single spaces, this is their rendering line by line |
| `ConfigWording.GeneratesFileAsItStands` | armbian/base/config/templates/bitcoin.conf.template:1-33 | for each of the five templates, as it stands with its comments, blank and fixed lines, output specifier and spacing: what the engine makes of the lines that ask for values is the rendering of the template |
| `ConfigWording.GeneratesFile` | armbian/base/config/templates/bitcoin.conf.template:2-33 | the lines that ask for values alone give the rendering: all five templates are well formed |
| `ConfigTexts.WholeFiles` | armbian/base/config/templates/bitcoin.conf.template:3-33 | the five templates are their sections in order, with as many lines that ask for values as the files have |
| `ConfigTexts.ListenOnionText` | armbian/base/config/templates/bitcoin.conf.template:9-10 | the model's two lines spell those of the file, with single spaces inside the placeholders |
| `ConfigTexts.OnlyNetText` | armbian/base/config/templates/bitcoin.conf.template:16-17 | so do the two onlynet lines |
| `ConfigTexts.ProxyText` | armbian/base/config/templates/bitcoin.conf.template:30-30 | and the proxy line; the other lemmas of ConfigTexts named after a section say the same of its lines |
| `ConfigTexts.Rpc1Text` | armbian/base/config/templates/bitcoin.conf.template:20-21 | address and port of bitcoind's RPC |
| `ConfigTexts.Outbound1Text` | armbian/base/config/templates/iptables.rules.template:107-108 | the outbound rules for bitcoind's peers |
| `ConfigTexts.LightningdPaths1Text` | armbian/base/config/templates/lightningd.conf.template:8-9 | directory and onion address of lightningd |
| `ConfigTexts.ElectrsPaths1Text` | armbian/base/config/templates/electrs.conf.template:2-3 | network and RPC address of electrs |
| `ConfigTexts.HiddenServiceText` | armbian/base/config/templates/torrc.template:6-8 | directory, version and port of an onion service, under its switch |
| `ConfigTexts.TorrcText` | armbian/base/config/templates/torrc.template:2-20 | the four onion services of torrc with their ports and the names of their switches |
| `ConfigEngine.SameAction` | tools/bbbconfgen/bbbconfgen.go:194-262 | splitting a printed placeholder into fields and looking its key up decides what the structured template line asks for |
| `ConfigTexts.OtherNames` | armbian/base/scripts/bbb-config.sh:122-158 | the names of the keys that commands write and no template shows |
| `ConfigScripts.Base.SetDbCache` | armbian/base/scripts/bbb-config.sh:432-458 | the branch carries out exactly the operations of its program, checks bounds and restarts bitcoind only when the value changed and setup is done; it stores the numeral of an accepted size and touches no other key |
| `ConfigScripts.Base.EnableTor` | armbian/base/scripts/bbb-config.sh:244-275 | the branch is its program: key, three files, restarts after setup (a failing bitcoind ends it, a failing lightningd does not), key again; it stores 1 or 0 in tor:base:enabled and no other key changes |
| `ConfigScripts.Base.EnableIbdClearnet` | armbian/base/scripts/bbb-config.sh:162-182 | the branch is its program, with tor enabled first if it is off, although it reads its conditions only on the way |
| `ConfigScripts.Base.EnterIbd` | armbian/base/scripts/bbb-config.sh:138-149 | stops both services, enlarges the cache and only then sets bitcoind:ibd, ending at the first failure |
| `ConfigScripts.Base.LeaveIbd` | armbian/base/scripts/bbb-config.sh:150-160 | resets the cache, clears bitcoind:ibd and then starts both services if set up |
| `ConfigScripts.Base.EnableIncoming` | armbian/base/scripts/bbb-config.sh:125-136 | the branch is its program, and stores 1 or 0 in bitcoind:listen and nothing else |
| `ConfigScripts.Base.SetNetwork` | armbian/base/scripts/bbb-config.sh:362-394 | the branch is its program: four keys, then the files; the network is stored by name with the two bits, no other key changes and no unit |
| `ConfigScripts.Base.ResyncBitcoind` | armbian/base/scripts/bbb-cmd.sh:137-167 | the branch is its program: services stopped before bitcoind:ibd is set, reindexing on for one start of bitcoind only |
| `ConfigScripts.Base.RefreshRpcAuth` | armbian/base/scripts/bbb-cmd.sh:169-190 | the branch is its program; the three credentials are stored under their keys and the mark for a refresh is taken back |
| `ConfigScripts.Base.StartServices` | armbian/base/scripts/bbb-systemctl.sh:77-131 | the command is its program: bitcoind, then lightningd and electrs unless in initial block download |
| `ConfigScripts.PerformIsRun` | armbian/base/scripts/bbb-config.sh:106-182 | an undisturbed branch is a run of the step machine, so all theorems about runs apply to it |
| `ConfigValues.NetworkIsStored` | armbian/base/scripts/bbb-config.sh:362-394 | "mainnet" or "testnet" in bitcoind:network, the two bits, the lightning directory, four files generated from that, nothing else |
| `ConfigValues.IncomingIsStored` | armbian/base/scripts/bbb-config.sh:125-136 | 1 or 0 in bitcoind:listen, bitcoin.conf, and after setup a restart of bitcoind alone |
| `ConfigValues.CacheIsStored` | armbian/base/scripts/bbb-config.sh:432-458 | 50 to 3000 megabytes are stored and shown, bitcoind restarted exactly if the value is new and the setup done; other sizes change nothing |
| `ConfigValues.IbdIsEntered` | armbian/base/scripts/bbb-config.sh:138-149 | for every pattern of failures: both services stopped, the cache at 2000, and "1" in bitcoind:ibd only if both stops and a needed restart succeeded |
| `ConfigValues.IbdIsLeft` | armbian/base/scripts/bbb-config.sh:150-160 | the cache at 300, "0" in bitcoind:ibd unless a needed restart failed, then lightningd and, if that is up, electrs started |
| `ConfigValues.TorIsStored` | armbian/base/scripts/bbb-config.sh:244-275 | the switch stored whatever fails, three files and not torrc, bitcoind restarted after setup and then lightningd |
| `ConfigValues.ClearnetIsStored` | armbian/base/scripts/bbb-config.sh:162-182 | the switch, two files, and after setup a restart of bitcoind alone |
| `ConfigValues.ClearnetEnablesTor` | armbian/base/scripts/bbb-config.sh:165-168 | enabled while tor is off, tor is switched on first, and clearnet stays as it was if bitcoind does not come up with that |
| `ConfigValues.OnionServiceIsStored` | armbian/base/scripts/bbb-config.sh:277-300 | the switch of an onion service under its own key, shown in torrc |
| `ConfigValues.SetupIsStored` | armbian/base/scripts/bbb-config.sh:106-123 | the end of the setup under its own key |
| `ConfigValues.TorBlobIsStored` | armbian/base/scripts/systemd-startup-after-redis.sh:118-121 | the onion address under its own key, shown in lightningd.conf |
| `ConfigValues.CredentialsAreStored` | armbian/base/scripts/bbb-cmd.sh:169-190 | the three credentials, each under its own key, three files that show them, and the interrupted command goes on from there |
| `ConfigValues.RefreshIsTheSame` | armbian/base/scripts/bbb-cmd.sh:169-190 | the command is what bitcoind does before every start |
| `ConfigValues.ResyncIsStored` | armbian/base/scripts/bbb-cmd.sh:137-167 | for every pattern of failures: which services are stopped, "1" in bitcoind:ibd, and reindexing on until bitcoind has come up, and left on if it does not |
| `ConfigValues.ServicesAreStarted` | armbian/base/scripts/bbb-systemctl.sh:77-131 | bitcoind, then outside of initial block download lightningd and electrs, each only if it does not run and the one before is up |
| `ConfigValues.AllIsReconfigured` | armbian/base/scripts/systemd-update-checks.sh:51-83 | all five files from the values as they are, three units restarted whatever comes up |
| `ConfigValues.UnitIsRestarted` | armbian/base/scripts/bbb-config.sh:132-136 | a restarted unit comes up or is tried again; other keys are stored for what they are |
| `ConfigValues.UnitsComeBack` | armbian/base/rootfs/etc/systemd/system/lightningd.service:19-20 | a unit that dies is tried again under the same conditions, a reboot has all three tried, and a restored Redis changes nothing else |
| `ConfigViews.FilesAreGenerated` | armbian/base/scripts/bbb-config.sh:125-295 | after any run of commands, completed or broken off, with services dying, restarting and refreshing credentials at any time, running bbbconfgen on the templates of bitcoin.conf, lightningd.conf, electrs.conf and the firewall rules with the current values would write exactly the files that are there, whenever no command runs and wherever one can fail |
| `ConfigViews.FilesAreViews` | armbian/base/scripts/bbb-config.sh:125-295 | the same in terms of the rendering, for values of any kind |
| `ConfigViews.StepKeeps` | armbian/base/scripts/bbb-config.sh:125-295 | every step keeps the invariant behind it: each file agrees or is about to be regenerated before anything can fail |
| `ConfigViews.ProgramCovered` | armbian/base/scripts/bbb-config.sh:106-452 | in every command, every write to a key that a template reads is followed by that file's generation before anything can fail, or repeats the value already stored |
| `ConfigViews.FileFrame` | armbian/base/config/templates/bitcoin.conf.template:1-33 | a file depends on the keys its template names and on no other |
| `ConfigFacts.OneListenOnion` | armbian/base/config/templates/bitcoin.conf.template:9-10 | for every store, bitcoin.conf as it is read has at least one listenonion line, and exactly one if and only if the clearnet switch is recognisably on or off and no value shown carries another |
| `ConfigFacts.LineFeedBreaks` | armbian/base/config/templates/bitcoin.conf.template:22-22 | credentials with a line feed and such a line in them bring a second listenonion line, whatever the switches say |
| `ConfigFacts.ProxyOrOnlyNet` | armbian/base/config/templates/bitcoin.conf.template:16-30 | for every store there is at least one of a proxy and an onlynet line, and exactly one if and only if tor is off, or on with the clearnet switch recognisably on or off, and no value shown carries another |
| `ConfigLines.TemplateCounted` | armbian/base/config/templates/bitcoin.conf.template:2-33 | of the lines read from a generated file, those with a given beginning are at least as many as rendered, and exactly as many if and only if no line that is written shows a value with a line feed followed by that beginning |
| `ConfigFacts.FirewallMatchesBitcoind` | armbian/base/config/templates/iptables.rules.template:106-112 | for every store, the outbound rules for port 8333 are as many as the onlynet lines of bitcoin.conf if and only if no value shown carries an onlynet line |
| `ConfigRuns.FilesAreConsistent` | armbian/base/scripts/bbb-config.sh:162-275 | after any run of commands from switches stored as 0 or 1, with no value stored or passed in that has a line feed or could open a placeholder, the two files on disk are what bbbconfgen writes from the current values, and have one listenonion line, one of proxy and onlynet, and port 8333 open outbound exactly with the onlynet line |
| `ConfigRuns.BranchKeepsViews` | armbian/base/scripts/bbb-config.sh:106-182 | a branch carried out alone, whatever fails in it, leaves the four files in agreement with Redis |
| `ConfigRuns.TorrcAgreesIff` | armbian/base/scripts/bbb-config.sh:162-295 | over any run of all commands, wherever no generation of torrc is just due, torrc agrees with Redis if and only if tor is off now exactly as it was at torrc's last generation |
| `ConfigRuns.TorCommandLeavesTorrc` | armbian/base/scripts/bbb-config.sh:244-275 | with all files fresh, issuing a tor command that switches tor over makes torrc stale with its first step |
| `ConfigRuns.ClearnetCommandLeavesTorrc` | armbian/base/scripts/bbb-config.sh:162-182 | so does the clearnet command when it has to switch tor on |
| `ConfigRuns.ReconfigurationRepairs` | armbian/base/scripts/systemd-update-checks.sh:47-88 | from any state the regeneration after an update brings all five files back into agreement, whichever restart then fails |
| `IbdGating.GatedThroughout` | armbian/base/scripts/bbb-config.sh:138-160 | over all commands, failures, automatic restarts and reboots, and at every step in between, lightningd or electrs active means bitcoind:ibd is not 1 |
| `IbdGating.StepKeeps` | armbian/base/scripts/systemd-lightningd-startpre.sh:20-32 | every step keeps that rule and that whatever will set bitcoind:ibd to 1 has stopped both services first |
| `IbdGating.OnlyRestoresBreak` | armbian/base/scripts/bbb-cmd.sh:358-371 | any run from a state that keeps the rule, over every kind of event, keeps it at every step if and only if no restore in it declares initial block download while one of the two services runs |
| `IbdOverlap.ForeignStartIff` | armbian/base/scripts/bbb-config.sh:138-149 | while a command that enters initial block download runs, a start or restart of lightningd or electrs from outside it leaves the rule intact in every continuation if and only if the stop of that service is still to come, the download is already declared, or bitcoind is down and stays so until it is |
| `IbdOverlap.EveryPosition` | armbian/base/scripts/bbb-cmd.sh:137-167 | that is so at every position that issuing either of the two commands reaches, with credential refreshes, units dying and restarting and reboots on the way; once the download is declared no such start does harm |
| `IbdOverlap.OverlapBreaks` | armbian/base/scripts/bbb-config.sh:138-149 | with everything running, a restart from elsewhere right after both services were stopped lets them run during the download |
| `UpdateChecks.CheckScript.Run` | armbian/base/scripts/systemd-update-checks.sh:42-148 | one execution takes exactly the steps its commands' outcomes dictate, up to a power loss, keeps the protocol's invariant and announces success only after a successful commit |
| `UpdateChecks.CheckScript.RetryVerification` | armbian/base/scripts/systemd-update-checks.sh:92-118 | at most a hundred service verifications; the first that succeeds ends them, after fewer than a hundred failures, and only a hundred failing in a row lead to the fallback |
| `UpdateChecks.CheckScript.VerifyServices` | armbian/base/scripts/systemd-update-checks.sh:90-119 | with status 20, one hundred failures in a row leave 90 if the write succeeds, and nothing else leaves anything but 20 or 30; with another status nothing changes |
| `UpdateChecks.CheckScript.Finish` | armbian/base/scripts/systemd-update-checks.sh:134-148 | success is announced exactly if the status was 40 and the startup tasks succeeded |
| `UpdateChecks.RunDetermined` | armbian/base/scripts/systemd-update-checks.sh:42-148 | the outcomes of the commands determine the execution: for every endless supply of outcomes there is exactly one number of commands after which the script ends |
| `UpdateStatuses.StatusMoves` | armbian/base/scripts/systemd-update-checks.sh:28-34 | over every orderly run a command of the script moves the status from 10 to 20, 20 to 30 or 90, 30 to 40 or 40 to 0, or not at all; an install writes 10, a crash brings back what was saved |
| `UpdateStatuses.HappensWhen` | armbian/base/scripts/bbb-cmd.sh:430-440 | the power can go and Redis can save at any step, the script is started when it does not run, and an install forgets what was done for the last |
| `UpdateStatuses.ReconfigurationLeaves20` | armbian/base/scripts/systemd-update-checks.sh:46-88 | with status 10, after the host name and ten files, eleven with Wi-Fi enabled, the status is 20 |
| `UpdateStatuses.VerificationLeaves30` | armbian/base/scripts/systemd-update-checks.sh:90-100 | with status 20, up to 99 failures, a success and the services enabled leave 30 |
| `UpdateStatuses.HundredFailuresLeave90` | armbian/base/scripts/systemd-update-checks.sh:101-116 | one hundred failures leave 90 in memory and, if saved, on disk |
| `UpdateStatuses.NinetyIff` | armbian/base/scripts/systemd-update-checks.sh:90-119 | from the verification with status 20 the status is 90, at any later place, if and only if one hundred verifications failed and the write behind them succeeded |
| `UpdateStatuses.CommitLeaves40` | armbian/base/scripts/systemd-update-checks.sh:122-125 | with status 30, a commit that succeeds leaves 40, written by the command and by the script |
| `UpdateStatuses.FailedCommitLeaves30` | armbian/base/scripts/systemd-update-checks.sh:126-132 | one that fails leaves 30 |
| `UpdateStatuses.EndLeaves0` | armbian/base/scripts/systemd-update-checks.sh:134-148 | with status 40 the end leaves 0, and goes on to the announcement if the startup tasks succeed |
| `UpdateStatuses.StagesAreSkipped` | armbian/base/scripts/systemd-update-checks.sh:42-148 | a stage with another status is passed over, and a command that may not fail ends the script with the status as it was |
| `UpdateProtocol.OrderlyRunsAreSafe` | armbian/base/scripts/systemd-update-checks.sh:42-148 | with crashes, reboots and lost writes anywhere, a commit is tried only with configuration regenerated and services verified since the last install, and success announced only after a commit returned success |
| `UpdateProtocol.UpdatesAreSafe` | armbian/base/scripts/bbb-cmd.sh:406-458 | the same for every orderly run from a factory-new Base |
| `UpdateProtocol.SafeIffSound` | armbian/base/scripts/systemd-update-checks.sh:42-148 | from any state at all, every continuation without another install is safe if and only if both statuses and the script's place are earned by what was done since the last install |
| `UpdateProtocol.SafeIffNotStale` | armbian/base/scripts/bbb-cmd.sh:406-444 | the case of an install that ended while the script was not running: safe if and only if neither the stored nor the saved status is 20, 30 or 40 |
| `UpdateProtocol.InstallIsHarmlessIff` | armbian/base/scripts/bbb-cmd.sh:406-444 | an install beside the script, whatever happens before its status is written, is harmless in every continuation if and only if the script stands at one of the places listed and neither status is stale |
| `UpdateProtocol.RecordedInstallIsHarmlessIff` | armbian/base/scripts/bbb-cmd.sh:406-444 | the same once its status has been written, or lost, before the script went on |
| `UpdateProtocol.StaleIsReachable` | armbian/base/scripts/systemd-update-checks.sh:87-87 | a run from a factory-new Base that ends with an install and a stale status |
| `UpdateProtocol.ConcurrentInstallIsUnsafe` | armbian/base/scripts/bbb-cmd.sh:406-444 | a run from a factory-new Base in which every command and write succeeds and a second install makes the script commit what it has not verified |
| `UpdateProtocol.UnknownStatusDoesNothing` | armbian/base/scripts/systemd-update-checks.sh:37-40 | with a status it does not know, such as the -1 of a missing key, the script ends having changed nothing |
| `UpdateProtocol.Resumes` | armbian/base/scripts/systemd-update-checks.sh:42-148 | from every status a crash can leave on the successful path, one undisturbed execution announces success and leaves status 0 in memory and on disk |
| `EventHubTheorems.EventsConserved` | middleware/src/handlers/handlers.go:105-120 | over every run, whenever the mutex is free, the i-th event that arrived is the i-th handled, unchanged, and is queued, sent once to exactly the clients registered then, or dropped, but for a last one the listener still waits with; the queue is every event ever queued, and each connection has replayed it to all clients registered then |
| `EventHubRuns.EventsArriveInOrder` | middleware/src/handlers/handlers.go:105-111 | the events handled, and after them the one the listener holds, are exactly those that arrived, in order and unchanged |
| `EventHubRuns.ListenerSees` | middleware/src/handlers/handlers.go:109-116 | the listener decides on the clients registered when it takes the mutex, and queues exactly if there is none and the event asks for it |
| `EventHubRuns.NothingElseIsSent` | middleware/src/handlers/handlers.go:109-190 | every delivery belongs to one handled event or to one event of one replay, and no two of them share it |
| `EventHubRuns.ClientsOfRun` | middleware/src/handlers/handlers.go:174-180 | the n-th connection to register gets the id n and is registered until the first of its two loops removes it |
| `EventHubRuns.ConnectedHasReplayed` | middleware/src/handlers/handlers.go:183-190 | a connection replays the queue once, and none is connected without |
| `EventHubRuns.ConnectionGoesOn` | middleware/src/handlers/handlers.go:174-190 | with the mutex free a new connection can register and begin to send the whole queue to every client, itself included |
| `EventHubRuns.OneMessageAtATime` | middleware/src/handlers/websocket.go:60-83 | a write loop takes a message only when it is done with the last |
| `EventHubRuns.WriteLoopLeaves` | middleware/src/handlers/websocket.go:53-85 | it leaves only after a failing write or once its read loop has closed its channel, by when the client is removed, and can always leave then |
| `EventHubRuns.DisconnectRemoves` | middleware/src/handlers/websocket.go:24-58 | when a connection fails and the mutex is free, both loops can remove the client and end |
| `EventHubRuns.FailedWriteRemoves` | middleware/src/handlers/websocket.go:53-80 | so can the write loop alone after a failing write |
| `EventHubRuns.MutexIsTakenFree` | middleware/src/handlers/handlers.go:105-126 | the mutex passes from one holder to another only by being free |
| `EventHubRuns.NothingElseWaits` | middleware/src/handlers/websocket.go:20-85 | what needs no mutex never waits for it |
| `EventHubTheorems.QueueKept` | middleware/src/handlers/handlers.go:174-190 | the queue is never shortened, and a new connection replays all of it |
| `EventHubTheorems.IdsAreUnique` | middleware/src/handlers/handlers.go:174-178 | no client id is given out twice |
| `EventHubTheorems.RemovedForever` | middleware/src/handlers/handlers.go:122-126 | a removed client never comes back under its id, however often its loops remove it |
| `EventHubTheorems.RemovesOnlyItself` | middleware/src/handlers/websocket.go:21-58 | only a client's own two loops remove it |
| `EventHubTheorems.HeldForeverIffDoomed` | middleware/src/handlers/handlers.go:105-190 | in a reachable state a held mutex is never released again, in any continuation, if and only if its holder must still send to a registered client whose write loop has left |
| `EventHubTheorems.Releases` | middleware/src/handlers/handlers.go:105-120 | otherwise the holder and the write loops it waits for have a continuation that releases the mutex |
| `EventHubTheorems.HolderStepsAreCounted` | middleware/src/handlers/handlers.go:105-190 | in any interleaving, while the mutex is held, each step of its holder brings the release exactly one step closer and no other step delays it |
| `EventHubTheorems.HolderIsNotBlocked` | middleware/src/handlers/handlers.go:109-115 | unless the mutex is lost, the holder's next step is possible or the write loop it waits for can finish its write |
| `EventHubTheorems.DoomCause` | middleware/src/handlers/websocket.go:53-85 | only a failing write, a closed connection, or the listener or a replay taking the mutex can lose it |
| `EventHubTheorems.DoomIsForever` | middleware/src/handlers/handlers.go:105-126 | once lost, no event is handled and no client registered or removed again |
| `EventHubTheorems.DoomIsReachable` | middleware/src/handlers/websocket.go:53-85 | one client, one failed write and one event suffice |
| `EventHubTheorems.ListenerLosesRace` | middleware/src/handlers/handlers.go:109-115 | the listener taking the mutex before a departed write loop removes its client is what does it |
| `EventHubProofs.InvStep` | middleware/src/handlers/handlers.go:105-190 | every step of every interleaving keeps the invariant of mutex, clients, ids, deliveries, handled events and replays |
| `RpcConn.RpcConn.Read` | middleware/src/rpcserver/rpcserver.go:34-37 | one message is taken; as much of it as fits is copied to the front of the buffer, the rest of the buffer is untouched and the rest of the message is lost |
| `RpcConn.RpcConn.Write` | middleware/src/rpcserver/rpcserver.go:40-43 | one tagged message is sent, and filtering the channel still gives exactly the bytes written |
| `RpcConn.Demultiplexes` | middleware/src/rpcserver/rpcserver.go:40-43 | for any interleaving of RPC writes and notifications, the tagged messages without their tag are the RPC byte stream and the others are the notifications in order |
| `RpcConn.ReadsAreLosslessIff` | middleware/src/rpcserver/rpcserver.go:34-37 | reads deliver the concatenation of all messages if and only if every message fits the buffer it is read into |
| `BaseUpdate.Middleware.UpdateBase` | middleware/src/middleware.go:782-933 | answer, progress, published events and scheduled reboot of one call, for every output, read error and exit |
| `BaseUpdate.Middleware.FollowOutput` | middleware/src/middleware.go:869-905 | the loop over the installer's output publishes one event for every progress line, in order |
| `BaseUpdate.CallPublishes` | middleware/src/middleware.go:782-933 | a started call publishes its progress lines plus one event, Downloading and Applying first and Failed or Rebooting last; a rejected or unstarted one publishes nothing |
| `BaseUpdate.CallAnnouncesLine` | middleware/src/middleware.go:870-886 | the k-th progress published belongs to the k-th line with progress, carries its two numbers, and says Downloading below 98 percent and Applying from there on |
| `BaseUpdate.CallAnnouncesPrinted` | middleware/src/middleware.go:870-886 | the same from a line as the installer prints it |
| `BaseUpdate.CallAnswers` | middleware/src/middleware.go:785-933 | which answer a call gives, for every state before and everything that can go wrong |
| `BaseUpdate.CallKeepsLastNumbers` | middleware/src/middleware.go:869-905 | a call ends with the numbers of the last progress line, or those from before |
| `BaseUpdate.RebootingIsAbsorbing` | middleware/src/middleware.go:785-793 | over calls one after the other, Rebooting begins with the first installation that succeeds and never ends; until then every failure permits another try |
| `BaseUpdate.RejectedIffInstalled` | middleware/src/middleware.go:785-793 | a call is rejected as already in progress exactly if an earlier one has installed, even if no reboot could be scheduled |
| `BaseUpdate.NotificationLoop` | middleware/src/middleware.go:235-271 | the loop emits one event for every update notification that can be parsed, and reports each of unsupported version once and each other one once |
| `BaseUpdate.ReportsNext` | middleware/src/middleware.go:235-271 | each update notification that can be parsed adds "a" or "b" whatever its version; any other adds a report, and so does any version but 1 |
| `BaseUpdate.EventsAreNotifications` | middleware/src/rpcmessages/rpcmessages.go:8-21 | what these events carry is told apart from RPC traffic on the same connection |
| `BaseUpdate.DropsUnsupportedIff` | middleware/src/middleware.go:243-262 | the events are those of the supported notifications alone if and only if no update notification that can be parsed has another version |
| `BaseUpdate.EventsAndReports` | middleware/src/middleware.go:243-269 | events and reports together exceed the notifications by exactly those of unsupported version |
| `BaseUpdate.UnsupportedIsAnnounced` | middleware/src/middleware.go:243-262 | a success of version 2 is reported as dropped and announced |
| `ProgressLine.ParsesPrinted` | middleware/src/util.go:286-318 | a printed progress line is read back as the two numbers printed, for all 64-bit numbers and any padding, and is not taken for progress beyond 64 bits |
| `ProgressLine.OthersAreNotProgress` | middleware/src/util.go:286-302 | a line is progress only between 32 dots and KiB, with two words in between |
| `Supervisor.Supervisor.EventHandler` | tools/bbbsupervisor/supervisor/eventhandling.go:23-51 | state, effects in order and result of handling one event, for every pattern of failures |
| `Supervisor.Supervisor.HandleRestart` | tools/bbbsupervisor/supervisor/eventhandling.go:55-103 | nothing happens when flooding; the time is stored only after a successful restart |
| `Supervisor.Supervisor.HandleBitcoindIbd` | tools/bbbsupervisor/supervisor/eventhandling.go:107-154 | the nested cases come down to: set what changed, remember it if that succeeded |
| `Supervisor.Supervisor.DisableBaseIbdState` | tools/bbbsupervisor/supervisor/util.go:64-87 | the ordered effects, up to the first that fails |
| `Supervisor.Supervisor.UnsetClearnetIbd` | tools/bbbsupervisor/supervisor/util.go:14-27 | clearnet is switched off exactly if it reads 1; success means it reads otherwise or was switched off |
| `SupervisorProofs.IbdIsTracked` | tools/bbbsupervisor/supervisor/eventhandling.go:107-154 | over any measurements and failures the last state is -1 until a setting succeeds and then that of the last successful setting, and successful settings alternate |
| `SupervisorProofs.HandlingIsGuarded` | tools/bbbsupervisor/supervisor/util.go:56-87 | "false" is issued only right after a height of at least 596000 was read and clearnet found or set off, in the same handling |
| `SupervisorProofs.DroppedErrorIsHarmless` | tools/bbbsupervisor/supervisor/util.go:56-62 | the error that the height check drops never lets a handling go on: that takes an answer of at least 596000 blocks |
| `SupervisorProofs.RestartsAreSpaced` | tools/bbbsupervisor/watcher/trigger/trigger.go:36-43 | after a successful restart for a trigger the next attempt for it starts more than 29 seconds later, even if the clock goes back between events |
| `SupervisorProofs.RestartsAreBounded` | tools/bbbsupervisor/supervisor/eventhandling.go:55-103 | n successful restarts for a trigger within a window need more than n - 1 gaps of 29 seconds |
| `SupervisorProofs.UnitsAreBounded` | tools/bbbsupervisor/supervisor/eventhandling.go:55-103 | electrs is restarted at most as often as its two triggers allow together, the middleware as its one |
| `SupervisorProofs.RestartsAreMade` | tools/bbbsupervisor/watcher/trigger/trigger.go:36-43 | after any run an event restarts its unit exactly if 30 seconds have passed since the beginning of the second in which the last successful restart for it was over, so 30 seconds after it at the latest |
| `SupervisorProofs.ChangesAreSet` | tools/bbbsupervisor/supervisor/eventhandling.go:107-154 | a measurement that differs is acted upon: 1 issues the setting, 0 exactly if enough blocks are known and clearnet is or can be switched off; state and result follow |
| `SupervisorProofs.OthersDoNothing` | tools/bbbsupervisor/supervisor/eventhandling.go:23-51 | watcher errors and unknown triggers do nothing |
| `FanControl.Control` | tools/bbbfancontrol/bbbfancontrol.go:69-143 | the values written to the fan for every sequence of readings, when the arguments are refused, and when the program divides by zero |
| `FanControl.FanIsOnWhileHot` | tools/bbbfancontrol/bbbfancontrol.go:107-134 | over every history the fan is off or between fmin and fmax, and on if and only if some reading was at least tmin with none since below cooldown |
| `FanControl.LevelIsMonotone` | tools/bbbfancontrol/bbbfancontrol.go:99-105 | with the fan on, a higher reading never gives a lower level, whatever came before |
| `FanControl.LevelBelowIdeal` | tools/bbbfancontrol/bbbfancontrol.go:99-105 | between tmin and tmax the level lies below the ideal line by exactly ((fmax-fmin) mod (tmax-tmin))(T-tmin)/(tmax-tmin), and reaches fmax at tmax if and only if tmax-tmin divides fmax-fmin |
| `FanControl.LevelOutside` | tools/bbbfancontrol/bbbfancontrol.go:99-112 | above tmin the truncated line goes on up to fmax and not beyond; below, a running fan keeps fmin |
| `FanControl.KickstartWrites` | tools/bbbfancontrol/bbbfancontrol.go:118-136 | the fan is set to fmax first exactly if it goes from off to on with a kickstart configured |
| `FanControl.DegreesAtLeast` | tools/bbbfancontrol/bbbfancontrol.go:91-94 | the threshold in thousandths of a degree that the truncating division makes of a threshold in degrees, on both sides of zero |
| `RespPipe.RedisPipe` | armbian/base/scripts/redis-pipe.sh:13-23 | the script's loops print the encoding of the words of every line that ends in a line feed, after pathname expansion, and a server decodes exactly those |
| `RespPipe.DecodesEncoded` | armbian/base/scripts/redis-pipe.sh:18-22 | decoding the stream as arrays of bulk strings gives exactly the commands, for any words and any number of commands, blank ones as empty arrays |
| `RespPipe.OnTheWire` | armbian/base/scripts/redis-pipe.sh:18-22 | the bytes of a command of two words, and of a blank line |
| `RespPipe.WordsAreSeparated` | armbian/base/scripts/redis-pipe.sh:13-16 | the words of a line are what stands between spaces and tabs |
| `Decimal.DigitsIsTheNumeral` | armbian/base/scripts/redis-pipe.sh:18-21 | lengths are printed as the one numeral with that value and no leading zero |
| `RespPipe.PipeRoundTrip` | armbian/base/scripts/redis-pipe.sh:13-23 | a file of commands, one per line, arrives at the server as those commands if and only if the shell expands every word of theirs to that word alone; words without glob characters always are |
| `RespPipe.StarIsExpanded` | armbian/base/scripts/redis-pipe.sh:16-20 | `KEYS *` in a directory with two files arrives as a command with their names |
| `RespPipe.UnterminatedLineIsLost` | armbian/base/scripts/redis-pipe.sh:13-13 | a last line without a line feed is not sent, and changes nothing else |

## Left out

- HTTP, websocket, noise handshake, cryptography, JSON, gob, systemd's own bookkeeping and log files: foreign code; their outcomes are parameters.
- Redis and the file system beyond the keys and files named: Redis is a map, its answers and the results of commands are arbitrary inputs.
- `systemd-update-checks.sh` after a fallback's reboot command: the script runs on in the model as in the code until the power goes.
- handlers.go and websocket.go as classes: the interleaving of their goroutines is the point, so every lock, channel operation and map update is a step of one machine on values; what the model does not show is the memory they share.
- The configuration scripts interrupted inside one operation: a `redis_set`, a generation or a unit command is one step, and a refresh of bitcoind's credentials, once begun, runs to its end before the command it interrupts goes on. Redis writes succeed there; lost writes are the subject of the update protocol.
- A power loss between a Redis write and the generation that follows it, and restoring a saved Redis, for the agreement of files and Redis: outside the runs of `ConfigViews.FilesAreGenerated`; `ConfigRuns.ReconfigurationRepairs` shows what repairs them.
- Failures of tor, networking and the firewall reload inside a command: a script they end has made the writes and generations of a shorter command. Double writes under the overlay root are one write.
- Templates other than bitcoin.conf, iptables.rules, lightningd.conf, electrs.conf and torrc: they hold nothing these results are about. Of the five, the model has the lines that ask for values; the others and the spacing are covered by ConfigWording.GeneratesFileAsItStands without being listed.
- bbbconfgen's choice of the output file, `#output:` outside template lines, Redis errors (read as an empty value, like the code does) and lines longer than the scanner's 64 KiB buffer. Strings are sequences of code points, not UTF-8 bytes.
- RespPipe.RedisPipe: characters stand for bytes and none is zero, which the shell's `read` skips; which file names a pattern matches is a parameter.
- 64-bit overflow in the fan controller's arithmetic, and its waiting times; `FanControl.Control` ends when the readings do, the program never.
- NaN as a measured value: the supervisor treats it like any value other than 0 and 1.
- `UpdateBase` called twice at the same time: the busy check and the first progress event are not atomic; the model takes calls one after the other. The mock mode of `RebootBase` is not modelled.
- The unbounded wait of `Read` on an empty channel is a requirement of `RpcConn.RpcConn.Read`.
- The remaining RPC methods, getters, system state tables, image build scripts and dashboards: only easy claims.
