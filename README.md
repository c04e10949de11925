# pastelup core, modelled in Dafny

pastelup installs and runs the nodes of the Pastel network: `pasteld`, the
rq-service, dupe detection, walletnode and supernode. This project models its
core.

- `install` decides which components a target needs and downloads and unpacks
  each one. It prepares pasteld's working directory: the RPC port and
  credentials, the `pastel.conf` file and the zk-SNARK parameter files. It
  also checks the required OS packages, asks before reusing an install
  directory, and installs a supernode on a remote host over SSH.
- `start` builds pasteld's command line and launches the local node. It
  validates and completes the masternode flags: the name, external IP, ports,
  passphrase, masternode private key, PastelID and collateral transaction.
  It polls the wallet until the collateral is seen, starts the masternode
  alias, and creates or patches `supernode.yml`.
- `start --coldhot` drives a cold node, which holds the keys and the
  collateral, and a hot node reached over SSH, which runs pasteld as a
  masternode and the supernode services. The run is a fixed plan of remote
  steps that stops at the first fatal one.
- The service manager registers, starts, stops, enables and disables systemd
  units on Linux, and does nothing on other systems.
- The constant tables give the executable names, archive names and download
  URLs for each OS.

The modules are:

- `Util`: error and option types, plus models of the Go standard-library
  string and path helpers the core uses (`strings.Split`, `Join`, `TrimSpace`,
  `TrimSuffix`, `Contains`, `strconv.Atoi`, `filepath.Join`).
- `Constants`: `constants/constants.go`.
- `ServiceManager`: `servicemanager/servicemanager.go`. `SystemdManager` is a
  class whose state is the host: unit files, the running and enabled units,
  and the log of `systemctl` calls.
- `StartCommand`: `cmd/start.go`. The package-level `flagMasterNode*`
  variables are the `mn` field of a `Flags` object, and the check* functions
  are its methods.
- `ColdHot`: `cmd/start_coldhot.go`. `ColdHotRunner` is a class. `Run` is
  proved against a plan function and a state-transformer function.
- `InstallCommand`: `cmd/install.go`. `InstallConfig` holds the fields of
  `configs.Config` that the install command updates. `ConfFile` is the open
  `pastel.conf` file.

Every answer from outside the program is an input to the model:

- what pasteld, the remote shell, systemctl or the file system return;
- what the user types;
- the random characters.

Loops that poll run over finite sequences of such answers.

## Model

| member | source | states |
|---|---|---|
| Constants.OSName | constants/constants.go:3-15 | Mac is the only OS whose name is "MAC" |
| Constants.PasteldName | constants/constants.go:23-29 | the pasteld name ends in ".exe" on Windows, is "pasteld" on Linux and Mac, and is empty exactly for Unknown |
| Constants.PastelCliName | constants/constants.go:31-37 | the pastel-cli name ends in ".exe" on Windows, is "pastel-cli" on Linux and Mac, and is empty exactly for Unknown |
| Constants.PastelWalletExecName | constants/constants.go:39-45 | the walletnode executable ends in ".exe" exactly on Windows, and is empty exactly for Unknown |
| Constants.PastelExecArchiveName | constants/constants.go:47-53 | the archive is a zip on Windows and a tarball on Linux and Mac, and is empty exactly for Unknown |
| Constants.DownloadURLIsReleasePlusArchive | constants/constants.go:47-61 | each known OS's download URL is the release directory followed by that OS's archive name; Unknown has no URL |
| Constants.WalletURLAndExecName | constants/constants.go:39-69 | the walletnode URL ends in the executable name on Linux and Mac; on Windows it lacks the ".exe" suffix |
| Constants.UnknownIsEmptyEverywhere | constants/constants.go:23-69 | every table maps Unknown, and only Unknown, to "" |
| ServiceManager.New | servicemanager/servicemanager.go:44-54 | gives the systemd manager with no error exactly on Linux; elsewhere the no-op manager and an error |
| ServiceManager.NoopManagerZeroResults | servicemanager/servicemanager.go:59-98 | the no-op manager never fails, never reports a unit registered, running or started, and names no unit |
| ServiceManager.ServiceName | servicemanager/servicemanager.go:307-309 | the unit name starts with the prefix, holds the tool name right after it, ends in ".service" and is exactly as long as prefix, tool and suffix together |
| ServiceManager.ServiceNameInjective | servicemanager/servicemanager.go:307-309 | distinct tools get distinct unit names |
| ServiceManager.StatusReportsRunning | servicemanager/servicemanager.go:286-291 | the status text contains "(running)" if and only if the unit is active |
| ServiceManager.SudoArgv | servicemanager/servicemanager.go:330-335 | with a password, the arguments are piped to `sudo -S` inside bash; without one, sudo runs the arguments directly |
| ServiceManager.PlanUnitAsWritten | servicemanager/servicemanager.go:128-193 | as written, a missing executable ends the switch with a nil error |
| ServiceManager.PlanUnit | servicemanager/servicemanager.go:128-193 | unknown tools are skipped; a missing executable and a failed IP lookup are errors; gives the pasteld and walletnode commands (`--swagger` only in dev mode); differs from the as-written switch exactly on a missing executable |
| ServiceManager.MissingExecutableReportsSuccess | servicemanager/servicemanager.go:137-183 | for every tool whose unit needs an executable, a missing executable gives a nil error in the code as written, and a failure in the corrected plan |
| ServiceManager.SystemdManager.constructor | servicemanager/servicemanager.go:101-103 | the manager starts from the given host state with no systemctl calls |
| ServiceManager.SystemdManager.IsRegistered | servicemanager/servicemanager.go:295-304 | registered if and only if the user unit file exists and its stat did not fail; a stat failure is the only error |
| ServiceManager.SystemdManager.Systemctl | servicemanager/servicemanager.go:311-322 | logs exactly one call; fails if and only if the host refuses the verb; an accepted verb changes only the running or enabled set it names |
| ServiceManager.SystemdManager.IsRunning | servicemanager/servicemanager.go:286-291 | issues one status call, changes nothing else, and answers whether the unit is running |
| ServiceManager.SystemdManager.EnableService | servicemanager/servicemanager.go:262-271 | one enable call; fails if and only if enable is refused; on success the unit is enabled |
| ServiceManager.SystemdManager.DisableService | servicemanager/servicemanager.go:274-283 | one disable call; fails if and only if disable is refused; on success the unit is no longer enabled |
| ServiceManager.SystemdManager.StartService | servicemanager/servicemanager.go:226-242 | an unregistered tool is skipped with no call; a running one gets only a status call; otherwise start is issued once; reports started exactly when the unit is running afterwards |
| ServiceManager.SystemdManager.StopService | servicemanager/servicemanager.go:245-259 | always disables first and returns that failure; stops only a running unit; on success the unit is neither running nor enabled |
| ServiceManager.SystemdManager.RegisterService | servicemanager/servicemanager.go:113-223 | a registered tool is left alone; otherwise the unit the corrected PlanUnit describes is written (a missing executable is an error here, see Findings) unless its path is unwritable (a write failure is only logged) and then enabled; an enable failure is ignored; running units never change |
| StartCommand.PasteldArgListShape | cmd/start.go:696-715 | the arguments start with `--datadir` and `--externalip` and end with `--daemon`; `--txindex=1`, `--reindex` and `--masternode` appear exactly when asked for; the private key directly follows `--masternode` |
| StartCommand.BuildPasteldArgs | cmd/start.go:696-715 | the argument list built by appends equals PasteldArgList |
| StartCommand.RunPastelNode | cmd/start.go:654-725 | on Linux a registered service is started and nothing is launched; otherwise pasteld is launched when its checks pass, with the argument list and a discovered IP when none was given; success means launched and started in time |
| StartCommand.Candidate | cmd/start.go:418-445 | the k-th possible start option has rank k |
| StartCommand.OptionsUpToFacts | cmd/start.go:418-445 | the options chosen so far are in strictly increasing rank, and they are exactly the enabled candidates below k |
| StartCommand.StartOptionListShape | cmd/start.go:418-445 | the remote start options are in source order, and each option appears if and only if its flag is set or its value non-empty |
| StartCommand.TextUpToIsRender | cmd/start.go:418-445 | the text built by successive appends is the rendering of the chosen option list |
| StartCommand.TextUpToFirstFour | cmd/start.go:418-433 | the first four appends (name, activate, ip, reindex) in order |
| StartCommand.TextUpToLastFour | cmd/start.go:434-445 | the last four appends (legacy, development mode, dir, work-dir) extend the first four |
| StartCommand.TextUpToEight | cmd/start.go:418-445 | the whole remote option text as eight conditional appends in source order |
| StartCommand.AppendWhen | cmd/start.go:418-445 | appends the option text exactly when its condition holds |
| StartCommand.RunRemoteStart | cmd/start.go:414-454 | sends `<pastelup> start <options>` and always returns nil, whatever the remote command answers |
| StartCommand.CollateralAmount | cmd/start.go:1034-1042 | testnet asks for 1 LSP, regtest for 0.1 REG, any other network for 5 PSL |
| StartCommand.QuestionsAfterStep | cmd/start.go:1064-1090 | the number of "keep waiting?" questions grows by one exactly at a poll that asks |
| StartCommand.PollRounds | cmd/start.go:1064-1090 | the first question comes after poll 10, and after that every 9 polls, because the counter is reset to 1 and then incremented |
| StartCommand.PollCollateral | cmd/start.go:1064-1090 | every poll before the last one used succeeded without the transaction; Found gives the output index from the last poll; a failed poll stops; the user stops only at a question by answering no; the question count matches the schedule |
| StartCommand.ResolvedParams | cmd/start.go:794-826 | an empty RPC or P2P IP becomes the external IP, and a zero port becomes the network default; every other field is unchanged |
| StartCommand.ResolvedParamsIdempotent | cmd/start.go:794-826 | resolving twice is resolving once; with an external IP both IPs become non-empty, and with nonzero defaults all ports become nonzero |
| StartCommand.PassphraseAnswerNonEmpty | cmd/start.go:954-970 | an accepted passphrase answer is non-empty, and it is rejected exactly when it is "", "n" or "N" |
| StartCommand.SelectCollateral | cmd/start.go:994-1062 | a given txid and index are kept; otherwise a valid pick gives exactly the picked listing entry and its index, a failed wallet query returns its message, and a new address gives the txid the user typed (newlines trimmed) or the address error; a pick that is not a number or is out of range fails; with neither route available the selection fails |
| StartCommand.AwaitCollateral | cmd/start.go:1064-1101 | succeeds if and only if the txid is non-empty and first appears, with a non-empty index, at a poll before which every "keep waiting?" question got yes; the index is then the one that poll gives |
| StartCommand.Flags.constructor | cmd/start.go:755-829 | the flags object holds the given parameters |
| StartCommand.Flags.CheckStartMasterNodeParams | cmd/start.go:755-829 | succeeds exactly when the name, IP, cold/hot address and masternode.conf checks pass; on success the external IP is settled and the IPs and ports are resolved |
| StartCommand.Flags.CheckPassphrase | cmd/start.go:954-970 | a given passphrase is kept; otherwise the answer is stored if accepted, else it is an error; success leaves a non-empty passphrase |
| StartCommand.Flags.CheckMasternodePrivKey | cmd/start.go:924-952 | a given key is kept; otherwise the generated key, without its trailing newline, is stored, or the generation error is returned |
| StartCommand.Flags.CheckPastelID | cmd/start.go:883-922 | a given PastelID is kept; without a passphrase it is an error; otherwise the new key is stored exactly when pasteld's reply parses |
| StartCommand.Flags.CheckCollateral | cmd/start.go:989-1102 | only txid and index change; a failed selection is returned as is; after a successful selection, it succeeds if and only if the selected txid arrives in the polls as AwaitCollateral describes; success means a non-empty txid and index seen in the polls |
| StartCommand.Flags.ResolveMasternodeSecrets | cmd/start.go:854-872 | succeeds if and only if the selected collateral arrives, a passphrase is given or accepted, and the private key and PastelID are each given or obtained; success leaves the collateral and passphrase set, the key kept or the trimmed `genkey` output, and the PastelID kept or the `newkey` answer; the name, IPs, ports and mode flags are untouched |
| StartCommand.Flags.PrepareMasterNodeParameters | cmd/start.go:832-881 | without --create or --update nothing happens; pasteld is launched only when asked, and then with `--txindex=1` and no masternode key; success needs the sync check and (when pasteld was started) the stop to succeed, and leaves the collateral, passphrase, key and PastelID set as ResolveMasternodeSecrets says; conversely, when pasteld starts (if asked), the sync succeeds, every secret is obtainable and the stop succeeds, it succeeds |
| StartCommand.Flags.RunStartMasternode | cmd/start.go:456-495 | a masternode.conf parse failure or a missing entry stops before any call; an IP in masternode.conf that differs from the settled one is an error; when it matches, the external IP becomes the conf IP and runPastelNode's outcome follows with `--txindex=1` and the entry's private key: started as a Linux service, a service start error, or launched exactly when the launch checks pass, with success exactly when pasteld starts in time |
| StartCommand.StartAliasArgs | cmd/start.go:1105-1124 | exactly the three arguments `masternode`, `start-alias` and the name |
| StartCommand.StartAliasOutcome | cmd/start.go:1105-1124 | a failed or unparsable reply is an error; a parsed reply is an error exactly when its result is "failed" |
| StartCommand.PatchNode | cmd/start.go:1195-1200 | the four supernode keys are set to the settings and every other key of the node section is kept |
| StartCommand.PatchNodeLastWins | cmd/start.go:1195-1200 | patching twice equals patching with the later settings, so the patch is idempotent |
| StartCommand.PatchConf | cmd/start.go:1195-1200 | succeeds exactly when a node mapping is present; only the node section changes |
| StartCommand.UpdateExistingAsWritten | cmd/start.go:1181-1210 | as written, a nil error together with a successful write means the file was rewritten |
| StartCommand.WriteFailureReportedAsSuccess | cmd/start.go:1207-1210 | a failed write of supernode.yml is reported as success although nothing was written |
| StartCommand.UpdateExisting | cmd/start.go:1181-1210 | succeeds exactly when read, parse, patch, marshal and write all succeed, and then the patched configuration is written |
| StartCommand.UpdateExistingDiffersOnlyOnWrite | cmd/start.go:1181-1210 | the corrected and as-written updates agree whenever the write succeeds, and they always write the same thing |
| StartCommand.CreateOrUpdateSuperNodeConfig | cmd/start.go:1127-1217 | a missing file is created from the rendered template; an existing one is patched by the corrected UpdateExisting (a failed rewrite is an error here, see Findings); a stat failure is returned; an empty file is left behind when the template fails after creation |
| ColdHot.RemotePath | cmd/start_coldhot.go:84-91 | the remote path has no backslash and has the length of the local join |
| ColdHot.RemotePathIsSlashJoin | cmd/start_coldhot.go:84-91 | the remote path is the directory with forward slashes, a slash, and the name |
| ColdHot.TestnetOption | cmd/start_coldhot.go:103-105 | the option is non-empty exactly on testnet |
| ColdHot.MasternodeLineTail | cmd/start_coldhot.go:251-252 | the hot masternode command line ends with ` --daemon ` |
| ColdHot.MasternodeLaunchLineShape | cmd/start_coldhot.go:251-252 | the command starts with the remote pasteld path, carries the masternode flags with the key and the external IP, and ends with ` --daemon ` |
| ColdHot.ServiceCommand | cmd/start_coldhot.go:327-330 | `<utility> start <service>`, with `--work-dir=` only when the working directory is set |
| ColdHot.ServiceCommandShape | cmd/start_coldhot.go:327-330 | the command's prefix and suffix, and its length |
| ColdHot.RunServiceRemote | cmd/start_coldhot.go:324-340 | sends the service command and fails exactly when the remote command fails |
| ColdHot.ServiceOutcome | cmd/start_coldhot.go:332-339 | the service start succeeds if and only if the remote command did |
| ColdHot.FirstOk | cmd/start_coldhot.go:349-364 | the index of the first successful getinfo, with none before it |
| ColdHot.CheckPastelDRunningRemote | cmd/start_coldhot.go:343-368 | true exactly when getinfo succeeds within the budget (12 tries when waiting for start, 1 otherwise), after the first success and no later try |
| ColdHot.TwelveFailuresGiveUp | cmd/start_coldhot.go:343-368 | twelve failed getinfo calls mean the node is not up, and a success at the thirteenth try is past the budget |
| ColdHot.BudgetEdges | cmd/start_coldhot.go:343-368 | a success at the twelfth try is within the budget when waiting, but not for a single check |
| ColdHot.SyncFrom | cmd/start_coldhot.go:396-438 | an unparsable status is fatal at once; success ends on a synced answer |
| ColdHot.CheckMasterNodeSyncRemote | cmd/start_coldhot.go:396-438 | the loop gives SyncFrom's result, only ever sends `mnsync status` and `mnsync reset`, and sends `mnsync reset` exactly as many times as the result counts |
| ColdHot.SyncEndsAtFirstSynced | cmd/start_coldhot.go:396-438 | a run of good status answers ends right after the first synced one, counting a reset for each Initial status |
| ColdHot.TwoResetsExample | cmd/start_coldhot.go:396-438 | Initial, Initial, Syncing, Synced: two resets, ending after the fourth answer |
| ColdHot.SecondQueryFailureIsFatal | cmd/start_coldhot.go:396-438 | a failed status query is retried once; a second failure in a row is returned |
| ColdHot.HotCtrlOutcome | cmd/start_coldhot.go:370-394 | the hot node control succeeds exactly when pasteld comes up, syncs and then stops cleanly |
| ColdHot.MasternodeOutcome | cmd/start_coldhot.go:249-273 | the remote masternode run succeeds exactly when pasteld comes up and syncs |
| ColdHot.PlanParts | cmd/start_coldhot.go:119-247 | the plan is the prepare head, the hot phase, the activation steps and the service phase |
| ColdHot.PiecesSorted | cmd/start_coldhot.go:119-247 | each piece of the plan is sorted, and the pieces occupy disjoint, increasing rank ranges |
| ColdHot.ServicePhaseSorted | cmd/start_coldhot.go:119-247 | the service phase is sorted and comes last |
| ColdHot.ServiceRanks | cmd/start_coldhot.go:119-247 | rq-service starts before dd-service, and both before supernode |
| ColdHot.PlanSorted | cmd/start_coldhot.go:119-247 | the whole plan is in source order |
| ColdHot.PlanOrder | cmd/start_coldhot.go:119-247 | the local stop precedes remoteHotNodeCtrl (the --create/--update preparation starts the hot pasteld earlier, see Left out); the cold node stops before any remote service; rq, dd, the supernode.yml copy and supernode come in that order; masternode.conf is read before the remote masternode runs |
| ColdHot.PlanHotPhase | cmd/start_coldhot.go:119-247 | right after the head: stop local, start hot, read masternode.conf, run the masternode; the plan ends with the supernode service |
| ColdHot.PlanMembership | cmd/start_coldhot.go:119-247 | start-alias runs exactly with --activate, ticket registration exactly with --activate and --create, and parameter preparation exactly with --create or --update |
| ColdHot.FirstFatal | cmd/start_coldhot.go:119-247 | the first step with a fatal outcome, none fatal before it |
| ColdHot.ColdHotRunner.constructor | cmd/start_coldhot.go:38-43 | the runner holds the flags and remote directories, is not connected and has taken no steps |
| ColdHot.ColdHotRunner.HandleArgs | cmd/start_coldhot.go:75-94 | a missing utility directory is an error; otherwise the exec directory gets its default and the remote cli, pasteld and utility paths are formed |
| ColdHot.ColdHotRunner.HandleConfigs | cmd/start_coldhot.go:96-116 | a failed network read is an error; otherwise the network and testnet option are set, and the result is the parameter check's; on success the flags are the resolved parameters (default RPC and P2P IPs and ports), on failure they are unchanged; the remote paths are untouched |
| ColdHot.ColdHotRunner.Init | cmd/start_coldhot.go:46-73 | succeeds exactly when the arguments, configs, SSH and external-IP lookup succeed; then it is connected, the flags are the resolved parameters with the external IP settled (the given one or the hot node's answer), and the remote paths have no backslashes; it is connected afterwards exactly when it was before or the SSH step was reached and succeeded; a failure before the parameter check leaves the flags unchanged |
| ColdHot.ColdHotRunner.RemoteHotNodeCtrl | cmd/start_coldhot.go:370-394 | launches the hot node line, and the result is HotCtrlOutcome |
| ColdHot.ColdHotRunner.RunRemoteNodeAsMasterNode | cmd/start_coldhot.go:249-273 | launches the masternode line with the key and IP, and the result is MasternodeOutcome |
| ColdHot.ColdHotRunner.HandleCreateUpdateStartColdHot | cmd/start_coldhot.go:275-322 | success means the collateral and passphrase are in place, the private key is the given one or the trimmed `genkey` output, the PastelID is the given one or the `newkey` answer, the hot node came up and stopped, and on --create the backup succeeded; conversely, when the collateral arrives, a passphrase is given or accepted, the hot node comes up, both keys are given or generated, the stop succeeds and (on --create) the backup succeeds, it succeeds |
| ColdHot.ColdHotRunner.SecondHalfColdHot | cmd/start_coldhot.go:297-321 | succeeds if and only if the private key is given or generated, the PastelID is given or created with a passphrase, the hot node stops and, on --create, the backup succeeds; the key becomes the trimmed `genkey` output only when none was given, the PastelID becomes the `newkey` answer only when none was given and the key step passed; nothing else changes |
| ColdHot.ColdHotRunner.DoStep | cmd/start_coldhot.go:119-247 | records the step, returns its outcome and applies the effect StepEffect gives it (the preparation step only defaults the P2P IP, see Left out) |
| ColdHot.ColdHotRunner.RunPlan | cmd/start_coldhot.go:119-247 | runs the plan up to and including the first fatal step, returns its error and applies exactly the StepEffect of each step taken (see Left out for the preparation step); succeeds if and only if no step of the plan is fatal |
| ColdHot.ColdHotRunner.Run | cmd/start_coldhot.go:119-247 | Run is RunPlan on the plan the flags select, so it succeeds if and only if no step of that plan is fatal |
| ColdHot.AfterKeepsFlags | cmd/start_coldhot.go:161-168 | no step changes the external IP, the mode flags or the name |
| ColdHot.MasternodeKeyFromConf | cmd/start_coldhot.go:161-168 | the remote masternode is launched with the private key read from masternode.conf |
| ColdHot.TicketFailureNotFatal | cmd/start_coldhot.go:194-199 | a failed ticket registration changes no step's fatality |
| InstallCommand.ComponentSelection | cmd/install.go:292-313 | pasteld for pasteld, walletnode and supernode; rq-service for walletnode and supernode; walletnode and supernode for themselves only |
| InstallCommand.PlanFrame | cmd/install.go:275-327 | the utility config, install directory and package check come first; ports and dupe detection are for supernode only; no other tool is installed |
| InstallCommand.PlanPieces | cmd/install.go:275-327 | exactly which steps each target's plan contains |
| InstallCommand.SuperNodeOrder | cmd/install.go:292-324 | supernode: pasteld, rq-service, supernode, then the ports, then dupe detection |
| InstallCommand.RunSteps | cmd/install.go:275-327 | runs a prefix of the steps, all but the last succeeding; success means all ran and succeeded, and a failure is the last step's |
| InstallCommand.RunComponentsInstall | cmd/install.go:275-327 | the target's plan stops at the first failing step; success means every step succeeded |
| InstallCommand.CommandName | cmd/install.go:376 | the logged name is the last `/` segment of the tool type |
| InstallCommand.InstallExecutable | cmd/install.go:395-455 | download, then unzip (zip URLs only), then the per-tool chmod and setup; pasteld also needs pastel-cli and the base environment; unknown tools succeed; any error is one of the step errors |
| InstallCommand.ComponentSetupIgnored | cmd/install.go:426-448 | the component working-environment result never changes the outcome |
| InstallCommand.DupeDetectionExecutableNeedsOnlyDownload | cmd/install.go:414-452 | dd-service, not in the switch, succeeds once downloaded and unpacked |
| InstallCommand.InstallComponent | cmd/install.go:375-393 | a failed URL lookup is returned; otherwise the result is installExecutable's |
| InstallCommand.MissingPackagesMembers | cmd/install.go:362-366 | the missing list holds exactly the required packages not installed |
| InstallCommand.MissingPackagesAppend | cmd/install.go:362-366 | the missing list of a concatenation is the concatenation of the missing lists |
| InstallCommand.CheckInstalledPackages | cmd/install.go:356-373 | only Linux is checked; there it fails exactly when a package is missing, naming the missing ones joined by ", " |
| InstallCommand.FolderError | cmd/install.go:343-346 | a folder result is an error exactly when the folder was not created |
| InstallCommand.ConfirmAnswerHoldsY | cmd/install.go:341 | an accepted answer contains Y or y |
| InstallCommand.ConfirmAnswerLetter | cmd/install.go:341 | "Y" or "y" followed by a newline is accepted |
| InstallCommand.ConfirmAnswerEmpty | cmd/install.go:341 | an empty line is refused |
| InstallCommand.InstallConfig.CreateInstallDir | cmd/install.go:329-354 | only an existing folder prompts; a read failure is returned; yes sets force and retries; any other answer returns the folder error |
| InstallCommand.RemoteCandidate | cmd/install.go:244-263 | the k-th possible remote install option has rank k |
| InstallCommand.RemoteTextIsRender | cmd/install.go:244-263 | the option text built by appends is the rendering of the chosen options |
| InstallCommand.RemoteOptionsUpToFacts | cmd/install.go:244-263 | the chosen options are in increasing rank and are exactly the enabled candidates below k |
| InstallCommand.RemoteOptionListShape | cmd/install.go:244-263 | `--dir`, `--work-dir`, `--force`, `--release` and `--peers` appear in that order, each exactly when set |
| InstallCommand.InstallConfig.UtilityPath | cmd/install.go:207-208 | the remote pastel-utility path has no backslash and the length of the local join |
| InstallCommand.InstallConfig.RunInstallSuperNodeRemote | cmd/install.go:181-269 | a missing SSH IP or directory, or a failed dial, sends nothing; otherwise the remote commands are sent in order until one fails, and success means all were sent |
| InstallCommand.PastelConfLayout | cmd/install.go:571-613 | server, listen, rpcuser and rpcpassword lines first; a testnet line exactly on testnet; one addnode line per peer |
| InstallCommand.PastelConfIndex | cmd/install.go:571-613 | the line at each position of `pastel.conf`, with the n-th addnode line holding the n-th peer |
| InstallCommand.PeersRoundTrip | cmd/install.go:603-611 | joining the nodes of the addnode lines with "," gives back the peers string |
| InstallCommand.ConfFile.constructor | cmd/install.go:563-568 | an open, empty file |
| InstallCommand.ConfFile.WriteString | cmd/install.go:571-611 | a write either appends the string or fails and changes nothing |
| InstallCommand.WrittenLines | cmd/install.go:571-611 | how many lines are written before the first failing write |
| InstallCommand.WroteStops | cmd/install.go:571-611 | after a failed write nothing more is written |
| InstallCommand.WriteLine | cmd/install.go:571-611 | writing one more line keeps the written-prefix invariant |
| InstallCommand.WriteHeader | cmd/install.go:571-601 | the fixed lines and the testnet line are written, keeping the invariant |
| InstallCommand.WritePeers | cmd/install.go:603-611 | the addnode lines are written, keeping the invariant |
| InstallCommand.WritePastelConf | cmd/install.go:571-613 | the file gets `pastel.conf`'s lines up to the first failing write |
| InstallCommand.InstallConfig.UpdatePastelConfigFile | cmd/install.go:561-625 | an open failure writes nothing; otherwise the text is the lines up to the first failing write; success means all lines were written and the sync succeeded |
| InstallCommand.DecideCases | cmd/install.go:633-656 | a present file without --force stops with "exists"; otherwise the file is kept when its checksum matches, and fetched when it differs and the download succeeds |
| InstallCommand.FirstStop | cmd/install.go:629-658 | the first parameter file at which the loop stops |
| InstallCommand.NoStopBeforeFirst | cmd/install.go:629-658 | no file before the first stop stops the loop |
| InstallCommand.ParamStep | cmd/install.go:630-656 | one loop iteration: fails exactly on a stop, and downloads exactly on a fetch |
| InstallCommand.DownloadZksnarkParams | cmd/install.go:627-664 | downloads exactly the files to fetch up to the first stop, and returns that stop's error |
| InstallCommand.FetchedMembers | cmd/install.go:648-656 | the downloaded files are exactly the listed ones whose decision is fetch |
| InstallCommand.DownloadIffChecksumDiffers | cmd/install.go:641-656 | when the loop does not stop, a file is downloaded if and only if its checksum differs from the expected one |
| InstallCommand.ExistingParamStops | cmd/install.go:633-637 | without --force, an existing file stops the loop there or earlier |
| InstallCommand.ExistsOnlyWithoutForce | cmd/install.go:633-637 | the "exists" stop happens only without --force |
| InstallCommand.ZkAbortsAsWritten | cmd/install.go:552-553 | as written, setup aborts on every parameter error |
| InstallCommand.ExistingParamAbortsSetupAsWritten | cmd/install.go:633-637 | an existing parameter file without --force aborts setup as written, but not under the intended test |
| InstallCommand.ZkAbortsOnlyOnRealErrors | cmd/install.go:552-553 | the intended test aborts only where the as-written one does, on every error but the "exists" one, and exactly as the as-written one under --force |
| InstallCommand.RandomString | cmd/install.go:529-530 | n characters, the i-th being the draw at from + i |
| InstallCommand.RPCPortFor | cmd/install.go:525-528 | 19932 on testnet and 9932 otherwise, both valid decimal numbers |
| InstallCommand.PortDigits | cmd/install.go:525-528 | the two port strings parse as 19932 and 9932 |
| InstallCommand.InstallConfig.constructor | cmd/install.go:515-530 | the configuration starts with the given flags and no RPC settings |
| InstallCommand.InstallConfig.SetupBasePasteWorkingEnvironment | cmd/install.go:515-559 | follows the corrected ZkAborts test (an existing parameter file without --force does not abort, see Findings); a working-directory failure is fatal unless it is the exec directory; sets the port and 8- and 15-character credentials; success means `pastel.conf` was written in full and the parameter loop finished or stopped only at an existing file without --force; with every step succeeding, setup succeeds |

## Left out

- I/O is not modelled: SSH transport, HTTP downloads, unzip and tar, chmod, file creation and the terminal prompts. Each is an input or a recorded command.
- Goroutines and sleeps are not modelled: pasteld is started with `go RunCMD`, and polls wait. Only the order of the results is kept.
- JSON and YAML parsing are not modelled. pasteld's replies and `supernode.yml` arrive already parsed.
- The random string generator is left out. The random characters are the `draw` parameter.
- The tables `DependenciesPackages`, `ZksnarkParamsNames`, `PastelParamsCheckSums` and the per-OS names of the rq, supernode, walletnode and dupe-detection executables are not part of this model. They are parameters.
- `CreateUtilityConfigFile`, `openPort`, `installDupeDetection`, `processArchive`, `makeExecutable` and `setupComponentWorkingEnvironment` are not modelled in themselves. They are step results in RunComponentsInstall and InstallExecutable.
- The other run* subcommands of start and install are not part of this model: walletnode, supernode, the services and dupe detection.
- StartCommand.PollCollateral: the loop in the source has no end of its own. The model stops with StillWaiting when the scripted polls or answers run out, and AwaitCollateral reports this with a message of the model's own.
- ColdHot.SyncFrom: an `ErrSyncUnfinished` result when the scripted answers run out is a stop of the model's own.
- StartCommand.PatchConf: a `supernode.yml` without a `node` mapping makes the source panic on its type assertion. The model returns an error instead.
- Util.Atoi: the 64-bit range check of `strconv.Atoi` is left out. Integers are unbounded and only digit strings parse.
- InstallCommand.ConfFile.WriteString: the error text of a failed write is the model's own, because the operating system's message is not known.
- ServiceManager.SudoArgv: only the argument vector of `runSudoCMD` is modelled, not its execution.
- ServiceManager.SystemdManager.RegisterService: follows the corrected PlanUnit, so a missing executable returns an error where servicemanager.go:138-141 returns nil (see Findings).
- StartCommand.CreateOrUpdateSuperNodeConfig: uses the corrected UpdateExisting, so a failed rewrite of an existing `supernode.yml` returns the write error where start.go:1207-1210 returns nil (see Findings).
- InstallCommand.InstallConfig.SetupBasePasteWorkingEnvironment: uses the corrected ZkAborts test, so an existing zk-SNARK parameter file without --force lets setup go on where install.go:552-553 returns the error (see Findings).
- ColdHot.ColdHotRunner.DoStep: the PrepareMasternode step is the answer `env.prepare`, and its effect only defaults the P2P IP. The changes handleCreateUpdateStartColdHot makes to the txid, index, passphrase, private key and PastelID are not tracked in the run, and neither is its launch of the hot pasteld while the local node is still running (start_coldhot.go:286-291). HandleCreateUpdateStartColdHot models that operation on its own.
- ColdHot.ColdHotRunner.RunPlan: the new flags and launch lines are exact only with respect to StepEffect, so they leave out the preparation step's flag changes and hot-node launch.
- ColdHot.ColdHotRunner.Run: leaves out the same preparation effects as RunPlan.
- ColdHot.PlanOrder: orders the plan's steps, so "the local stop precedes the hot node start" is about remoteHotNodeCtrl only. The hot pasteld the preparation step launches comes before the local stop.
- Util.PathJoin: the Clean step of `filepath.Join` is not modelled. Separators already at the end of the directory, "." and ".." are kept, and this carries over to RemotePath, UtilityPath, ExecPath and the parameter-file paths.

## Findings

| source | as written | input that shows it | evidently intended | confidence | as-written member | corrected member |
|---|---|---|---|---|---|---|
| servicemanager/servicemanager.go:138-141 | when a tool's executable is missing, `RegisterService` logs "Could not find" and returns `err`, which is still nil | registering supernode with no supernode executable in the exec directory | return an error for the missing executable | not executed | ServiceManager.MissingExecutableReportsSuccess | ServiceManager.PlanUnit |
| cmd/start.go:1207-1210 | when `ioutil.WriteFile` fails, the function returns `err`, which holds the nil result of `yaml.Marshal` | an existing `supernode.yml` whose rewrite fails, for example on a full disk | return the write error | not executed | StartCommand.WriteFailureReportedAsSuccess | StartCommand.UpdateExisting |
| cmd/install.go:552-553 | setup tolerates the parameter error only when `os.IsExist(err)`, but the "exists" error at line 637 is a plain formatted error, so `os.IsExist` never holds | a zk-SNARK parameter file already present and no --force | go on with setup when a parameter file exists and --force is not set | not executed | InstallCommand.ExistingParamAbortsSetupAsWritten | InstallCommand.ZkAbortsOnlyOnRealErrors |
