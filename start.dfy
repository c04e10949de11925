// The masternode start path of `pastelup start`: the pasteld command line,
// the local node launch, the remote start command, the validation and
// resolution of the masternode flags, collateral discovery, start-alias and
// the supernode.yml update. The package-level flagMasterNode* variables are
// the fields of one Flags object; every answer from pasteld, the network or
// the user is an input.
module StartCommand {
  import opened Util
  import opened Constants
  import ServiceManager

  // ---------------------------------------------------------------------
  // Error messages of the start command

  const ErrPasteldNotStarted: string := "pasteld was not started"
  const ErrNoName: string := "required: --name, name of the Masternode to start"
  const ErrNoExternalIP: string := "cannot get external ip address"
  const ErrNoSSHAddress: string := "required if --coldhot is specified, \U{2013}-ssh-ip, SSH address of the remote HOT node"
  const ErrNoPassphrase: string := "required parameter if --create or --update specified: --passphrase <passphrase to pastelid private key>"
  const ErrNoCollateralPicked: string := "user terminated - no collateral funds"
  const ErrNoCollateral: string := "no collateral funds"
  const ErrUserTerminated: string := "user terminated"
  /** Not a message of pastelup: its poll loop has no end of its own, and
      the model stops when the scripted polls run out. */
  const ErrStillWaiting: string := "collateral transaction not seen yet"
  const ErrNoOutputs: string := "Cannot find masternode outputs = "
  const ErrConfIPPrefix: string := "External IP address in masternode.conf MUST match WAN address of the node! IP in masternode.conf - "
  const ErrConfIPMiddle: string := ", WAN IP passed or identified - "
  const ErrStartAliasFailed: string := "masternode start alias failed"

  // ---------------------------------------------------------------------
  // The pasteld command line

  /** Appends `items` when `on` holds. */
  function When<T>(on: bool, items: seq<T>): seq<T>
  {
    if on then items else []
  }

  /** The arguments runPastelNode passes to pasteld, as a list of optional
      groups in launch order. */
  function PasteldArgList(workingDir: string, extIP: string, txIndexOne: bool, reindex: bool, mnPrivKey: string): seq<string>
  {
    ["--datadir=" + workingDir, "--externalip=" + extIP]
    + When(txIndexOne, ["--txindex=1"])
    + When(reindex, ["--reindex"])
    + When(|mnPrivKey| != 0, ["--masternode", "--masternodeprivkey=" + mnPrivKey])
    + ["--daemon"]
  }

  /** The shape of the pasteld command line: data directory and external IP
      first, `--daemon` last, each optional flag present exactly when its
      input asks for it, and the masternode flags adjacent and together. */
  lemma {:induction false} PasteldArgListShape(workingDir: string, extIP: string, txIndexOne: bool, reindex: bool, mnPrivKey: string)
    ensures var args := PasteldArgList(workingDir, extIP, txIndexOne, reindex, mnPrivKey);
      && |args| >= 3
      && args[0] == "--datadir=" + workingDir && args[1] == "--externalip=" + extIP
      && args[|args| - 1] == "--daemon"
      && ("--txindex=1" in args <==> txIndexOne)
      && ("--reindex" in args <==> reindex)
      && ("--masternode" in args <==> |mnPrivKey| != 0)
      && (|mnPrivKey| != 0 ==> args[|args| - 3] == "--masternode" && args[|args| - 2] == "--masternodeprivkey=" + mnPrivKey)
      && ("--daemon" !in args[..|args| - 1])
  {
    var d, e := "--datadir=" + workingDir, "--externalip=" + extIP;
    var k := "--masternodeprivkey=" + mnPrivKey;
    var t := When(txIndexOne, ["--txindex=1"]);
    var r := When(reindex, ["--reindex"]);
    var m := When(|mnPrivKey| != 0, ["--masternode", k]);
    var args := PasteldArgList(workingDir, extIP, txIndexOne, reindex, mnPrivKey);
    assert args == [d, e] + t + r + m + ["--daemon"];
    // The fixed arguments differ from every flag in their third character
    // or in their length.
    assert d[2] == 'd' && e[2] == 'e' && k[2] == 'm' && |k| > |"--masternode"|;
    assert "--txindex=1"[2] == 't' && "--reindex"[2] == 'r' && "--daemon"[2] == 'd' && "--masternode"[2] == 'm';
    assert |d| > |"--daemon"|;
    assert k != "--daemon" && k != "--masternode";
    assert args[..|args| - 1] == [d, e] + t + r + m;
  }

  /** pasteldArgs, built by successive appends as runPastelNode does. */
  method BuildPasteldArgs(workingDir: string, extIP: string, txIndexOne: bool, reindex: bool, mnPrivKey: string)
    returns (args: seq<string>)
    ensures args == PasteldArgList(workingDir, extIP, txIndexOne, reindex, mnPrivKey)
  {
    args := [];
    args := args + ["--datadir=" + workingDir, "--externalip=" + extIP];
    if txIndexOne {
      args := args + ["--txindex=1"];
    }
    if reindex {
      args := args + ["--reindex"];
    }
    if |mnPrivKey| != 0 {
      args := args + ["--masternode", "--masternodeprivkey=" + mnPrivKey];
    }
    args := args + ["--daemon"];
  }

  // ---------------------------------------------------------------------
  // Launching the local node

  /** The configuration fields the start path reads. */
  datatype StartConfig = StartConfig(
    os: OSType,
    workingDir: string,
    pastelExecDir: string,
    network: string,
    reIndex: bool,
    legacy: bool,
    remoteIP: string)

  /** What runPastelNode finds on the host: the pasteld path check, the
      pastel.conf check, the zksnark parameter check, the external-IP
      lookup and whether pasteld answers in time after launch. */
  datatype NodeHost = NodeHost(
    pasteldPath: Result<string>,
    pastelConf: Error,
    zksnarkParams: Error,
    externalIP: Result<string>,
    startsInTime: bool)

  /** A detached pasteld process started with these arguments. */
  datatype Launch = Launch(path: string, args: seq<string>)

  /** The checks runPastelNode makes before launching all pass. */
  predicate LaunchChecksPass(host: NodeHost, extIP: string)
  {
    host.pasteldPath.Ok? && host.pastelConf == Nil && host.zksnarkParams == Nil
    && (|extIP| != 0 || host.externalIP.Ok?)
  }

  /** The external IP pasteld is launched with. */
  function LaunchIP(host: NodeHost, extIP: string): string
    requires |extIP| != 0 || host.externalIP.Ok?
  {
    if |extIP| != 0 then extIP else host.externalIP.value
  }

  /** runPastelNode. On Linux the systemd unit is tried first: a started
      unit ends the call successfully and a failed start ends it with the
      error, in both cases without launching. Otherwise every check must
      pass before pasteld is launched; it then succeeds iff pasteld
      answers in time. */
  method RunPastelNode(sm: ServiceManager.SystemdManager, cfg: StartConfig, host: NodeHost,
                       txIndexOne: bool, reindex: bool, extIP: string, mnPrivKey: string)
    returns (err: Error, launch: Option<Launch>)
    modifies sm`calls, sm`running, sm`enabled
    ensures cfg.os != Linux ==> sm.calls == old(sm.calls) && sm.running == old(sm.running)
    ensures sm.enabled == old(sm.enabled)
    ensures cfg.os == Linux && old(sm.StartSucceeds(PastelD)) ==> err == Nil && launch == None
    ensures cfg.os == Linux && old(sm.StartFails(PastelD)) ==> err.Failure? && launch == None
    ensures !(cfg.os == Linux && (old(sm.StartSucceeds(PastelD)) || old(sm.StartFails(PastelD)))) ==>
      (launch.Some? <==> LaunchChecksPass(host, extIP))
      && (launch.Some? ==> launch.value == Launch(host.pasteldPath.value,
            PasteldArgList(cfg.workingDir, LaunchIP(host, extIP), txIndexOne, reindex, mnPrivKey)))
      && (err == Nil <==> launch.Some? && host.startsInTime)
  {
    launch := None;
    var serviceEnabled := ServiceManager.New(cfg.os, sm.homeDir).1 == Nil;
    if serviceEnabled {
      var started, e := sm.StartService(PastelD);
      if e.Failure? {
        return e, None;
      }
      if started {
        return Nil, None;
      }
    }
    if host.pasteldPath.Err? {
      return Failure(host.pasteldPath.msg), None;
    }
    if host.pastelConf.Failure? {
      return host.pastelConf, None;
    }
    if host.zksnarkParams.Failure? {
      return host.zksnarkParams, None;
    }
    var ip := extIP;
    if |ip| == 0 {
      if host.externalIP.Err? {
        return Failure(host.externalIP.msg), None;
      }
      ip := host.externalIP.value;
    }
    var args := BuildPasteldArgs(cfg.workingDir, ip, txIndexOne, reindex, mnPrivKey);
    launch := Some(Launch(host.pasteldPath.value, args));
    if !host.startsInTime {
      return Failure(ErrPasteldNotStarted), launch;
    }
    return Nil, launch;
  }

  // ---------------------------------------------------------------------
  // The remote start command

  /** One option of the remote start command. */
  datatype StartOption = Name(name: string) | Activate | IP(ip: string) | ReIndex | Legacy
                       | DevMode | Dir(dir: string) | WorkDir(workDir: string)

  /** The text appended for an option. */
  function OptionText(o: StartOption): string
  {
    match o
    case Name(n) => " --name=" + n
    case Activate => " --activate"
    case IP(ip) => " --ip=" + ip
    case ReIndex => " --reindex"
    case Legacy => " --legacy"
    case DevMode => " --development-mode"
    case Dir(d) => " --dir=" + d
    case WorkDir(w) => " --work-dir=" + w
  }

  /** The position of an option in the fixed order. */
  function Rank(o: StartOption): nat
  {
    match o
    case Name(_) => 0
    case Activate => 1
    case IP(_) => 2
    case ReIndex => 3
    case Legacy => 4
    case DevMode => 5
    case Dir(_) => 6
    case WorkDir(_) => 7
  }

  /** The k-th candidate option in the fixed order, and whether its source
      is set. */
  function Candidate(k: nat, mn: MasternodeParams, cfg: StartConfig, devMode: bool): (c: (bool, StartOption))
    requires k < 8
    ensures Rank(c.1) == k
  {
    if k == 0 then (|mn.name| > 0, Name(mn.name))
    else if k == 1 then (mn.isActivate, Activate)
    else if k == 2 then (|mn.extIP| > 0, IP(mn.extIP))
    else if k == 3 then (cfg.reIndex, ReIndex)
    else if k == 4 then (cfg.legacy, Legacy)
    else if k == 5 then (devMode, DevMode)
    else if k == 6 then (|cfg.pastelExecDir| > 0, Dir(cfg.pastelExecDir))
    else (|cfg.workingDir| > 0, WorkDir(cfg.workingDir))
  }

  /** The set options among the first k candidates, in order. */
  function OptionsUpTo(k: nat, mn: MasternodeParams, cfg: StartConfig, devMode: bool): seq<StartOption>
    requires k <= 8
  {
    if k == 0 then []
    else
      var c := Candidate(k - 1, mn, cfg, devMode);
      if c.0 then OptionsUpTo(k - 1, mn, cfg, devMode) + [c.1] else OptionsUpTo(k - 1, mn, cfg, devMode)
  }

  /** The options runRemoteStart appends after the tool. */
  function StartOptionList(mn: MasternodeParams, cfg: StartConfig, devMode: bool): seq<StartOption>
  {
    OptionsUpTo(8, mn, cfg, devMode)
  }

  /** The first k candidates' options come in rank order, and an option is
      among them exactly when it is a set candidate of rank below k. */
  lemma {:induction false} OptionsUpToFacts(k: nat, mn: MasternodeParams, cfg: StartConfig, devMode: bool)
    requires k <= 8
    ensures var opts := OptionsUpTo(k, mn, cfg, devMode);
      && (forall i, j :: 0 <= i < j < |opts| ==> Rank(opts[i]) < Rank(opts[j]))
      && (forall i :: 0 <= i < |opts| ==> Rank(opts[i]) < k)
      && (forall o :: o in opts <==> Rank(o) < k && Candidate(Rank(o), mn, cfg, devMode) == (true, o))
  {
    if k > 0 {
      OptionsUpToFacts(k - 1, mn, cfg, devMode);
      var prev := OptionsUpTo(k - 1, mn, cfg, devMode);
      var opts := OptionsUpTo(k, mn, cfg, devMode);
      forall o ensures o in opts <==> Rank(o) < k && Candidate(Rank(o), mn, cfg, devMode) == (true, o) {
        if Rank(o) == k - 1 {
          assert o !in prev;
        }
      }
    }
  }

  /** The options come in the fixed order, so each at most once, and each
      is present exactly when its source is set. */
  lemma StartOptionListShape(mn: MasternodeParams, cfg: StartConfig, devMode: bool)
    ensures var opts := StartOptionList(mn, cfg, devMode);
      && (forall i, j :: 0 <= i < j < |opts| ==> Rank(opts[i]) < Rank(opts[j]))
      && (Name(mn.name) in opts <==> |mn.name| > 0)
      && (Activate in opts <==> mn.isActivate)
      && (IP(mn.extIP) in opts <==> |mn.extIP| > 0)
      && (ReIndex in opts <==> cfg.reIndex)
      && (Legacy in opts <==> cfg.legacy)
      && (DevMode in opts <==> devMode)
      && (Dir(cfg.pastelExecDir) in opts <==> |cfg.pastelExecDir| > 0)
      && (WorkDir(cfg.workingDir) in opts <==> |cfg.workingDir| > 0)
  {
    OptionsUpToFacts(8, mn, cfg, devMode);
  }

  /** `base` followed by the texts of `opts`. */
  function Render(base: string, opts: seq<StartOption>): string
  {
    if |opts| == 0 then base else Render(base, opts[..|opts| - 1]) + OptionText(opts[|opts| - 1])
  }

  /** `s`, with `t` appended when `on` holds. */
  function AddText(s: string, on: bool, t: string): string
  {
    if on then s + t else s
  }

  /** The text runRemoteStart has built after its first k `if`s. */
  function TextUpTo(k: nat, tool: string, mn: MasternodeParams, cfg: StartConfig, devMode: bool): string
    requires k <= 8
  {
    if k == 0 then tool
    else
      var c := Candidate(k - 1, mn, cfg, devMode);
      AddText(TextUpTo(k - 1, tool, mn, cfg, devMode), c.0, OptionText(c.1))
  }

  /** Appending the set options one `if` at a time yields the tool followed
      by the texts of the option list. */
  lemma {:induction false} TextUpToIsRender(k: nat, tool: string, mn: MasternodeParams, cfg: StartConfig, devMode: bool)
    requires k <= 8
    ensures TextUpTo(k, tool, mn, cfg, devMode) == Render(tool, OptionsUpTo(k, mn, cfg, devMode))
  {
    if k > 0 {
      TextUpToIsRender(k - 1, tool, mn, cfg, devMode);
      var prev := OptionsUpTo(k - 1, mn, cfg, devMode);
      var c := Candidate(k - 1, mn, cfg, devMode);
      if c.0 {
        assert (prev + [c.1])[..|prev|] == prev;
      }
    }
  }

  lemma TextUpToFirstFour(tool: string, mn: MasternodeParams, cfg: StartConfig, devMode: bool)
    ensures TextUpTo(4, tool, mn, cfg, devMode) == AddText(AddText(AddText(AddText(tool, |mn.name| > 0, OptionText(Name(mn.name))), mn.isActivate, OptionText(Activate)), |mn.extIP| > 0, OptionText(IP(mn.extIP))), cfg.reIndex, OptionText(ReIndex))
  {
    var t1 := AddText(tool, |mn.name| > 0, OptionText(Name(mn.name)));
    assert TextUpTo(1, tool, mn, cfg, devMode) == t1;
    var t2 := AddText(t1, mn.isActivate, OptionText(Activate));
    assert TextUpTo(2, tool, mn, cfg, devMode) == t2;
    var t3 := AddText(t2, |mn.extIP| > 0, OptionText(IP(mn.extIP)));
    assert TextUpTo(3, tool, mn, cfg, devMode) == t3;
    var t4 := AddText(t3, cfg.reIndex, OptionText(ReIndex));
    assert TextUpTo(4, tool, mn, cfg, devMode) == t4;
  }

  lemma TextUpToLastFour(tool: string, mn: MasternodeParams, cfg: StartConfig, devMode: bool)
    ensures TextUpTo(8, tool, mn, cfg, devMode) == AddText(AddText(AddText(AddText(TextUpTo(4, tool, mn, cfg, devMode), cfg.legacy, OptionText(Legacy)), devMode, OptionText(DevMode)), |cfg.pastelExecDir| > 0, OptionText(Dir(cfg.pastelExecDir))), |cfg.workingDir| > 0, OptionText(WorkDir(cfg.workingDir)))
  {
    var t5 := AddText(TextUpTo(4, tool, mn, cfg, devMode), cfg.legacy, OptionText(Legacy));
    assert TextUpTo(5, tool, mn, cfg, devMode) == t5;
    var t6 := AddText(t5, devMode, OptionText(DevMode));
    assert TextUpTo(6, tool, mn, cfg, devMode) == t6;
    var t7 := AddText(t6, |cfg.pastelExecDir| > 0, OptionText(Dir(cfg.pastelExecDir)));
    assert TextUpTo(7, tool, mn, cfg, devMode) == t7;
    var t8 := AddText(t7, |cfg.workingDir| > 0, OptionText(WorkDir(cfg.workingDir)));
    assert TextUpTo(8, tool, mn, cfg, devMode) == t8;
  }

  /** TextUpTo(8) written out: the eight conditional appends in order. */
  lemma TextUpToEight(tool: string, mn: MasternodeParams, cfg: StartConfig, devMode: bool)
    ensures TextUpTo(8, tool, mn, cfg, devMode) == AddText(AddText(AddText(AddText(AddText(AddText(AddText(AddText(tool, |mn.name| > 0, OptionText(Name(mn.name))), mn.isActivate, OptionText(Activate)), |mn.extIP| > 0, OptionText(IP(mn.extIP))), cfg.reIndex, OptionText(ReIndex)), cfg.legacy, OptionText(Legacy)), devMode, OptionText(DevMode)), |cfg.pastelExecDir| > 0, OptionText(Dir(cfg.pastelExecDir))), |cfg.workingDir| > 0, OptionText(WorkDir(cfg.workingDir)))
  {
    TextUpToFirstFour(tool, mn, cfg, devMode);
    TextUpToLastFour(tool, mn, cfg, devMode);
  }

  /** One `if` of runRemoteStart: `t` is appended when `on` holds. */
  method AppendWhen(s: string, on: bool, t: string) returns (r: string)
    ensures r == AddText(s, on, t)
  {
    r := s;
    if on {
      r := r + t;
    }
  }

  /** runRemoteStart. The command is "<pastelup> start " followed by the
      tool and then the texts of the set options in the fixed order
      (TextUpToIsRender, StartOptionListShape). A failure of the
      remote command is only logged, so the result is always nil. */
  method RunRemoteStart(remotePastelupPath: string, tool: string, mn: MasternodeParams, cfg: StartConfig,
                        devMode: bool, remoteResult: Error)
    returns (cmd: string, err: Error)
    ensures err == Nil
    ensures cmd == remotePastelupPath + " start " + TextUpTo(8, tool, mn, cfg, devMode)
  {
    var startOptions := tool;
    startOptions := AppendWhen(startOptions, |mn.name| > 0, " --name=" + mn.name);
    startOptions := AppendWhen(startOptions, mn.isActivate, " --activate");
    startOptions := AppendWhen(startOptions, |mn.extIP| > 0, " --ip=" + mn.extIP);
    startOptions := AppendWhen(startOptions, cfg.reIndex, " --reindex");
    startOptions := AppendWhen(startOptions, cfg.legacy, " --legacy");
    startOptions := AppendWhen(startOptions, devMode, " --development-mode");
    startOptions := AppendWhen(startOptions, |cfg.pastelExecDir| > 0, " --dir=" + cfg.pastelExecDir);
    startOptions := AppendWhen(startOptions, |cfg.workingDir| > 0, " --work-dir=" + cfg.workingDir);
    TextUpToEight(tool, mn, cfg, devMode);
    cmd := remotePastelupPath + " start " + startOptions;
    // executeRemoteCommandsWithInventory's error is logged and dropped.
    err := Nil;
  }

  // ---------------------------------------------------------------------
  // Masternode flags

  /** The flagMasterNode* variables (and flagNodeExtIP). */
  datatype MasternodeParams = MasternodeParams(
    name: string,
    extIP: string,
    isCreate: bool,
    isUpdate: bool,
    isActivate: bool,
    rpcIP: string,
    p2pIP: string,
    port: int,
    rpcPort: int,
    p2pPort: int,
    txID: string,
    ind: string,
    passPhrase: string,
    pastelID: string,
    privateKey: string)

  /** GetSNPortList: the node, supernode and p2p ports of the network. */
  datatype PortList = PortList(nodePort: int, snPort: int, p2pPort: int)

  /** masternode.conf's entry for the node: its private key and IP. */
  datatype MasternodeConfEntry = MasternodeConfEntry(privKey: string, extIP: string)

  /** The choices and answers checkCollateral meets: whether to search the
      wallet, the outputs found then and the order they are listed in, the
      number typed, whether to generate an address, getnewaddress's result,
      the txid typed, and then the outputs seen by each poll and the answers
      to "Continue?". */
  datatype CollateralDialog = CollateralDialog(
    searchWallet: bool,
    existing: Result<map<string, string>>,
    listing: seq<string>,
    pickedNumber: string,
    generateAddress: bool,
    newAddress: Result<string>,
    sentTxid: string,
    polls: seq<Result<map<string, string>>>,
    keepWaiting: seq<bool>)

  /** `listing` enumerates the keys of `outputs`, each once, in the order a
      Go map range happened to produce. */
  predicate IsListing(listing: seq<string>, outputs: map<string, string>)
  {
    |listing| == |outputs| && (forall i :: 0 <= i < |listing| ==> listing[i] in outputs)
    && (forall i, j :: 0 <= i < j < |listing| ==> listing[i] != listing[j])
  }

  /** The collateral amount (in millions) and coin the user is asked to
      send, per network. */
  function CollateralAmount(network: string): (r: (string, string))
    ensures network == NetworkTestnet ==> r == ("1", "LSP")
    ensures network == NetworkRegTest ==> r == ("0.1", "REG")
    ensures network != NetworkTestnet && network != NetworkRegTest ==> r == ("5", "PSL")
  {
    if network == NetworkTestnet then ("1", "LSP")
    else if network == NetworkRegTest then ("0.1", "REG")
    else ("5", "PSL")
  }

  /** The collateral poll loop of checkCollateral ends like this. */
  datatype PollOutcome = Found(ind: string) | PollFailed(msg: string) | UserStopped | StillWaiting

  /** Whether the k-th poll (counting from 1) that does not find the txid is
      followed by the "Continue?" question: the loop counter starts at 1,
      and after the question it is reset to 1 and then incremented. */
  predicate AsksAfterPoll(k: nat)
  {
    k >= 10 && (k - 10) % 9 == 0
  }

  /** How many questions follow the first k polls. */
  function QuestionsAfter(k: nat): nat
  {
    if k < 10 then 0 else (k - 10) / 9 + 1
  }

  lemma QuestionsAfterStep(k: nat)
    ensures QuestionsAfter(k + 1) == QuestionsAfter(k) + (if AsksAfterPoll(k + 1) then 1 else 0)
  {
  }

  /** Questions only accumulate as polls go by. */
  lemma QuestionsAfterMonotone(a: nat, b: nat)
    requires a <= b
    ensures QuestionsAfter(a) <= QuestionsAfter(b)
  {
  }

  /** The txid first appears at poll k (counting from 0), and every
      question asked during the polls before it was answered yes. */
  predicate SeenWhileWaiting(polls: seq<Result<map<string, string>>>, keepWaiting: seq<bool>, txid: string, k: nat)
  {
    k < |polls| && polls[k].Ok? && txid in polls[k].value
    && (forall j :: 0 <= j < k ==> polls[j].Ok? && txid !in polls[j].value)
    && QuestionsAfter(k) <= |keepWaiting|
    && (forall q :: 0 <= q < QuestionsAfter(k) ==> keepWaiting[q])
  }

  /** The poll loop can succeed: the txid is not empty and is first seen,
      with a non-empty index, before the user declines to wait. */
  predicate CollateralArrives(polls: seq<Result<map<string, string>>>, keepWaiting: seq<bool>, txid: string)
  {
    |txid| > 0
    && exists k: nat :: k < |polls| && SeenWhileWaiting(polls, keepWaiting, txid, k) && |polls[k].value[txid]| > 0
  }

  /** The first question follows poll 10 and every later one follows nine
      polls after the previous question. */
  lemma {:induction false} PollRounds(k: nat)
    ensures AsksAfterPoll(10) && forall j :: 1 <= j < 10 ==> !AsksAfterPoll(j)
    ensures AsksAfterPoll(k) ==> AsksAfterPoll(k + 9) && forall j :: k < j < k + 9 ==> !AsksAfterPoll(j)
  {
    if AsksAfterPoll(k) {
      assert (k + 9 - 10) % 9 == (k - 10) % 9 by {
        assert k + 9 - 10 == (k - 10) + 9;
      }
      forall j | k < j < k + 9 ensures !AsksAfterPoll(j) {
        assert (j - 10) == (k - 10) + (j - k);
        assert 0 < j - k < 9;
      }
    }
  }

  /** The poll loop of checkCollateral over the outputs seen by successive
      polls: it stops at the first failed poll or the first poll whose
      outputs hold the txid (adopting its index), and after the polls that
      AsksAfterPoll selects it asks whether to go on. Running out of the
      given polls or answers is StillWaiting. */
  method PollCollateral(txid: string, polls: seq<Result<map<string, string>>>, keepWaiting: seq<bool>)
    returns (outcome: PollOutcome, used: nat, asked: nat)
    ensures used <= |polls| && asked <= |keepWaiting|
    ensures forall j :: 0 <= j < used - 1 ==> polls[j].Ok? && txid !in polls[j].value
    ensures outcome.Found? ==>
              used > 0 && polls[used - 1].Ok? && txid in polls[used - 1].value
              && outcome.ind == polls[used - 1].value[txid] && asked == QuestionsAfter(used - 1)
    ensures outcome.PollFailed? ==> used > 0 && polls[used - 1].Err? && asked == QuestionsAfter(used - 1)
    ensures outcome.UserStopped? ==>
              used > 0 && AsksAfterPoll(used) && asked == QuestionsAfter(used)
              && asked > 0 && !keepWaiting[asked - 1]
    ensures outcome.StillWaiting? ==>
              used == |polls| || (used > 0 && asked == |keepWaiting| && QuestionsAfter(used) == asked + 1)
    ensures forall q :: 0 <= q < asked - 1 ==> keepWaiting[q]
    ensures !outcome.UserStopped? ==> forall q :: 0 <= q < asked ==> keepWaiting[q]
    ensures !outcome.Found? && !outcome.PollFailed? ==> used == 0 || (polls[used - 1].Ok? && txid !in polls[used - 1].value)
  {
    var i := 1;
    used, asked := 0, 0;
    outcome := StillWaiting;
    while i <= 10
      invariant 0 <= used <= |polls| && asked <= |keepWaiting|
      invariant i == (if used < 10 then used + 1 else (used - 10) % 9 + 2)
      invariant asked == QuestionsAfter(used)
      invariant forall j :: 0 <= j < used ==> polls[j].Ok? && txid !in polls[j].value
      invariant forall q :: 0 <= q < asked ==> keepWaiting[q]
      decreases |polls| - used
    {
      if used == |polls| {
        return StillWaiting, used, asked;
      }
      var reply := polls[used];
      QuestionsAfterStep(used);
      used := used + 1;
      if reply.Err? {
        return PollFailed(reply.msg), used, asked;
      }
      if txid in reply.value {
        return Found(reply.value[txid]), used, asked;
      }
      if i == 10 {
        if asked == |keepWaiting| {
          return StillWaiting, used, asked;
        }
        var yes := keepWaiting[asked];
        asked := asked + 1;
        if !yes {
          return UserStopped, used, asked;
        }
        i := 1;
      }
      i := i + 1;
    }
  }

  // ---------------------------------------------------------------------
  // Resolving the masternode flags

  /** The RPC and P2P addresses default to the external IP and the ports to
      the network's port list; values already given are kept. */
  function ResolvedParams(m: MasternodeParams, ports: PortList): (r: MasternodeParams)
    ensures |m.rpcIP| > 0 ==> r.rpcIP == m.rpcIP
    ensures |m.rpcIP| == 0 ==> r.rpcIP == m.extIP
    ensures |m.p2pIP| > 0 ==> r.p2pIP == m.p2pIP
    ensures |m.p2pIP| == 0 ==> r.p2pIP == m.extIP
    ensures r.port == (if m.port == 0 then ports.nodePort else m.port)
    ensures r.rpcPort == (if m.rpcPort == 0 then ports.snPort else m.rpcPort)
    ensures r.p2pPort == (if m.p2pPort == 0 then ports.p2pPort else m.p2pPort)
    ensures r == m.(rpcIP := r.rpcIP, p2pIP := r.p2pIP, port := r.port, rpcPort := r.rpcPort, p2pPort := r.p2pPort)
  {
    m.(rpcIP := if |m.rpcIP| == 0 then m.extIP else m.rpcIP,
       p2pIP := if |m.p2pIP| == 0 then m.extIP else m.p2pIP,
       port := if m.port == 0 then ports.nodePort else m.port,
       rpcPort := if m.rpcPort == 0 then ports.snPort else m.rpcPort,
       p2pPort := if m.p2pPort == 0 then ports.p2pPort else m.p2pPort)
  }

  /** Resolving twice is resolving once, and with a known external IP and
      a port list without zeros nothing is left unset. */
  lemma ResolvedParamsIdempotent(m: MasternodeParams, ports: PortList)
    ensures ResolvedParams(ResolvedParams(m, ports), ports) == ResolvedParams(m, ports)
    ensures |m.extIP| > 0 ==> |ResolvedParams(m, ports).rpcIP| > 0 && |ResolvedParams(m, ports).p2pIP| > 0
    ensures ports.nodePort != 0 && ports.snPort != 0 && ports.p2pPort != 0 ==>
              ResolvedParams(m, ports).port != 0 && ResolvedParams(m, ports).rpcPort != 0
              && ResolvedParams(m, ports).p2pPort != 0
  {
  }

  /** The external IP checkStartMasterNodeParams settles on: the --ip value,
      or the discovered WAN address when --ip is empty outside cold/hot. */
  function SettledExtIP(given: string, coldHot: bool, discovered: Result<string>): string
  {
    if |given| == 0 && !coldHot && discovered.Ok? then discovered.value else given
  }

  /** Every check of checkStartMasterNodeParams passes: a name, an IP that
      is given or discovered (cold/hot finds it on the remote host later),
      an existing masternode.conf unless --create, and an SSH address for
      cold/hot. */
  predicate ParamsCheckPass(m: MasternodeParams, coldHot: bool, remoteIP: string,
                            discovered: Result<string>, confCheck: Error)
  {
    |m.name| > 0
    && (|m.extIP| > 0 || coldHot || discovered.Ok?)
    && (m.isCreate || confCheck == Nil)
    && (!coldHot || |remoteIP| > 0)
  }

  /** An answer to the passphrase prompt that checkPassphrase accepts:
      neither empty nor "n" in either case. */
  predicate PassphraseAnswer(answer: string)
  {
    answer != "" && answer != "n" && answer != "N"
  }

  lemma PassphraseAnswerNonEmpty(answer: string)
    ensures PassphraseAnswer(answer) ==> |answer| > 0
    ensures !PassphraseAnswer(answer) <==> answer in {"", "n", "N"}
  {
  }

  /** The collateral txid and index checkCollateral has before it polls,
      and the error that ends it there, if any. */
  datatype Selection = Selection(err: Error, txID: string, ind: string)

  /** The wallet search and the new-address dialog of checkCollateral. Both
      are skipped when the txid and index are already known; a wallet pick
      sets both from the listed outputs; a new address sets the txid the
      user types (with newlines trimmed). */
  function SelectCollateral(txID: string, ind: string, d: CollateralDialog): (r: Selection)
    requires d.searchWallet && d.existing.Ok? ==> IsListing(d.listing, d.existing.value)
    ensures |txID| > 0 && |ind| > 0 ==> r == Selection(Nil, txID, ind)
    ensures r.err == Nil ==>
      (r.txID == txID && r.ind == ind && |txID| > 0 && |ind| > 0)
      || (d.searchWallet && d.existing.Ok? && r.txID in d.existing.value && r.ind == d.existing.value[r.txID]
          && |r.txID| > 0 && |r.ind| > 0)
      || (d.generateAddress && d.newAddress.Ok? && r.txID == Trim(d.sentTxid, {'\n'}))
    ensures (|txID| == 0 || |ind| == 0) && d.searchWallet && d.existing.Ok? && |d.existing.value| > 0
            && (Atoi(d.pickedNumber).None? || Atoi(d.pickedNumber).value < 0
                || Atoi(d.pickedNumber).value >= |d.existing.value|)
            ==> r.err.Failure?
    ensures (|txID| == 0 || |ind| == 0) && !d.searchWallet && !d.generateAddress ==> r.err.Failure?
    ensures (|txID| == 0 || |ind| == 0) && d.searchWallet && d.existing.Err? ==>
              r == Selection(Failure(d.existing.msg), txID, ind)
    ensures (|txID| == 0 || |ind| == 0) && d.searchWallet && d.existing.Ok?
            && Atoi(d.pickedNumber).Some? && 0 <= Atoi(d.pickedNumber).value < |d.listing|
            && |d.listing[Atoi(d.pickedNumber).value]| > 0
            && |d.existing.value[d.listing[Atoi(d.pickedNumber).value]]| > 0
            ==> r == Selection(Nil, d.listing[Atoi(d.pickedNumber).value],
                               d.existing.value[d.listing[Atoi(d.pickedNumber).value]])
    ensures (|txID| == 0 || |ind| == 0) && (!d.searchWallet || (d.existing.Ok? && |d.existing.value| == 0))
            && d.generateAddress ==>
              r == (if d.newAddress.Err? then Selection(Failure(d.newAddress.msg), txID, ind)
                    else Selection(Nil, Trim(d.sentTxid, {'\n'}), ind))
  {
    if |txID| > 0 && |ind| > 0 then Selection(Nil, txID, ind)
    else
      var picked :=
        if !d.searchWallet || (d.existing.Ok? && |d.existing.value| == 0) then Selection(Nil, txID, ind)
        else if d.existing.Err? then Selection(Failure(d.existing.msg), txID, ind)
        else
          var n := Atoi(d.pickedNumber);
          if n.None? || n.value < 0 || n.value >= |d.listing| then
            Selection(Failure(ErrNoCollateralPicked), txID, ind)
          else
            Selection(Nil, d.listing[n.value], d.existing.value[d.listing[n.value]]);
      if picked.err.Failure? || (|picked.txID| > 0 && |picked.ind| > 0) then picked
      else if !d.generateAddress then Selection(Failure(ErrNoCollateral), picked.txID, picked.ind)
      else if d.newAddress.Err? then Selection(Failure(d.newAddress.msg), picked.txID, picked.ind)
      else Selection(Nil, Trim(d.sentTxid, {'\n'}), picked.ind)
  }

  /** The polling half of the collateral check: wait for the transaction
      to appear, take its output index, and refuse an empty transaction id
      or index. `ind0` is the index kept when no poll finds the
      transaction. */
  method AwaitCollateral(txid: string, ind0: string, polls: seq<Result<map<string, string>>>, keepWaiting: seq<bool>)
    returns (err: Error, ind: string)
    ensures err == Nil ==> |txid| > 0 && |ind| > 0 && FirstSeenAt(polls, txid, ind)
    ensures err == Nil ==> exists k: nat :: SeenWhileWaiting(polls, keepWaiting, txid, k) && ind == polls[k].value[txid]
    ensures err.Failure? && ind != ind0 ==> FirstSeenAt(polls, txid, ind)
    ensures err == Nil <==> CollateralArrives(polls, keepWaiting, txid)
    ensures forall k: nat :: SeenWhileWaiting(polls, keepWaiting, txid, k) && |txid| > 0 && |polls[k].value[txid]| > 0 ==>
              err == Nil && ind == polls[k].value[txid]
  {
    var outcome, used, asked := PollCollateral(txid, polls, keepWaiting);
    ind := ind0;
    match outcome
    case PollFailed(msg) =>
      return Failure(msg), ind;
    case UserStopped =>
      forall k: nat | SeenWhileWaiting(polls, keepWaiting, txid, k) ensures false {
        assert used - 1 < k;
        QuestionsAfterMonotone(used, k);
      }
      return Failure(ErrUserTerminated), ind;
    case StillWaiting =>
      forall k: nat | SeenWhileWaiting(polls, keepWaiting, txid, k) ensures false {
        assert used == 0 || used - 1 < k;
        QuestionsAfterMonotone(used, k);
      }
      return Failure(ErrStillWaiting), ind;
    case Found(found) =>
      ind := found;
      var k := used - 1;
      assert SeenWhileWaiting(polls, keepWaiting, txid, k);
      assert FirstSeenAt(polls, txid, ind) by {
        assert 0 <= k < |polls| && polls[k].Ok? && txid in polls[k].value;
      }
      forall k': nat | SeenWhileWaiting(polls, keepWaiting, txid, k') ensures k' == k {
        assert !(k' < k) && !(k < k');
      }
    if |txid| == 0 || |ind| == 0 {
      return Failure(ErrNoOutputs + txid + ":" + ind), ind;
    }
    return Nil, ind;
  }

  /** Some poll saw `txid` with index `ind`, and no earlier poll saw the
      txid. */
  predicate FirstSeenAt(polls: seq<Result<map<string, string>>>, txid: string, ind: string)
  {
    exists k :: 0 <= k < |polls| && polls[k].Ok? && txid in polls[k].value && polls[k].value[txid] == ind
                && forall j :: 0 <= j < k ==> polls[j].Ok? && txid !in polls[j].value
  }

  /** What the flow of prepareMasterNodeParameters meets: whether to start
      pasteld, the host it starts on, the sync check, the collateral dialog,
      the passphrase answer, `masternode genkey`, `pastelid newkey` and the
      final stop. */
  datatype PrepareInputs = PrepareInputs(
    startPasteld: bool,
    host: NodeHost,
    sync: Error,
    collateral: CollateralDialog,
    passphraseAnswer: string,
    genkey: Result<string>,
    newkey: Reply<string>,
    stop: Error)

  /** The private key and the PastelID after checkMasternodePrivKey and
      checkPastelID have succeeded, starting from `m0`: a value already
      given is kept, otherwise the key is the `genkey` output without its
      trailing newline and the PastelID is the `newkey` answer. */
  predicate KeysSettled(m0: MasternodeParams, m1: MasternodeParams, genkey: Result<string>, newkey: Reply<string>)
  {
    (if |m0.privateKey| == 0 then genkey.Ok? && m1.privateKey == TrimSuffix(genkey.value, "\n")
     else m1.privateKey == m0.privateKey)
    && (if |m0.pastelID| == 0 then newkey.Parsed? && m1.pastelID == newkey.value
        else m1.pastelID == m0.pastelID)
  }

  /** Starting from `mn`, the collateral, passphrase, private key and
      PastelID resolvers can all succeed: the selected txid arrives in the
      polls, a passphrase is given or accepted, and each key is given or
      obtained. */
  predicate SecretsObtainable(mn: MasternodeParams, d: CollateralDialog, passphraseAnswer: string,
                              genkey: Result<string>, newkey: Reply<string>)
    requires d.searchWallet && d.existing.Ok? ==> IsListing(d.listing, d.existing.value)
  {
    var sel := SelectCollateral(mn.txID, mn.ind, d);
    sel.err == Nil && CollateralArrives(d.polls, d.keepWaiting, sel.txID)
    && (|mn.passPhrase| > 0 || PassphraseAnswer(passphraseAnswer))
    && (|mn.privateKey| > 0 || genkey.Ok?) && (|mn.pastelID| > 0 || newkey.Parsed?)
  }

  /** The flagMasterNode* variables, which the start path reads and the
      check* resolvers overwrite. */
  class Flags {
    var mn: MasternodeParams

    constructor (initial: MasternodeParams)
      ensures mn == initial
    {
      mn := initial;
    }

    /** checkStartMasterNodeParams. It fails exactly when one of the checks
        fails; a discovered WAN address is kept even when a later check
        fails; on success the addresses and ports are resolved. */
    method CheckStartMasterNodeParams(coldHot: bool, remoteIP: string, discovered: Result<string>,
                                      confCheck: Error, ports: PortList)
      returns (err: Error)
      modifies this
      ensures err == Nil <==> ParamsCheckPass(old(mn), coldHot, remoteIP, discovered, confCheck)
      ensures |old(mn.name)| == 0 ==> mn == old(mn)
      ensures err == Nil ==>
        mn == ResolvedParams(old(mn).(extIP := SettledExtIP(old(mn.extIP), coldHot, discovered)), ports)
      ensures err.Failure? && |old(mn.name)| > 0 ==>
        mn == old(mn).(extIP := SettledExtIP(old(mn.extIP), coldHot, discovered))
    {
      if |mn.name| == 0 {
        return Failure(ErrNoName);
      }
      if |mn.extIP| == 0 && !coldHot {
        if discovered.Err? {
          return Failure(ErrNoExternalIP);
        }
        mn := mn.(extIP := discovered.value);
      }
      if !mn.isCreate && confCheck.Failure? {
        return confCheck;
      }
      if coldHot && |remoteIP| == 0 {
        return Failure(ErrNoSSHAddress);
      }
      mn := ResolvedParams(mn, ports);
      return Nil;
    }

    /** checkPassphrase. A given passphrase is kept; otherwise the answer
        becomes the passphrase, except that "n", "N" or an empty answer
        leaves it empty and fails. */
    method CheckPassphrase(answer: string) returns (err: Error)
      modifies this
      ensures |old(mn.passPhrase)| > 0 ==> err == Nil && mn == old(mn)
      ensures |old(mn.passPhrase)| == 0 ==>
        (err == Nil <==> PassphraseAnswer(answer))
        && mn == old(mn).(passPhrase := if err == Nil then answer else "")
      ensures err == Nil ==> |mn.passPhrase| > 0
    {
      if |mn.passPhrase| == 0 {
        if !PassphraseAnswer(answer) {
          mn := mn.(passPhrase := "");
          return Failure(ErrNoPassphrase);
        }
        mn := mn.(passPhrase := answer);
      }
      return Nil;
    }

    /** checkMasternodePrivKey: a given key is kept; otherwise the output
        of `masternode genkey` (run locally or on the hot node) without its
        trailing newline. */
    method CheckMasternodePrivKey(genkey: Result<string>) returns (err: Error)
      modifies this
      ensures |old(mn.privateKey)| > 0 ==> err == Nil && mn == old(mn)
      ensures |old(mn.privateKey)| == 0 && genkey.Err? ==> err == Failure(genkey.msg) && mn == old(mn)
      ensures |old(mn.privateKey)| == 0 && genkey.Ok? ==>
        err == Nil && mn == old(mn).(privateKey := TrimSuffix(genkey.value, "\n"))
        && (EndsWith(genkey.value, "\n") ==> mn.privateKey + "\n" == genkey.value)
    {
      if |mn.privateKey| == 0 {
        if genkey.Err? {
          return Failure(genkey.msg);
        }
        mn := mn.(privateKey := TrimSuffix(genkey.value, "\n"));
      }
      return Nil;
    }

    /** checkPastelID: a given PastelID is kept; otherwise one is created
        with `pastelid newkey <passphrase>`, which needs a passphrase, and
        read from its JSON answer. */
    method CheckPastelID(newkey: Reply<string>) returns (err: Error)
      modifies this
      ensures |old(mn.pastelID)| > 0 ==> err == Nil && mn == old(mn)
      ensures |old(mn.pastelID)| == 0 && |old(mn.passPhrase)| == 0 ==> err.Failure? && mn == old(mn)
      ensures |old(mn.pastelID)| == 0 && |old(mn.passPhrase)| > 0 ==>
        (err == Nil <==> newkey.Parsed?)
        && mn == (if newkey.Parsed? then old(mn).(pastelID := newkey.value) else old(mn))
    {
      if |mn.pastelID| == 0 {
        if |mn.passPhrase| == 0 {
          return Failure(ErrNoPassphrase);
        }
        match newkey
        case CommandFailed(msg) =>
          return Failure(msg);
        case Unparsable(msg) =>
          return Failure(msg);
        case Parsed(id) =>
          mn := mn.(pastelID := id);
      }
      return Nil;
    }

    /** checkCollateral: the wallet search and new-address dialog
        (SelectCollateral), then the poll loop (PollCollateral). It succeeds
        only with a txid and index that a poll has seen together; only the
        txid and index change. */
    method CheckCollateral(d: CollateralDialog) returns (err: Error)
      requires d.searchWallet && d.existing.Ok? ==> IsListing(d.listing, d.existing.value)
      modifies this
      ensures mn == old(mn).(txID := mn.txID, ind := mn.ind)
      ensures var sel := SelectCollateral(old(mn.txID), old(mn.ind), d);
        sel.err.Failure? ==> err == sel.err && mn.txID == sel.txID && mn.ind == sel.ind
      ensures var sel := SelectCollateral(old(mn.txID), old(mn.ind), d);
        err == Nil ==> sel.err == Nil && mn.txID == sel.txID && |mn.txID| > 0 && |mn.ind| > 0
                       && FirstSeenAt(d.polls, mn.txID, mn.ind)
      ensures var sel := SelectCollateral(old(mn.txID), old(mn.ind), d);
        sel.err == Nil ==> (err == Nil <==> CollateralArrives(d.polls, d.keepWaiting, sel.txID))
    {
      var sel := SelectCollateral(mn.txID, mn.ind, d);
      mn := mn.(txID := sel.txID, ind := sel.ind);
      if sel.err.Failure? {
        return sel.err;
      }
      var e, ind := AwaitCollateral(mn.txID, mn.ind, d.polls, d.keepWaiting);
      mn := mn.(ind := ind);
      return e;
    }

    /** The four resolvers prepareMasterNodeParameters runs after the sync
        check, in its order: collateral, passphrase, private key, PastelID.
        The first failure ends the sequence, and it succeeds exactly when
        all four can. On success the collateral has been seen by a poll,
        the passphrase is set and the keys are settled; the name, the
        addresses and the ports are never touched. */
    method ResolveMasternodeSecrets(inputs: PrepareInputs) returns (err: Error)
      requires inputs.collateral.searchWallet && inputs.collateral.existing.Ok? ==>
               IsListing(inputs.collateral.listing, inputs.collateral.existing.value)
      modifies this
      ensures err == Nil <==>
        SecretsObtainable(old(mn), inputs.collateral, inputs.passphraseAnswer, inputs.genkey, inputs.newkey)
      ensures err == Nil ==>
        |mn.txID| > 0 && |mn.ind| > 0 && |mn.passPhrase| > 0
        && FirstSeenAt(inputs.collateral.polls, mn.txID, mn.ind)
        && KeysSettled(old(mn), mn, inputs.genkey, inputs.newkey)
      ensures mn.name == old(mn.name) && mn.extIP == old(mn.extIP) && mn.isCreate == old(mn.isCreate)
              && mn.isUpdate == old(mn.isUpdate) && mn.isActivate == old(mn.isActivate)
              && mn.rpcIP == old(mn.rpcIP) && mn.p2pIP == old(mn.p2pIP) && mn.port == old(mn.port)
              && mn.rpcPort == old(mn.rpcPort) && mn.p2pPort == old(mn.p2pPort)
    {
      err := CheckCollateral(inputs.collateral);
      if err.Failure? {
        return err;
      }
      ghost var collateral := mn;
      err := CheckPassphrase(inputs.passphraseAnswer);
      if err.Failure? {
        return err;
      }
      ghost var passphrase := mn.passPhrase;
      err := CheckMasternodePrivKey(inputs.genkey);
      if err.Failure? {
        return err;
      }
      err := CheckPastelID(inputs.newkey);
      assert mn.txID == collateral.txID && mn.ind == collateral.ind && mn.passPhrase == passphrase;
    }

    /** prepareMasterNodeParameters. Without --create or --update it does
        nothing. Otherwise it starts pasteld with --txindex=1 when asked,
        checks sync, resolves the collateral and the secrets, and stops
        pasteld again when it started it; the first failure ends it. */
    method PrepareMasterNodeParameters(sm: ServiceManager.SystemdManager, cfg: StartConfig, inputs: PrepareInputs)
      returns (err: Error, launch: Option<Launch>)
      requires inputs.collateral.searchWallet && inputs.collateral.existing.Ok? ==>
               IsListing(inputs.collateral.listing, inputs.collateral.existing.value)
      modifies this, sm`calls, sm`running, sm`enabled
      ensures !old(mn.isCreate) && !old(mn.isUpdate) ==>
        err == Nil && launch == None && mn == old(mn) && sm.calls == old(sm.calls) && sm.running == old(sm.running)
      ensures !inputs.startPasteld ==> launch == None && sm.calls == old(sm.calls) && sm.running == old(sm.running)
      ensures launch.Some? ==>
        LaunchChecksPass(inputs.host, old(mn.extIP))
        && launch.value.args == PasteldArgList(cfg.workingDir, LaunchIP(inputs.host, old(mn.extIP)), true, cfg.reIndex, "")
      ensures inputs.startPasteld && launch.None? && (old(mn.isCreate) || old(mn.isUpdate)) && err == Nil ==>
        cfg.os == Linux
      ensures err == Nil && (old(mn.isCreate) || old(mn.isUpdate)) ==>
        |mn.txID| > 0 && |mn.ind| > 0 && |mn.passPhrase| > 0
        && FirstSeenAt(inputs.collateral.polls, mn.txID, mn.ind)
        && KeysSettled(old(mn), mn, inputs.genkey, inputs.newkey)
        && inputs.sync == Nil && (inputs.startPasteld ==> inputs.stop == Nil)
      ensures ((old(mn.isCreate) || old(mn.isUpdate))
               && (inputs.startPasteld ==>
                     (cfg.os == Linux && old(sm.StartSucceeds(PastelD)))
                     || (!(cfg.os == Linux && (old(sm.StartSucceeds(PastelD)) || old(sm.StartFails(PastelD))))
                         && LaunchChecksPass(inputs.host, old(mn.extIP)) && inputs.host.startsInTime))
               && inputs.sync == Nil
               && SecretsObtainable(old(mn), inputs.collateral, inputs.passphraseAnswer, inputs.genkey, inputs.newkey)
               && (inputs.startPasteld ==> inputs.stop == Nil))
              ==> err == Nil
      ensures mn.name == old(mn.name) && mn.extIP == old(mn.extIP)
    {
      launch := None;
      if !mn.isCreate && !mn.isUpdate {
        return Nil, None;
      }
      if inputs.startPasteld {
        err, launch := RunPastelNode(sm, cfg, inputs.host, true, cfg.reIndex, mn.extIP, "");
        if err.Failure? {
          return err, launch;
        }
      }
      if inputs.sync.Failure? {
        return inputs.sync, launch;
      }
      err := ResolveMasternodeSecrets(inputs);
      if err.Failure? {
        return err, launch;
      }
      if inputs.startPasteld && inputs.stop.Failure? {
        return inputs.stop, launch;
      }
      return Nil, launch;
    }

    /** runStartMasternode. The private key and IP come from the node's
        masternode.conf entry; the node is launched as a masternode only
        when that IP equals the --ip value or the discovered WAN address. */
    method RunStartMasternode(sm: ServiceManager.SystemdManager, cfg: StartConfig, host: NodeHost,
                              parseConf: Error, entry: Result<MasternodeConfEntry>, discovered: Result<string>)
      returns (err: Error, launch: Option<Launch>)
      modifies this, sm`calls, sm`running, sm`enabled
      ensures parseConf.Failure? || entry.Err? ==> err.Failure? && launch == None && mn == old(mn)
                                                   && sm.calls == old(sm.calls)
      ensures launch.Some? ==>
        parseConf == Nil && entry.Ok? && entry.value.extIP == mn.extIP
        && LaunchChecksPass(host, mn.extIP)
        && launch.value.args == PasteldArgList(cfg.workingDir, LaunchIP(host, mn.extIP), true, cfg.reIndex, entry.value.privKey)
      ensures launch.Some? && |mn.extIP| > 0 ==>
        launch.value.args == PasteldArgList(cfg.workingDir, entry.value.extIP, true, cfg.reIndex, entry.value.privKey)
      ensures parseConf == Nil && entry.Ok? && entry.value.extIP != SettledExtIP(old(mn.extIP), false, discovered) ==>
        err.Failure? && launch == None && sm.calls == old(sm.calls)
      ensures parseConf == Nil && entry.Ok? && (|old(mn.extIP)| > 0 || discovered.Ok?)
              && entry.value.extIP == SettledExtIP(old(mn.extIP), false, discovered) ==>
        mn.extIP == entry.value.extIP
        && (cfg.os == Linux && old(sm.StartSucceeds(PastelD)) ==> err == Nil && launch == None)
        && (cfg.os == Linux && old(sm.StartFails(PastelD)) ==> err.Failure? && launch == None)
        && (!(cfg.os == Linux && (old(sm.StartSucceeds(PastelD)) || old(sm.StartFails(PastelD)))) ==>
              (launch.Some? <==> LaunchChecksPass(host, entry.value.extIP))
              && (launch.Some? ==> launch.value == Launch(host.pasteldPath.value,
                    PasteldArgList(cfg.workingDir, LaunchIP(host, entry.value.extIP), true, cfg.reIndex,
                                   entry.value.privKey)))
              && (err == Nil <==> launch.Some? && host.startsInTime))
      ensures mn == old(mn).(extIP := mn.extIP)
    {
      launch := None;
      if parseConf.Failure? {
        return parseConf, None;
      }
      if entry.Err? {
        return Failure(entry.msg), None;
      }
      var privKey, extIP := entry.value.privKey, entry.value.extIP;
      if |mn.extIP| == 0 {
        if discovered.Err? {
          return Failure(ErrNoExternalIP), None;
        }
        mn := mn.(extIP := discovered.value);
      }
      if extIP != mn.extIP {
        return Failure(ErrConfIPPrefix + extIP + ErrConfIPMiddle + mn.extIP), None;
      }
      err, launch := RunPastelNode(sm, cfg, host, true, cfg.reIndex, mn.extIP, privKey);
    }
  }

  // ---------------------------------------------------------------------
  // masternode start-alias

  /** The pastel-cli arguments runStartAliasMasternode passes. */
  function StartAliasArgs(masternodeName: string): (args: seq<string>)
    ensures |args| == 3 && args[0] == "masternode" && args[1] == "start-alias"
    ensures args[2] == masternodeName
  {
    ["masternode", "start-alias", masternodeName]
  }

  /** runStartAliasMasternode: a failed command or an unparsable answer is
      returned as is; otherwise it fails exactly when the answer's "result"
      field is "failed". */
  function StartAliasOutcome(reply: Reply<map<string, string>>): (err: Error)
    ensures reply.CommandFailed? ==> err == Failure(reply.msg)
    ensures reply.Unparsable? ==> err == Failure(reply.msg)
    ensures reply.Parsed? ==>
      (err.Failure? <==> "result" in reply.value && reply.value["result"] == "failed")
  {
    match reply
    case CommandFailed(msg) => Failure(msg)
    case Unparsable(msg) => Failure(msg)
    case Parsed(status) =>
      if "result" in status && status["result"] == "failed" then Failure(ErrStartAliasFailed) else Nil
  }

  // ---------------------------------------------------------------------
  // supernode.yml

  /** A parsed YAML value: a scalar, a number or a mapping. */
  datatype Yaml = Scalar(text: string) | Number(n: int) | Mapping(entries: map<string, Yaml>)

  const KeyPastelID: string := "pastel_id"
  const KeyPassPhrase: string := "pass_phrase"
  const KeyExpiredDuration: string := "storage_challenge_expired_duration"
  const KeyReplicas: string := "number_of_challenge_replicas"
  const NodeKey: string := "node"

  /** The four `node` keys pastelup writes. */
  function PatchedKeys(): set<string>
  {
    {KeyPastelID, KeyPassPhrase, KeyExpiredDuration, KeyReplicas}
  }

  /** The values written into the `node` section: the PastelID and
      passphrase flags and the two storage-challenge constants, which are
      declared outside the constants file and are parameters here. */
  datatype NodeSettings = NodeSettings(pastelID: string, passPhrase: string, expiredDuration: int, replicas: int)

  /** The `node` section with its four keys set: the keys are added or
      overwritten, and every other key keeps its value. */
  function PatchNode(node: map<string, Yaml>, st: NodeSettings): (r: map<string, Yaml>)
    ensures r.Keys == node.Keys + PatchedKeys()
    ensures r[KeyPastelID] == Scalar(st.pastelID) && r[KeyPassPhrase] == Scalar(st.passPhrase)
    ensures r[KeyExpiredDuration] == Number(st.expiredDuration) && r[KeyReplicas] == Number(st.replicas)
    ensures forall k :: k in node && k !in PatchedKeys() ==> r[k] == node[k]
  {
    node[KeyPastelID := Scalar(st.pastelID)][KeyPassPhrase := Scalar(st.passPhrase)]
        [KeyExpiredDuration := Number(st.expiredDuration)][KeyReplicas := Number(st.replicas)]
  }

  /** The patch depends only on the keys it does not set, so patching twice
      is the later patch alone, and patching again is idempotent. */
  lemma {:induction false} PatchNodeLastWins(node: map<string, Yaml>, a: NodeSettings, b: NodeSettings)
    ensures PatchNode(PatchNode(node, a), b) == PatchNode(node, b)
    ensures PatchNode(PatchNode(node, b), b) == PatchNode(node, b)
  {
    var l, r := PatchNode(PatchNode(node, a), b), PatchNode(node, b);
    assert l.Keys == r.Keys;
    forall k | k in l ensures l[k] == r[k] {
      if k !in PatchedKeys() {
        assert l[k] == PatchNode(node, a)[k] == node[k];
      }
    }
  }

  /** The configuration with its `node` section patched. Go's type
      assertion on a missing or non-mapping `node` section panics; the
      model returns an error there instead. */
  function PatchConf(conf: map<string, Yaml>, st: NodeSettings): (r: Result<map<string, Yaml>>)
    ensures r.Ok? <==> NodeKey in conf && conf[NodeKey].Mapping?
    ensures r.Ok? ==> r.value.Keys == conf.Keys
                      && r.value[NodeKey] == Mapping(PatchNode(conf[NodeKey].entries, st))
                      && forall k :: k in conf && k != NodeKey ==> r.value[k] == conf[k]
  {
    if NodeKey in conf && conf[NodeKey].Mapping? then
      Ok(conf[NodeKey := Mapping(PatchNode(conf[NodeKey].entries, st))])
    else Err(ErrNoNodeSection)
  }

  const ErrNoNodeSection: string := "supernode.yml has no node section"

  /** What supernode.yml holds after pastelup wrote it: a file created
      from the template text, or the patched configuration. */
  datatype SnWrite = Created(text: string) | Rewritten(conf: map<string, Yaml>)

  datatype SnOutcome = SnOutcome(err: Error, written: Option<SnWrite>)

  /** The update branch as pastelup has it: a write failure returns the
      `err` variable, which is nil at that point. */
  function UpdateExistingAsWritten(read: Error, parsed: Result<map<string, Yaml>>, st: NodeSettings,
                                   marshal: Error, write: Error): (r: SnOutcome)
    ensures r.err == Nil && write == Nil ==> r.written.Some?
  {
    if read.Failure? then SnOutcome(read, None)
    else if parsed.Err? then SnOutcome(Failure(parsed.msg), None)
    else
      var patched := PatchConf(parsed.value, st);
      if patched.Err? then SnOutcome(Failure(patched.msg), None)
      else if marshal.Failure? then SnOutcome(marshal, None)
      else if write.Failure? then SnOutcome(Nil, None)
      else SnOutcome(Nil, Some(Rewritten(patched.value)))
  }

  /** A failed write of supernode.yml is reported as success although
      nothing was written. */
  lemma WriteFailureReportedAsSuccess()
    ensures var r := UpdateExistingAsWritten(Nil, Ok(map[NodeKey := Mapping(map[])]),
                                             NodeSettings("id", "secret", 1, 1), Nil, Failure("disk full"));
            r.err == Nil && r.written.None?
  {
  }

  /** The update branch with the write failure returned: it succeeds
      exactly when the patched configuration is written. */
  function UpdateExisting(read: Error, parsed: Result<map<string, Yaml>>, st: NodeSettings,
                          marshal: Error, write: Error): (r: SnOutcome)
    ensures r.err == Nil <==> r.written.Some?
    ensures r.err == Nil <==> read == Nil && parsed.Ok? && PatchConf(parsed.value, st).Ok? && marshal == Nil && write == Nil
    ensures r.written.Some? ==> r.written == Some(Rewritten(PatchConf(parsed.value, st).value))
  {
    var w := UpdateExistingAsWritten(read, parsed, st, marshal, write);
    if w.err == Nil && w.written.None? then SnOutcome(write, None) else w
  }

  /** The corrected branch differs from pastelup's only when the final
      write fails. */
  lemma UpdateExistingDiffersOnlyOnWrite(read: Error, parsed: Result<map<string, Yaml>>, st: NodeSettings,
                                         marshal: Error, write: Error)
    ensures write == Nil ==>
      UpdateExisting(read, parsed, st, marshal, write) == UpdateExistingAsWritten(read, parsed, st, marshal, write)
    ensures UpdateExisting(read, parsed, st, marshal, write).written
            == UpdateExistingAsWritten(read, parsed, st, marshal, write).written
  {
  }

  /** What os.Stat reports for supernode.yml. */
  datatype SnStat = Absent | Present | StatFailed(msg: string)

  /** The file operations createOrUpdateSuperNodeConfig meets: creating
      the file, rendering the template, writing the new file, reading and
      parsing the existing one, marshalling and writing it back. */
  datatype SnIO = SnIO(create: Error, rendered: Result<string>, writeNew: Error,
                       read: Error, parsed: Result<map<string, Yaml>>, marshal: Error, write: Error)

  /** createOrUpdateSuperNodeConfig. An absent file is created (empty at
      first) and filled with the rendered template; an existing file gets
      its `node` section patched; any other stat error is returned. */
  method CreateOrUpdateSuperNodeConfig(stat: SnStat, io: SnIO, st: NodeSettings)
    returns (err: Error, written: Option<SnWrite>)
    ensures stat == Absent ==>
      (err == Nil <==> io.create == Nil && io.rendered.Ok? && io.writeNew == Nil)
      && (err == Nil ==> written == Some(Created(io.rendered.value)))
      && (err.Failure? ==> written == (if io.create == Nil then Some(Created("")) else None))
    ensures stat == Present ==> SnOutcome(err, written) == UpdateExisting(io.read, io.parsed, st, io.marshal, io.write)
    ensures stat.StatFailed? ==> err == Failure(stat.msg) && written == None
    ensures stat != Absent ==> (err == Nil <==> written.Some?)
  {
    written := None;
    match stat
    case Absent =>
      if io.create.Failure? {
        return io.create, None;
      }
      written := Some(Created(""));
      if io.rendered.Err? {
        return Failure(io.rendered.msg), written;
      }
      if io.writeNew.Failure? {
        return io.writeNew, written;
      }
      written := Some(Created(io.rendered.value));
      err := Nil;
    case Present =>
      var o := UpdateExisting(io.read, io.parsed, st, io.marshal, io.write);
      err, written := o.err, o.written;
    case StatFailed(msg) =>
      err := Failure(msg);
  }
}
