// The cold/hot start of a supernode: the local (cold) node holds the
// collateral and keys, the remote (hot) node reached over SSH runs pasteld
// as a masternode and the supernode services. Every remote command is an
// oracle answer; polls read finite sequences of answers.
module ColdHot {
  import opened Util
  import opened Constants
  import StartCommand

  // ---------------------------------------------------------------------
  // Remote paths and command lines

  /** filepath.Join followed by replacing every backslash with a slash:
      the form in which a path built with the local separator is sent to
      the Linux hot node. */
  function RemotePath(os: OSType, dir: string, name: string): (r: string)
    ensures '\\' !in r
    ensures |r| == |PathJoin(if os == Windows then '\\' else '/', dir, name)|
  {
    ReplaceChar(PathJoin(if os == Windows then '\\' else '/', dir, name), '\\', '/')
  }

  /** ReplaceChar distributes over concatenation. */
  lemma ReplaceCharAppend(a: string, b: string, from: char, to: char)
    ensures ReplaceChar(a + b, from, to) == ReplaceChar(a, from, to) + ReplaceChar(b, from, to)
  {
    var l, r := ReplaceChar(a + b, from, to), ReplaceChar(a, from, to) + ReplaceChar(b, from, to);
    forall i | 0 <= i < |l| ensures l[i] == r[i] {
      if i < |a| {
        assert (a + b)[i] == a[i];
      } else {
        assert (a + b)[i] == b[i - |a|];
      }
    }
  }

  /** Whatever the local OS, the remote path is the directory with its
      backslashes turned into slashes, one slash, and the name. */
  lemma RemotePathIsSlashJoin(os: OSType, dir: string, name: string)
    requires dir != "" && name != "" && '\\' !in name
    ensures RemotePath(os, dir, name) == ReplaceChar(dir, '\\', '/') + "/" + name
  {
    var sep := if os == Windows then '\\' else '/';
    ReplaceCharAppend(dir + [sep], name, '\\', '/');
    ReplaceCharAppend(dir, [sep], '\\', '/');
    assert ReplaceChar(name, '\\', '/') == name;
  }

  /** " --testnet" on testnet and nothing otherwise. */
  function TestnetOption(network: string): (r: string)
    ensures r != "" <==> network == NetworkTestnet
  {
    if network == NetworkTestnet then " --testnet" else ""
  }

  /** The hot node's plain pasteld launch of remoteHotNodeCtrl and
      handleCreateUpdateStartColdHot. */
  function HotLaunchLine(pasteld: string, extIP: string, workDir: string, testnetOption: string): string
  {
    pasteld + " --reindex --externalip=" + extIP + " --data-dir=" + workDir + " --daemon " + testnetOption
  }

  const MasternodeFlags: string := " --masternode --txindex=1 --reindex --masternodeprivkey="

  /** What follows the external IP in the masternode launch line. */
  function MasternodeLineTail(workDir: string, testnetOption: string): (t: string)
    ensures EndsWith(t, " --daemon ")
  {
    var t := "  --data-dir=" + workDir + " " + testnetOption + " --daemon ";
    assert t[|t| - |" --daemon "|..] == " --daemon ";
    t
  }

  /** The hot node's masternode launch of runRemoteNodeAsMasterNode. */
  function MasternodeLaunchLine(pasteld: string, privKey: string, extIP: string, workDir: string,
                                testnetOption: string): string
  {
    pasteld + (MasternodeFlags + privKey) + (" --externalip=" + extIP + MasternodeLineTail(workDir, testnetOption))
  }

  /** The masternode launch starts with the pasteld path, carries the
      masternode flags immediately followed by the key, names the external
      IP and ends with --daemon. */
  lemma {:induction false} MasternodeLaunchLineShape(pasteld: string, privKey: string, extIP: string,
                                                     workDir: string, testnetOption: string)
    ensures pasteld <= MasternodeLaunchLine(pasteld, privKey, extIP, workDir, testnetOption)
    ensures Contains(MasternodeLaunchLine(pasteld, privKey, extIP, workDir, testnetOption), MasternodeFlags + privKey)
    ensures Contains(MasternodeLaunchLine(pasteld, privKey, extIP, workDir, testnetOption), " --externalip=" + extIP)
    ensures EndsWith(MasternodeLaunchLine(pasteld, privKey, extIP, workDir, testnetOption), " --daemon ")
  {
    var line := MasternodeLaunchLine(pasteld, privKey, extIP, workDir, testnetOption);
    var key, ip, tail := MasternodeFlags + privKey, " --externalip=" + extIP, MasternodeLineTail(workDir, testnetOption);
    ContainsInfix(pasteld, key, ip + tail);
    assert line == (pasteld + key) + ip + tail;
    ContainsInfix(pasteld + key, ip, tail);
    assert line[..|pasteld|] == pasteld;
    EndsWithAppend(pasteld + key + ip, tail, " --daemon ");
  }

  lemma EndsWithAppend(x: string, y: string, suffix: string)
    requires EndsWith(y, suffix)
    ensures EndsWith(x + y, suffix)
  {
    assert (x + y)[|x + y| - |suffix|..] == y[|y| - |suffix|..];
  }

  /** The command runServiceRemote sends: `<pastel-utility> start
      <service>`, with the remote working directory when one is set. */
  function ServiceCommand(utility: string, service: string, workDir: string): (cmd: string)
    ensures workDir == "" ==> cmd == utility + " start " + service
    ensures workDir != "" ==> cmd == utility + " start " + service + " --work-dir=" + workDir
  {
    var base := utility + " " + "start" + " " + service;
    if workDir != "" then base + " --work-dir=" + workDir else base
  }

  lemma {:induction false} ServiceCommandShape(utility: string, service: string, workDir: string)
    ensures utility + " start " + service <= ServiceCommand(utility, service, workDir)
    ensures workDir != "" ==> EndsWith(ServiceCommand(utility, service, workDir), " --work-dir=" + workDir)
    ensures |ServiceCommand(utility, service, workDir)|
            == |utility + " start " + service| + (if workDir == "" then 0 else |" --work-dir=" + workDir|)
  {
    var head := utility + " start " + service;
    var cmd := ServiceCommand(utility, service, workDir);
    if workDir != "" {
      assert cmd == head + (" --work-dir=" + workDir);
      assert cmd[..|head|] == head;
      assert cmd[|cmd| - |" --work-dir=" + workDir|..] == " --work-dir=" + workDir;
    }
  }

  const ErrRemoteService: string := "failed to start service on remote: "

  /** runServiceRemote: the SSH command's failure becomes the error. */
  method RunServiceRemote(utility: string, service: string, workDir: string, answer: Error)
    returns (cmd: string, err: Error)
    ensures cmd == ServiceCommand(utility, service, workDir)
    ensures err == ServiceOutcome(answer)
  {
    cmd := utility + " " + "start" + " " + service;
    if workDir != "" {
      cmd := cmd + " --work-dir=" + workDir;
    }
    if answer.Failure? {
      return cmd, Failure(ErrRemoteService + answer.msg);
    }
    err := Nil;
  }

  function ServiceOutcome(answer: Error): (err: Error)
    ensures err == Nil <==> answer == Nil
  {
    if answer.Failure? then Failure(ErrRemoteService + answer.msg) else Nil
  }

  // ---------------------------------------------------------------------
  // Waiting for the hot node's pasteld

  /** The index of the first successful `getinfo`, or the number of
      answers when none succeeds. */
  function FirstOk(getinfo: seq<bool>): (k: nat)
    ensures k <= |getinfo|
    ensures k < |getinfo| ==> getinfo[k]
    ensures forall j :: 0 <= j < k ==> !getinfo[j]
    decreases |getinfo|
  {
    if |getinfo| == 0 then 0 else if getinfo[0] then 0 else FirstOk(getinfo[1..]) + 1
  }

  /** How many `getinfo` failures CheckPastelDRunningRemote tolerates:
      twelve while waiting for a start, one when checking a stop. */
  function FailureBudget(want: bool): nat
  {
    if want then 12 else 1
  }

  /** The node counts as running when a `getinfo` succeeds before the
      budget of failures is used up. */
  predicate PasteldUp(getinfo: seq<bool>, want: bool)
  {
    FirstOk(getinfo) < FailureBudget(want) && FirstOk(getinfo) < |getinfo|
  }

  /** CheckPastelDRunningRemote. Attempt i succeeds when getinfo[i] holds;
      attempts beyond the given answers fail. It returns true on the first
      success; with want it gives up after exactly twelve failures, without
      want after the first. */
  method CheckPastelDRunningRemote(getinfo: seq<bool>, want: bool) returns (ret: bool, attempts: nat)
    ensures ret == PasteldUp(getinfo, want)
    ensures ret ==> attempts == FirstOk(getinfo) + 1 && attempts <= |getinfo| && getinfo[attempts - 1]
    ensures !ret ==> attempts == FailureBudget(want)
    ensures forall j :: 0 <= j < attempts - 1 ==> j >= |getinfo| || !getinfo[j]
  {
    var failCnt := 0;
    attempts := 0;
    while true
      invariant failCnt == attempts < FailureBudget(want)
      invariant forall j :: 0 <= j < attempts ==> j >= |getinfo| || !getinfo[j]
      decreases FailureBudget(want) - failCnt
    {
      var ok := attempts < |getinfo| && getinfo[attempts];
      attempts := attempts + 1;
      if !ok {
        if !want {
          return false, attempts;
        }
        failCnt := failCnt + 1;
        if failCnt == 12 {
          return false, attempts;
        }
      } else {
        break;
      }
    }
    return true, attempts;
  }

  /** Twelve failed answers are exactly enough to give up on a start. */
  lemma TwelveFailuresGiveUp(getinfo: seq<bool>)
    requires |getinfo| >= 12 && forall j :: 0 <= j < 12 ==> !getinfo[j]
    ensures !PasteldUp(getinfo, true)
    ensures |getinfo| > 12 && getinfo[11 + 1] ==> FirstOk(getinfo) == 12
  {
  }

  /** An eleventh-failure-then-success answer sequence still counts as
      running, and a stop check fails on its first failure. */
  lemma {:induction false} BudgetEdges(getinfo: seq<bool>)
    requires |getinfo| == 12 && getinfo[11] && forall j :: 0 <= j < 11 ==> !getinfo[j]
    ensures PasteldUp(getinfo, true)
    ensures !PasteldUp(getinfo, false)
  {
    var g := getinfo;
    assert FirstOk(g[11..]) == 0;
    var k := 11;
    while k > 0
      invariant 0 <= k <= 11
      invariant FirstOk(g[k..]) == 11 - k
      decreases k
    {
      assert g[k - 1..][1..] == g[k..];
      k := k - 1;
    }
    assert g[0..] == g;
  }

  // ---------------------------------------------------------------------
  // Waiting for the hot node's masternode sync

  /** One answer to `mnsync status`, together with what the `mnsync reset`
      issued for an "Initial" status answers. */
  datatype SyncAnswer =
    | SyncQueryFailed(msg: string)
    | SyncUnparsable(msg: string)
    | SyncStatus(assetName: string, isSynced: bool, resetErr: Error)

  /** How a sync wait ends: its error, the resets it issued, and the index
      of the next unread answer. */
  datatype SyncResult = SyncResult(err: Error, resets: nat, next: nat)

  /** Not a message of pastelup, whose sync wait has no end of its own: the
      model stops when the answers run out. */
  const ErrSyncUnfinished: string := "masternode sync not finished"

  /** checkMasterNodeSyncRemote from answer i on: a failed query is retried
      once by a fresh call with retryCount 1 and is the error the second
      time; an unparsable answer is the error; an "Initial" status issues
      a reset; a synced status ends the wait. */
  function SyncFrom(answers: seq<SyncAnswer>, i: nat, retryCount: nat): (r: SyncResult)
    ensures i < |answers| && answers[i].SyncUnparsable? ==> r == SyncResult(Failure(answers[i].msg), 0, i + 1)
    ensures r.next > i || i >= |answers|
    ensures r.err.Failure? || (r.next > 0 && r.next - 1 < |answers| && answers[r.next - 1].SyncStatus?
                                && answers[r.next - 1].isSynced)
    decreases |answers| - i
  {
    if i >= |answers| then SyncResult(Failure(ErrSyncUnfinished), 0, i)
    else
      match answers[i]
      case SyncQueryFailed(msg) =>
        if retryCount == 0 then SyncFrom(answers, i + 1, 1) else SyncResult(Failure(msg), 0, i + 1)
      case SyncUnparsable(msg) => SyncResult(Failure(msg), 0, i + 1)
      case SyncStatus(asset, synced, resetErr) =>
        var reset := if asset == "Initial" then 1 else 0;
        if asset == "Initial" && resetErr.Failure? then SyncResult(resetErr, 1, i + 1)
        else if synced then SyncResult(Nil, reset, i + 1)
        else
          var rest := SyncFrom(answers, i + 1, retryCount);
          SyncResult(rest.err, rest.resets + reset, rest.next)
  }

  /** The two sync commands are different strings. */
  lemma StatusIsNotReset(cli: string)
    ensures cli + " mnsync status" != cli + " mnsync reset"
  {
    assert (cli + " mnsync status")[|cli| + 8] == 's' && (cli + " mnsync reset")[|cli| + 8] == 'r';
  }

  /** checkMasterNodeSyncRemote, the loop with its one recursive retry.
      Besides the outcome it returns the remote commands it issued. */
  method CheckMasterNodeSyncRemote(cli: string, answers: seq<SyncAnswer>, from: nat, retryCount: nat)
    returns (res: SyncResult, commands: seq<string>)
    ensures res == SyncFrom(answers, from, retryCount)
    ensures forall c :: c in commands ==> c == cli + " mnsync status" || c == cli + " mnsync reset"
    ensures multiset(commands)[cli + " mnsync reset"] == res.resets
    decreases |answers| - from, 1 - retryCount
  {
    var i := from;
    var resets := 0;
    commands := [];
    StatusIsNotReset(cli);
    while true
      invariant from <= i
      invariant forall c :: c in commands ==> c == cli + " mnsync status" || c == cli + " mnsync reset"
      invariant multiset(commands)[cli + " mnsync reset"] == resets
      invariant var rest := SyncFrom(answers, i, retryCount);
                SyncFrom(answers, from, retryCount) == SyncResult(rest.err, rest.resets + resets, rest.next)
      decreases |answers| - i
    {
      if i >= |answers| {
        return SyncResult(Failure(ErrSyncUnfinished), resets, i), commands;
      }
      commands := commands + [cli + " mnsync status"];
      assert multiset(commands)[cli + " mnsync reset"] == resets;
      match answers[i]
      case SyncQueryFailed(msg) =>
        if retryCount == 0 {
          var more;
          res, more := CheckMasterNodeSyncRemote(cli, answers, i + 1, 1);
          res := res.(resets := res.resets + resets);
          assert multiset(commands + more) == multiset(commands) + multiset(more);
          commands := commands + more;
          return;
        }
        return SyncResult(Failure(msg), resets, i + 1), commands;
      case SyncUnparsable(msg) =>
        return SyncResult(Failure(msg), resets, i + 1), commands;
      case SyncStatus(asset, synced, resetErr) =>
        if asset == "Initial" {
          commands := commands + [cli + " mnsync reset"];
          resets := resets + 1;
          assert multiset(commands)[cli + " mnsync reset"] == resets;
          if resetErr.Failure? {
            return SyncResult(resetErr, resets, i + 1), commands;
          }
        }
        if synced {
          return SyncResult(Nil, resets, i + 1), commands;
        }
        i := i + 1;
    }
  }

  /** The number of "Initial" statuses among answers[i..j]. */
  function InitialCount(answers: seq<SyncAnswer>, i: nat, j: nat): nat
    requires i <= j <= |answers|
    decreases j - i
  {
    if i == j then 0
    else (if answers[i].SyncStatus? && answers[i].assetName == "Initial" then 1 else 0)
         + InitialCount(answers, i + 1, j)
  }

  /** Statuses that parse and whose resets succeed, the first synced one at
      index k: the wait ends there without error, having issued one reset
      per "Initial" status up to and including k. */
  lemma {:induction false} SyncEndsAtFirstSynced(answers: seq<SyncAnswer>, i: nat, k: nat, retryCount: nat)
    requires i <= k < |answers|
    requires forall j :: i <= j <= k ==> answers[j].SyncStatus? && answers[j].resetErr == Nil
    requires forall j :: i <= j < k ==> !answers[j].isSynced
    requires answers[k].isSynced
    ensures SyncFrom(answers, i, retryCount) == SyncResult(Nil, InitialCount(answers, i, k + 1), k + 1)
    decreases k - i
  {
    if i < k {
      SyncEndsAtFirstSynced(answers, i + 1, k, retryCount);
    }
  }

  /** Initial, Initial, Syncing, Synced: two resets, no error. */
  lemma TwoResetsExample()
    ensures var a := [SyncStatus("Initial", false, Nil), SyncStatus("Initial", false, Nil),
                      SyncStatus("Syncing", false, Nil), SyncStatus("Synced", true, Nil)];
            SyncFrom(a, 0, 0) == SyncResult(Nil, 2, 4)
  {
    var a := [SyncStatus("Initial", false, Nil), SyncStatus("Initial", false, Nil),
              SyncStatus("Syncing", false, Nil), SyncStatus("Synced", true, Nil)];
    SyncEndsAtFirstSynced(a, 0, 3, 0);
    assert InitialCount(a, 3, 4) == 0;
    assert InitialCount(a, 2, 4) == 0;
  }

  /** A failed query is retried once: two failed queries in a row end the
      wait with the second failure's error. */
  lemma SecondQueryFailureIsFatal(answers: seq<SyncAnswer>, i: nat)
    requires i + 1 < |answers| && answers[i].SyncQueryFailed? && answers[i + 1].SyncQueryFailed?
    ensures SyncFrom(answers, i, 0) == SyncResult(Failure(answers[i + 1].msg), 0, i + 2)
    ensures SyncFrom(answers, i, 1) == SyncResult(Failure(answers[i].msg), 0, i + 1)
  {
  }

  // ---------------------------------------------------------------------
  // Remote control steps

  /** What the hot node answers during one remote pasteld session: the
      `getinfo` polls and, where the step waits for sync, the sync answers
      and the final `stop`. */
  datatype HotAnswers = HotAnswers(getinfo: seq<bool>, sync: seq<SyncAnswer>, stop: Error)

  const ErrRemoteNotStarted: string := "unable to start pasteld on remote"

  /** remoteHotNodeCtrl: launch pasteld on the hot node, wait for it and
      for sync, then stop it. */
  function HotCtrlOutcome(a: HotAnswers): (err: Error)
    ensures err == Nil <==> PasteldUp(a.getinfo, true) && SyncFrom(a.sync, 0, 0).err == Nil && a.stop == Nil
  {
    if !PasteldUp(a.getinfo, true) then Failure(ErrRemoteNotStarted)
    else if SyncFrom(a.sync, 0, 0).err.Failure? then SyncFrom(a.sync, 0, 0).err
    else a.stop
  }

  /** runRemoteNodeAsMasterNode: launch the masternode, wait for it and
      for sync. */
  function MasternodeOutcome(a: HotAnswers): (err: Error)
    ensures err == Nil <==> PasteldUp(a.getinfo, true) && SyncFrom(a.sync, 0, 0).err == Nil
  {
    if !PasteldUp(a.getinfo, true) then Failure(ErrRemoteNotStarted)
    else SyncFrom(a.sync, 0, 0).err
  }

  /** The remote answers handleCreateUpdateStartColdHot meets besides the
      start checks: the hot pasteld session, `masternode genkey`,
      `pastelid newkey`, the stop command and the masternode.conf backup. */
  datatype CreateUpdateAnswers = CreateUpdateAnswers(
    collateral: StartCommand.CollateralDialog,
    passphraseAnswer: string,
    getinfo: seq<bool>,
    genkey: Result<string>,
    newkey: Reply<string>,
    stop: Error,
    backup: Error)

  /** The steps of Run, in the order they can happen. */
  datatype Step =
    | StartLocalNode
    | PrepareMasternode
    | WriteMasternodeConf
    | WriteSupernodeConf
    | StopLocalNode
    | StartHotNode
    | ReadMasternodeConf
    | RunRemoteMasternode
    | RestartLocalNode
    | CheckLocalSync
    | StartAlias
    | RegisterTicket
    | StopColdNode
    | StartRemoteService(service: string)
    | CopySupernodeConf
    | ChmodSupernodeConf

  const SupernodeService: string := SuperNode + "-service"

  /** The steps Run takes when nothing fails. */
  function Plan(createOrUpdate: bool, activate: bool, isCreate: bool): seq<Step>
  {
    [StartLocalNode]
    + (if createOrUpdate then [PrepareMasternode, WriteMasternodeConf, WriteSupernodeConf] else [])
    + [StopLocalNode, StartHotNode, ReadMasternodeConf, RunRemoteMasternode, RestartLocalNode]
    + (if activate then [CheckLocalSync, StartAlias] + (if isCreate then [RegisterTicket] else []) else [])
    + [StopColdNode, StartRemoteService(RQService), StartRemoteService(DDService), CopySupernodeConf,
       ChmodSupernodeConf, StartRemoteService(SupernodeService)]
  }

  /** The plan's four parts: the local start with the optional
      create/update preparation, the hot node phase, the optional
      activation, and the services. */
  function PlanHead(createOrUpdate: bool): seq<Step>
  {
    [StartLocalNode] + (if createOrUpdate then [PrepareMasternode, WriteMasternodeConf, WriteSupernodeConf] else [])
  }

  const HotPhase: seq<Step> := [StopLocalNode, StartHotNode, ReadMasternodeConf, RunRemoteMasternode, RestartLocalNode]

  function Activation(activate: bool, isCreate: bool): seq<Step>
  {
    if activate then [CheckLocalSync, StartAlias] + (if isCreate then [RegisterTicket] else []) else []
  }

  const ServicePhase: seq<Step> := [StopColdNode, StartRemoteService(RQService), StartRemoteService(DDService),
                                    CopySupernodeConf, ChmodSupernodeConf, StartRemoteService(SupernodeService)]

  lemma PlanParts(createOrUpdate: bool, activate: bool, isCreate: bool)
    ensures Plan(createOrUpdate, activate, isCreate)
            == PlanHead(createOrUpdate) + HotPhase + Activation(activate, isCreate) + ServicePhase
  {
  }

  /** Where a step stands in the order Run takes steps in. */
  function Rank(s: Step): nat
  {
    match s
    case StartLocalNode => 0
    case PrepareMasternode => 1
    case WriteMasternodeConf => 2
    case WriteSupernodeConf => 3
    case StopLocalNode => 4
    case StartHotNode => 5
    case ReadMasternodeConf => 6
    case RunRemoteMasternode => 7
    case RestartLocalNode => 8
    case CheckLocalSync => 9
    case StartAlias => 10
    case RegisterTicket => 11
    case StopColdNode => 12
    case StartRemoteService(svc) => if svc == RQService then 13 else if svc == DDService then 14 else 17
    case CopySupernodeConf => 15
    case ChmodSupernodeConf => 16
  }

  predicate RankSorted(p: seq<Step>)
  {
    forall i, j :: 0 <= i < j < |p| ==> Rank(p[i]) < Rank(p[j])
  }

  lemma {:induction false} RankSortedAppend(a: seq<Step>, b: seq<Step>)
    requires RankSorted(a) && RankSorted(b)
    requires forall i, j :: 0 <= i < |a| && 0 <= j < |b| ==> Rank(a[i]) < Rank(b[j])
    ensures RankSorted(a + b)
  {
    forall i, j | 0 <= i < j < |a + b| ensures Rank((a + b)[i]) < Rank((a + b)[j]) {
      if j < |a| {
        assert (a + b)[i] == a[i] && (a + b)[j] == a[j];
      } else if i < |a| {
        assert (a + b)[i] == a[i] && (a + b)[j] == b[j - |a|];
      } else {
        assert (a + b)[i] == b[i - |a|] && (a + b)[j] == b[j - |a|];
      }
    }
  }

  lemma PiecesSorted(createOrUpdate: bool, activate: bool, isCreate: bool)
    ensures var h, c := PlanHead(createOrUpdate), Activation(activate, isCreate);
      RankSorted(h) && RankSorted(HotPhase) && RankSorted(c) && RankSorted(ServicePhase)
      && (forall i :: 0 <= i < |h| ==> Rank(h[i]) < 4)
      && (forall i :: 0 <= i < |c| ==> 9 <= Rank(c[i]) < 12)
      && (forall i :: 0 <= i < |HotPhase| ==> 4 <= Rank(HotPhase[i]) < 9)
      && (forall i :: 0 <= i < |ServicePhase| ==> 12 <= Rank(ServicePhase[i]))
  {
    ServicePhaseSorted();
  }

  lemma ServicePhaseSorted()
    ensures RankSorted(ServicePhase)
    ensures forall i :: 0 <= i < |ServicePhase| ==> 12 <= Rank(ServicePhase[i])
  {
    ServiceRanks();
    var r := seq(|ServicePhase|, i requires 0 <= i < |ServicePhase| => Rank(ServicePhase[i]));
    assert r == [12, 13, 14, 15, 16, 17];
  }

  lemma ServiceRanks()
    ensures Rank(StartRemoteService(RQService)) == 13
    ensures Rank(StartRemoteService(DDService)) == 14
    ensures Rank(StartRemoteService(SupernodeService)) == 17
  {
    assert DDService != RQService by { assert DDService[0] != RQService[0]; }
    assert SupernodeService != RQService by { assert SupernodeService[0] != RQService[0]; }
    assert SupernodeService != DDService by { assert SupernodeService[0] != DDService[0]; }
  }

  /** Every plan takes its steps in strictly increasing rank, so no step
      appears twice and any two steps appear in the order of their ranks. */
  lemma {:induction false} PlanSorted(createOrUpdate: bool, activate: bool, isCreate: bool)
    ensures RankSorted(Plan(createOrUpdate, activate, isCreate))
  {
    var h, c := PlanHead(createOrUpdate), Activation(activate, isCreate);
    PlanParts(createOrUpdate, activate, isCreate);
    PiecesSorted(createOrUpdate, activate, isCreate);
    RankSortedAppend(h, HotPhase);
    RankSortedAppend(h + HotPhase, c);
    RankSortedAppend(h + HotPhase + c, ServicePhase);
  }

  /** In every plan the local node is stopped before remoteHotNodeCtrl
      starts the hot node (the --create/--update preparation has already
      started and stopped the hot pasteld by then, which is not a step of
      its own), and the cold node is stopped before the services, which
      start in the order rq-service, dd-service, supernode-service with the
      supernode configuration copied before the last; the supernode
      service is the final step. */
  lemma {:induction false} PlanOrder(createOrUpdate: bool, activate: bool, isCreate: bool, i: nat, j: nat)
    requires var p := Plan(createOrUpdate, activate, isCreate); i < |p| && j < |p|
    ensures var p := Plan(createOrUpdate, activate, isCreate);
      (p[i] == StopLocalNode && p[j] == StartHotNode ==> i < j)
      && (p[i] == StopColdNode && p[j].StartRemoteService? ==> i < j)
      && (p[i] == StartRemoteService(RQService) && p[j] == StartRemoteService(DDService) ==> i < j)
      && (p[i] == StartRemoteService(DDService) && p[j] == CopySupernodeConf ==> i < j)
      && (p[i] == CopySupernodeConf && p[j] == StartRemoteService(SupernodeService) ==> i < j)
      && (p[i] == ReadMasternodeConf && p[j] == RunRemoteMasternode ==> i < j)
  {
    PlanSorted(createOrUpdate, activate, isCreate);
    var p := Plan(createOrUpdate, activate, isCreate);
    if j <= i && Rank(p[j]) < Rank(p[i]) {
      assert j < i;
    }
  }

  /** Every plan holds the hot node phase whole, right after the head:
      the local stop, the hot start, the read of masternode.conf and the
      masternode launch are consecutive, and the plan ends with the
      supernode service. */
  lemma {:induction false} PlanHotPhase(createOrUpdate: bool, activate: bool, isCreate: bool)
    ensures var p, h := Plan(createOrUpdate, activate, isCreate), |PlanHead(createOrUpdate)|;
      h + 5 < |p| && p[h] == StopLocalNode && p[h + 1] == StartHotNode
      && p[h + 2] == ReadMasternodeConf && p[h + 3] == RunRemoteMasternode
      && p[|p| - 1] == StartRemoteService(SupernodeService)
  {
    PlanParts(createOrUpdate, activate, isCreate);
    var h := PlanHead(createOrUpdate);
    var p := Plan(createOrUpdate, activate, isCreate);
    assert p == h + (HotPhase + Activation(activate, isCreate) + ServicePhase);
    assert p[|p| - 1] == ServicePhase[5];
  }

  /** Start-alias is in the plan iff --activate is set, the ticket
      registration iff --activate and --create are, and the preparation
      iff --create or --update is. */
  lemma PlanMembership(createOrUpdate: bool, activate: bool, isCreate: bool)
    ensures var p := Plan(createOrUpdate, activate, isCreate);
      (StartAlias in p <==> activate)
      && (RegisterTicket in p <==> activate && isCreate)
      && (PrepareMasternode in p <==> createOrUpdate)
  {
    PlanParts(createOrUpdate, activate, isCreate);
  }

  /** The outcome of every step Run can take, as the environment answers:
      the local node start and stop, the conf writes, the local sync check,
      start-alias, the ticket, the copy and chmod are answers here; the
      remote steps follow from the hot node's answers through the models
      above. */
  datatype Environment = Environment(
    startLocal: Error,
    prepare: Error,
    writeMasternodeConf: Error,
    writeSupernodeConf: Error,
    stopLocal: Error,
    hot: HotAnswers,
    confKey: Result<string>,
    master: HotAnswers,
    restartLocal: Error,
    localSync: Error,
    startAlias: Error,
    ticket: Error,
    stopCold: Error,
    rqService: Error,
    ddService: Error,
    copy: Error,
    chmod: Error,
    snService: Error)

  /** The error a step ends with. Run wraps some of them with context. */
  function Outcome(env: Environment, s: Step): Error
  {
    match s
    case StartLocalNode => env.startLocal
    case PrepareMasternode => env.prepare
    case WriteMasternodeConf => env.writeMasternodeConf
    case WriteSupernodeConf => env.writeSupernodeConf
    case StopLocalNode => env.stopLocal
    case StartHotNode => HotCtrlOutcome(env.hot)
    case ReadMasternodeConf => if env.confKey.Err? then Failure(env.confKey.msg) else Nil
    case RunRemoteMasternode =>
      var e := MasternodeOutcome(env.master);
      if e.Failure? then Failure("run remote as masternode: " + e.msg) else Nil
    case RestartLocalNode => env.restartLocal
    case CheckLocalSync => env.localSync
    case StartAlias => if env.startAlias.Failure? then Failure("masternode activation failed: " + env.startAlias.msg) else Nil
    case RegisterTicket => env.ticket
    case StopColdNode => env.stopCold
    case StartRemoteService(svc) =>
      var answer := if svc == RQService then env.rqService else if svc == DDService then env.ddService else env.snService;
      var e := ServiceOutcome(answer);
      if e.Failure? then Failure("failed to start " + svc + " on hot node: " + e.msg) else Nil
    case CopySupernodeConf => env.copy
    case ChmodSupernodeConf => env.chmod
  }

  /** A failure that ends Run: every failure except the ticket
      registration's, which is only logged. */
  predicate Fatal(env: Environment, s: Step)
  {
    Outcome(env, s).Failure? && s != RegisterTicket
  }

  /** Index of the first step of `plan` whose failure ends Run. */
  function FirstFatal(env: Environment, plan: seq<Step>): (k: nat)
    ensures k <= |plan|
    ensures k < |plan| ==> Fatal(env, plan[k])
    ensures forall j :: 0 <= j < k ==> !Fatal(env, plan[j])
    decreases |plan|
  {
    if |plan| == 0 then 0 else if Fatal(env, plan[0]) then 0 else FirstFatal(env, plan[1..]) + 1
  }

  /** The runner's options, set by handleArgs and handleConfigs. */
  datatype RunnerOpts = RunnerOpts(
    remotePastelUtility: string,
    remotePasteld: string,
    remotePastelCli: string,
    testnetOption: string)

  /** ColdHotRunner with its configuration and options. The masternode
      flags are the start command's, which Init and Run read and update. */
  class ColdHotRunner {
    const flags: StartCommand.Flags
    const remotePastelUtilityDir: string
    var remotePastelExecDir: string
    const remoteWorkingDir: string
    /** The SSH address of the hot node (the start command's --ssh-ip). */
    const sshIP: string
    var network: string
    var opts: RunnerOpts
    var connected: bool
    /** The steps Run has taken, in order. */
    var steps: seq<Step>
    /** The pasteld command lines sent to the hot node, in order. */
    var launches: seq<string>

    constructor (flags: StartCommand.Flags, utilityDir: string, execDir: string, workDir: string, sshIP: string)
      ensures this.flags == flags && remotePastelUtilityDir == utilityDir && remotePastelExecDir == execDir
      ensures remoteWorkingDir == workDir && this.sshIP == sshIP && network == "" && opts == RunnerOpts("", "", "", "")
      ensures !connected && steps == [] && launches == []
    {
      this.flags := flags;
      remotePastelUtilityDir := utilityDir;
      remotePastelExecDir := execDir;
      remoteWorkingDir := workDir;
      this.sshIP := sshIP;
      launches := [];
      network := "";
      opts := RunnerOpts("", "", "", "");
      connected := false;
      steps := [];
    }

    /** handleArgs: the pastel-utility directory is required, the pasteld
        directory defaults, and the three remote paths are joined with the
        local OS's names and separator and sent with slashes. */
    method HandleArgs(os: OSType, defaultExecDir: string) returns (err: Error)
      modifies this`remotePastelExecDir, this`opts
      ensures remotePastelUtilityDir == "" ==>
        err.Failure? && remotePastelExecDir == old(remotePastelExecDir) && opts == old(opts)
      ensures remotePastelUtilityDir != "" ==>
        err == Nil
        && remotePastelExecDir == (if old(remotePastelExecDir) == "" then defaultExecDir else old(remotePastelExecDir))
        && opts == old(opts).(remotePastelCli := RemotePath(os, remotePastelExecDir, PastelCliName(os)),
                              remotePasteld := RemotePath(os, remotePastelExecDir, PasteldName(os)),
                              remotePastelUtility := RemotePath(os, remotePastelUtilityDir, "pastel-utility"))
      ensures remotePastelUtilityDir != "" ==>
        '\\' !in opts.remotePasteld && '\\' !in opts.remotePastelCli && '\\' !in opts.remotePastelUtility
    {
      if |remotePastelUtilityDir| == 0 {
        return Failure("cannot find remote pastel-utility dir");
      }
      if |remotePastelExecDir| == 0 {
        remotePastelExecDir := defaultExecDir;
      }
      var sep := if os == Windows then '\\' else '/';
      var cli := PathJoin(sep, remotePastelExecDir, PastelCliName(os));
      opts := opts.(remotePastelCli := ReplaceChar(cli, '\\', '/'));
      var pasteld := PathJoin(sep, remotePastelExecDir, PasteldName(os));
      opts := opts.(remotePasteld := ReplaceChar(pasteld, '\\', '/'));
      var utility := PathJoin(sep, remotePastelUtilityDir, "pastel-utility");
      opts := opts.(remotePastelUtility := ReplaceChar(utility, '\\', '/'));
      return Nil;
    }

    /** handleConfigs: pastel.conf gives the network (and so the testnet
        option), then the masternode parameters are checked in cold/hot
        mode. */
    method HandleConfigs(parsedNetwork: Result<string>, confCheck: Error, ports: StartCommand.PortList)
      returns (err: Error)
      modifies this`network, this`opts, flags
      ensures parsedNetwork.Err? ==> err.Failure? && network == old(network) && opts == old(opts)
                                     && flags.mn == old(flags.mn)
      ensures parsedNetwork.Ok? ==>
        (network == parsedNetwork.value
         && opts == (if network == NetworkTestnet then old(opts).(testnetOption := " --testnet") else old(opts))
         && (err == Nil <==> StartCommand.ParamsCheckPass(old(flags.mn), true, sshIP, Err(""), confCheck)))
      ensures opts.remotePasteld == old(opts.remotePasteld) && opts.remotePastelCli == old(opts.remotePastelCli)
              && opts.remotePastelUtility == old(opts.remotePastelUtility)
      ensures err == Nil ==> flags.mn == StartCommand.ResolvedParams(old(flags.mn), ports)
      ensures err.Failure? ==> flags.mn == old(flags.mn)
      ensures flags.mn.extIP == old(flags.mn.extIP) && flags.mn.name == old(flags.mn.name)
    {
      if parsedNetwork.Err? {
        return Failure("parse pastel.conf: " + parsedNetwork.msg);
      }
      network := parsedNetwork.value;
      if network == NetworkTestnet {
        opts := opts.(testnetOption := " --testnet");
      }
      var e := flags.CheckStartMasterNodeParams(true, sshIP, Err(""), confCheck, ports);
      if e.Failure? {
        return Failure("checkStartMasterNodeParams: " + e.msg);
      }
      return Nil;
    }
  
    /** Init: handleArgs, handleConfigs and the SSH connection must all
        succeed; an external IP not given is looked up on the hot node
        (the answer is kept verbatim, as pastelup keeps `curl`'s output). */
    method Init(os: OSType, defaultExecDir: string, parsedNetwork: Result<string>, confCheck: Error,
                ports: StartCommand.PortList, ssh: Error, curl: Result<string>)
      returns (err: Error)
      modifies this`remotePastelExecDir, this`opts, this`network, this`connected, flags
      ensures err == Nil <==>
        remotePastelUtilityDir != "" && parsedNetwork.Ok?
        && StartCommand.ParamsCheckPass(old(flags.mn), true, sshIP, Err(""), confCheck)
        && ssh == Nil && (old(flags.mn.extIP) != "" || curl.Ok?)
      ensures err == Nil ==>
        connected && network == parsedNetwork.value
        && flags.mn.extIP == (if old(flags.mn.extIP) == "" then curl.value else old(flags.mn.extIP))
        && flags.mn.name == old(flags.mn.name)
        && '\\' !in opts.remotePasteld && '\\' !in opts.remotePastelCli && '\\' !in opts.remotePastelUtility
      ensures err == Nil ==>
        flags.mn == StartCommand.ResolvedParams(old(flags.mn), ports)
                      .(extIP := if old(flags.mn.extIP) == "" then curl.value else old(flags.mn.extIP))
      ensures connected == (old(connected) || (remotePastelUtilityDir != "" && parsedNetwork.Ok?
                                               && StartCommand.ParamsCheckPass(old(flags.mn), true, sshIP, Err(""), confCheck)
                                               && ssh == Nil))
      ensures (remotePastelUtilityDir == "" || parsedNetwork.Err?
               || !StartCommand.ParamsCheckPass(old(flags.mn), true, sshIP, Err(""), confCheck)) ==>
        flags.mn == old(flags.mn)
      ensures remotePastelUtilityDir == "" ==>
        opts == old(opts) && remotePastelExecDir == old(remotePastelExecDir) && network == old(network)
    {
      err := HandleArgs(os, defaultExecDir);
      if err.Failure? {
        return Failure("parse args: " + err.msg);
      }
      err := HandleConfigs(parsedNetwork, confCheck, ports);
      if err.Failure? {
        return Failure("parse args: " + err.msg);
      }
      if ssh.Failure? {
        return Failure("ssh connection failure: " + ssh.msg);
      }
      connected := true;
      if |flags.mn.extIP| == 0 {
        if curl.Err? {
          return Failure("failure in getting ext ip of remote " + curl.msg);
        }
        flags.mn := flags.mn.(extIP := curl.value);
      }
      return Nil;
    }

    /** remoteHotNodeCtrl: the hot pasteld is launched with the external
        IP and the remote working directory, waited for, synced and
        stopped. */
    method RemoteHotNodeCtrl(a: HotAnswers) returns (err: Error, launched: string)
      ensures err == HotCtrlOutcome(a)
      ensures launched == HotLaunchLine(opts.remotePasteld, flags.mn.extIP, remoteWorkingDir, opts.testnetOption)
    {
      launched := HotLaunchLine(opts.remotePasteld, flags.mn.extIP, remoteWorkingDir, opts.testnetOption);
      var up, _ := CheckPastelDRunningRemote(a.getinfo, true);
      if !up {
        return Failure(ErrRemoteNotStarted), launched;
      }
      var res, _ := CheckMasterNodeSyncRemote(opts.remotePastelCli, a.sync, 0, 0);
      if res.err.Failure? {
        return res.err, launched;
      }
      return a.stop, launched;
    }

    /** runRemoteNodeAsMasterNode: the hot pasteld is relaunched as a
        masternode with the private key the flags hold, then waited for and
        synced. */
    method RunRemoteNodeAsMasterNode(a: HotAnswers) returns (err: Error, launched: string)
      ensures err == MasternodeOutcome(a)
      ensures launched == MasternodeLaunchLine(opts.remotePasteld, flags.mn.privateKey, flags.mn.extIP,
                                               remoteWorkingDir, opts.testnetOption)
    {
      launched := MasternodeLaunchLine(opts.remotePasteld, flags.mn.privateKey, flags.mn.extIP,
                                       remoteWorkingDir, opts.testnetOption);
      var up, _ := CheckPastelDRunningRemote(a.getinfo, true);
      if !up {
        return Failure(ErrRemoteNotStarted), launched;
      }
      var res, _ := CheckMasterNodeSyncRemote(opts.remotePastelCli, a.sync, 0, 0);
      return res.err, launched;
    }

    /** handleCreateUpdateStartColdHot: collateral and passphrase on the
        cold node, then the hot pasteld is started to generate the private
        key and the PastelID there and stopped again; --create backs up
        masternode.conf. */
    method HandleCreateUpdateStartColdHot(a: CreateUpdateAnswers) returns (err: Error, launched: Option<string>)
      requires a.collateral.searchWallet && a.collateral.existing.Ok? ==>
               StartCommand.IsListing(a.collateral.listing, a.collateral.existing.value)
      modifies flags
      ensures err == Nil ==>
        |flags.mn.txID| > 0 && |flags.mn.ind| > 0 && |flags.mn.passPhrase| > 0
        && StartCommand.FirstSeenAt(a.collateral.polls, flags.mn.txID, flags.mn.ind)
        && PasteldUp(a.getinfo, true) && a.stop == Nil && (flags.mn.isCreate ==> a.backup == Nil)
      ensures launched.Some? ==>
        launched.value == HotLaunchLine(opts.remotePasteld, flags.mn.extIP, remoteWorkingDir, opts.testnetOption)
      ensures err == Nil ==> launched.Some?
      ensures err == Nil ==> StartCommand.KeysSettled(old(flags.mn), flags.mn, a.genkey, a.newkey)
      ensures (StartCommand.SecretsObtainable(old(flags.mn), a.collateral, a.passphraseAnswer, a.genkey, a.newkey)
               && PasteldUp(a.getinfo, true) && a.stop == Nil && (old(flags.mn.isCreate) ==> a.backup == Nil))
              ==> err == Nil
      ensures flags.mn.name == old(flags.mn.name) && flags.mn.extIP == old(flags.mn.extIP)
              && flags.mn.isCreate == old(flags.mn.isCreate)
    {
      launched := None;
      err := flags.CheckCollateral(a.collateral);
      if err.Failure? {
        return err, None;
      }
      err := flags.CheckPassphrase(a.passphraseAnswer);
      if err.Failure? {
        return err, None;
      }
      ghost var resolved := flags.mn;
      assert resolved.privateKey == old(flags.mn.privateKey) && resolved.pastelID == old(flags.mn.pastelID);
      launched := Some(HotLaunchLine(opts.remotePasteld, flags.mn.extIP, remoteWorkingDir, opts.testnetOption));
      var up, _ := CheckPastelDRunningRemote(a.getinfo, true);
      if !up {
        return Failure(ErrRemoteNotStarted), launched;
      }
      err := SecondHalfColdHot(a);
      assert flags.mn.txID == resolved.txID && flags.mn.ind == resolved.ind && flags.mn.passPhrase == resolved.passPhrase;
    }

    /** The part of handleCreateUpdateStartColdHot that runs while the hot
        pasteld is up: key, PastelID, stop, backup. */
    method SecondHalfColdHot(a: CreateUpdateAnswers) returns (err: Error)
      modifies flags
      ensures err == Nil <==>
        (|old(flags.mn.privateKey)| > 0 || a.genkey.Ok?)
        && (|old(flags.mn.pastelID)| > 0 || (|old(flags.mn.passPhrase)| > 0 && a.newkey.Parsed?))
        && a.stop == Nil && (old(flags.mn.isCreate) ==> a.backup == Nil)
      ensures flags.mn.privateKey
              == if |old(flags.mn.privateKey)| == 0 && a.genkey.Ok? then TrimSuffix(a.genkey.value, "\n")
                 else old(flags.mn.privateKey)
      ensures flags.mn.pastelID
              == if |old(flags.mn.pastelID)| == 0 && |old(flags.mn.passPhrase)| > 0 && a.newkey.Parsed?
                    && (|old(flags.mn.privateKey)| > 0 || a.genkey.Ok?)
                 then a.newkey.value
                 else old(flags.mn.pastelID)
      ensures flags.mn == old(flags.mn).(privateKey := flags.mn.privateKey, pastelID := flags.mn.pastelID)
    {
      err := flags.CheckMasternodePrivKey(a.genkey);
      if err.Failure? {
        return err;
      }
      err := flags.CheckPastelID(a.newkey);
      if err.Failure? {
        return err;
      }
      if a.stop.Failure? {
        return a.stop;
      }
      if flags.mn.isCreate && a.backup.Failure? {
        return a.backup;
      }
      return Nil;
    }

    /** Takes one step of Run: records it, performs it, and returns its
        error. The preparation step is its answer alone: only its default
        for the P2P IP is applied here. */
    method DoStep(env: Environment, s: Step) returns (err: Error)
      modifies this`steps, this`launches, flags
      ensures steps == old(steps) + [s]
      ensures err == Outcome(env, s)
      ensures RunState(flags.mn, launches)
              == StepEffect(RunState(old(flags.mn), old(launches)), env, opts, remoteWorkingDir, s)
    {
      steps := steps + [s];
      match s
      case PrepareMasternode =>
        err := env.prepare;
        if err == Nil && flags.mn.p2pIP == "" {
          flags.mn := flags.mn.(p2pIP := flags.mn.extIP);
        }
      case StartHotNode =>
        var line;
        err, line := RemoteHotNodeCtrl(env.hot);
        launches := launches + [line];
      case ReadMasternodeConf =>
        if env.confKey.Err? {
          return Failure(env.confKey.msg);
        }
        flags.mn := flags.mn.(privateKey := env.confKey.value);
        err := Nil;
      case RunRemoteMasternode =>
        var line;
        err, line := RunRemoteNodeAsMasterNode(env.master);
        launches := launches + [line];
        if err.Failure? {
          err := Failure("run remote as masternode: " + err.msg);
        }
      case StartRemoteService(svc) =>
        var answer := if svc == RQService then env.rqService else if svc == DDService then env.ddService else env.snService;
        var _, e := RunServiceRemote(opts.remotePastelUtility, svc, remoteWorkingDir, answer);
        err := if e.Failure? then Failure("failed to start " + svc + " on hot node: " + e.msg) else Nil;
      case _ =>
        err := Outcome(env, s);
    }

    /** Runs the steps of `plan` in order, stopping at the first failure
        other than the ticket registration's. */
    method RunPlan(env: Environment, plan: seq<Step>) returns (err: Error)
      modifies this`steps, this`launches, flags
      ensures var k := FirstFatal(env, plan);
              var taken := if k < |plan| then k + 1 else |plan|;
              steps == old(steps) + plan[..taken]
              && err == (if k < |plan| then Outcome(env, plan[k]) else Nil)
              && RunState(flags.mn, launches)
                 == After(RunState(old(flags.mn), old(launches)), env, opts, remoteWorkingDir, plan[..taken])
      ensures err == Nil <==> forall k :: 0 <= k < |plan| ==> !Fatal(env, plan[k])
    {
      ghost var start := RunState(flags.mn, launches);
      ghost var k0 := FirstFatal(env, plan);
      var k := 0;
      while k < |plan|
        invariant k <= |plan| && k <= k0
        invariant steps == old(steps) + plan[..k]
        invariant RunState(flags.mn, launches) == After(start, env, opts, remoteWorkingDir, plan[..k])
        decreases |plan| - k
      {
        err := DoStep(env, plan[k]);
        assert plan[..k + 1] == plan[..k] + [plan[k]];
        assert plan[..k + 1][..k] == plan[..k];
        if err.Failure? && plan[k] != RegisterTicket {
          return err;
        }
        k := k + 1;
      }
      err := Nil;
    }

    /** ColdHotRunner.Run: the plan's steps in order, stopping at the first
        failure other than the ticket registration's. The plan is fixed by
        the --create, --update and --activate flags, which no step
        changes. */
    method Run(env: Environment) returns (err: Error)
      modifies this`steps, this`launches, flags
      ensures var plan := Plan(old(flags.mn.isCreate || flags.mn.isUpdate), old(flags.mn.isActivate), old(flags.mn.isCreate));
              var k := FirstFatal(env, plan);
              var taken := if k < |plan| then k + 1 else |plan|;
              steps == old(steps) + plan[..taken]
              && err == (if k < |plan| then Outcome(env, plan[k]) else Nil)
              && RunState(flags.mn, launches)
                 == After(RunState(old(flags.mn), old(launches)), env, opts, remoteWorkingDir, plan[..taken])
      ensures var plan := Plan(old(flags.mn.isCreate || flags.mn.isUpdate), old(flags.mn.isActivate), old(flags.mn.isCreate));
              err == Nil <==> forall k :: 0 <= k < |plan| ==> !Fatal(env, plan[k])
    {
      var plan := Plan(flags.mn.isCreate || flags.mn.isUpdate, flags.mn.isActivate, flags.mn.isCreate);
      err := RunPlan(env, plan);
    }
  }

  /** The part of the runner's state that Run's steps change: the
      masternode flags and the remote launch lines. */
  datatype RunState = RunState(mn: StartCommand.MasternodeParams, launches: seq<string>)

  /** What one step does to that state. */
  function StepEffect(st: RunState, env: Environment, opts: RunnerOpts, workDir: string, s: Step): RunState
  {
    match s
    case PrepareMasternode =>
      if env.prepare == Nil && st.mn.p2pIP == "" then st.(mn := st.mn.(p2pIP := st.mn.extIP)) else st
    case StartHotNode =>
      st.(launches := st.launches + [HotLaunchLine(opts.remotePasteld, st.mn.extIP, workDir, opts.testnetOption)])
    case ReadMasternodeConf =>
      if env.confKey.Ok? then st.(mn := st.mn.(privateKey := env.confKey.value)) else st
    case RunRemoteMasternode =>
      st.(launches := st.launches + [MasternodeLaunchLine(opts.remotePasteld, st.mn.privateKey, st.mn.extIP,
                                                           workDir, opts.testnetOption)])
    case _ => st
  }

  /** The state after a sequence of steps. */
  function After(st: RunState, env: Environment, opts: RunnerOpts, workDir: string, steps: seq<Step>): RunState
    decreases |steps|
  {
    if |steps| == 0 then st
    else StepEffect(After(st, env, opts, workDir, steps[..|steps| - 1]), env, opts, workDir, steps[|steps| - 1])
  }

  /** No step changes the external IP or the --create, --update and
      --activate flags. */
  lemma {:induction false} AfterKeepsFlags(st: RunState, env: Environment, opts: RunnerOpts, workDir: string,
                                           steps: seq<Step>)
    ensures var mn := After(st, env, opts, workDir, steps).mn;
      mn.extIP == st.mn.extIP && mn.isCreate == st.mn.isCreate && mn.isUpdate == st.mn.isUpdate
      && mn.isActivate == st.mn.isActivate && mn.name == st.mn.name
    decreases |steps|
  {
    if |steps| > 0 {
      AfterKeepsFlags(st, env, opts, workDir, steps[..|steps| - 1]);
    }
  }

  /** When Run gets as far as the masternode launch, the launch carries the
      private key just read back from masternode.conf and the external IP
      the run started with. */
  lemma {:induction false} MasternodeKeyFromConf(st: RunState, env: Environment, opts: RunnerOpts, workDir: string,
                                                 createOrUpdate: bool, activate: bool, isCreate: bool)
    requires FirstFatal(env, Plan(createOrUpdate, activate, isCreate)) >= |PlanHead(createOrUpdate)| + 3
    ensures var p, h := Plan(createOrUpdate, activate, isCreate), |PlanHead(createOrUpdate)|;
      h + 4 <= |p| && env.confKey.Ok?
      && var launches := After(st, env, opts, workDir, p[..h + 4]).launches;
      |launches| > 0
      && launches[|launches| - 1]
         == MasternodeLaunchLine(opts.remotePasteld, env.confKey.value, st.mn.extIP, workDir, opts.testnetOption)
  {
    var p, h := Plan(createOrUpdate, activate, isCreate), |PlanHead(createOrUpdate)|;
    PlanHotPhase(createOrUpdate, activate, isCreate);
    assert !Fatal(env, p[h + 2]);
    assert env.confKey.Ok?;
    assert p[..h + 4][..h + 3] == p[..h + 3] && p[..h + 3][..h + 2] == p[..h + 2];
    var before := After(st, env, opts, workDir, p[..h + 2]);
    AfterKeepsFlags(st, env, opts, workDir, p[..h + 2]);
    assert After(st, env, opts, workDir, p[..h + 3]) == StepEffect(before, env, opts, workDir, ReadMasternodeConf);
  }

  /** A failed ticket registration changes nothing about where Run stops
      or what it returns. */
  lemma {:induction false} TicketFailureNotFatal(env: Environment, ticket: Error, plan: seq<Step>)
    ensures FirstFatal(env.(ticket := ticket), plan) == FirstFatal(env, plan)
    ensures forall k :: 0 <= k < |plan| && plan[k] != RegisterTicket ==>
              Outcome(env.(ticket := ticket), plan[k]) == Outcome(env, plan[k])
    decreases |plan|
  {
    if |plan| > 0 {
      TicketFailureNotFatal(env, ticket, plan[1..]);
      forall k | 0 <= k < |plan| && plan[k] != RegisterTicket
        ensures Outcome(env.(ticket := ticket), plan[k]) == Outcome(env, plan[k])
      {
        if k > 0 {
          assert plan[k] == plan[1..][k - 1];
        }
      }
    }
  }
}
