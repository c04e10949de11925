// The install command of pastelup: which components a target installs,
// how the base pasteld working environment is prepared (RPC port and
// credentials, the pastel.conf text, the zk-SNARK parameter files), the
// package check, the install-directory prompt and the remote supernode
// install over SSH. Downloads, unzipping, chmod, firewall calls, prompts
// and SSH are results handed in as parameters.
module InstallCommand {
  import opened Util
  import opened Constants
  import StartCommand

  // ---------------------------------------------------------------------
  // Messages

  const ErrNoSSHIP: string := "--ssh-ip IP address - Required, SSH address of the remote host"
  const ErrNoSSHDir: string := "--ssh-dir RemotePastelUtilityDir - Required, pastel-utility path of the remote host"
  const ErrMissingSuffix: string := " is missing from your OS, which is required for running, please install them"
  const ErrParamExists: string := "pastel-param exists:  "
  const ErrSaveFile: string := "failed to save file changes: "
  /** The model's message for a failed WriteString. */
  const ErrWriteFailed: string := "short write"

  // ---------------------------------------------------------------------
  // Component selection (runComponentsInstall)

  /** One step of runComponentsInstall. */
  datatype InstallStep =
    | UtilityConfig          // CreateUtilityConfigFile
    | InstallDir             // createInstallDir
    | CheckPackages          // checkInstalledPackages
    | Component(tool: ToolType)
    | OpenPorts
    | DupeDetection

  /** The steps runComponentsInstall takes for a target, in order. */
  function InstallPlan(target: ToolType): seq<InstallStep>
  {
    [UtilityConfig, InstallDir, CheckPackages]
    + StartCommand.When(target == PastelD || target == WalletNode || target == SuperNode, [Component(PastelD)])
    + StartCommand.When(target == WalletNode || target == SuperNode, [Component(RQService)])
    + StartCommand.When(target == WalletNode, [Component(WalletNode)])
    + StartCommand.When(target == SuperNode, [Component(SuperNode), OpenPorts, DupeDetection])
  }

  /** Which components each target installs. */
  lemma ComponentSelection(target: ToolType)
    ensures Component(PastelD) in InstallPlan(target) <==> target == PastelD || target == WalletNode || target == SuperNode
    ensures Component(RQService) in InstallPlan(target) <==> target == WalletNode || target == SuperNode
    ensures Component(WalletNode) in InstallPlan(target) <==> target == WalletNode
    ensures Component(SuperNode) in InstallPlan(target) <==> target == SuperNode
  {
    PlanPieces(target);
  }

  /** The three preparation steps always come first, the ports and dupe
      detection are for a supernode only, and no other tool is installed. */
  lemma PlanFrame(target: ToolType)
    ensures InstallPlan(target)[..3] == [UtilityConfig, InstallDir, CheckPackages]
    ensures OpenPorts in InstallPlan(target) <==> target == SuperNode
    ensures DupeDetection in InstallPlan(target) <==> target == SuperNode
    ensures forall s :: s in InstallPlan(target) && s.Component? ==> s.tool in {PastelD, RQService, WalletNode, SuperNode}
  {
    PlanPieces(target);
  }

  lemma PlanPieces(target: ToolType)
    ensures var p := InstallPlan(target);
      && p[..3] == [UtilityConfig, InstallDir, CheckPackages]
      && (forall s :: s in p <==> (s in [UtilityConfig, InstallDir, CheckPackages]
           || (s == Component(PastelD) && (target == PastelD || target == WalletNode || target == SuperNode))
           || (s == Component(RQService) && (target == WalletNode || target == SuperNode))
           || (s == Component(WalletNode) && target == WalletNode)
           || (s in [Component(SuperNode), OpenPorts, DupeDetection] && target == SuperNode)))
  {
    var p := InstallPlan(target);
    assert p[..3] == [UtilityConfig, InstallDir, CheckPackages];
  }

  /** On a supernode target, the pasteld and rq-service components come
      before the supernode component, which comes before opening the ports
      and installing dupe detection. */
  lemma SuperNodeOrder()
    ensures InstallPlan(SuperNode)[3..] == [Component(PastelD), Component(RQService), Component(SuperNode), OpenPorts, DupeDetection]
  {
  }

  /** The result of running steps until one fails. */
  datatype StepRun = StepRun(err: Error, ran: seq<InstallStep>)

  /** Runs the steps in order and stops at the first that fails; `outcome`
      is each step's result. */
  function RunSteps(steps: seq<InstallStep>, outcome: InstallStep -> Error): (r: StepRun)
    ensures r.ran <= steps
    ensures forall i :: 0 <= i < |r.ran| - 1 ==> outcome(r.ran[i]) == Nil
    ensures r.err == Nil <==> r.ran == steps && forall i :: 0 <= i < |steps| ==> outcome(steps[i]) == Nil
    ensures r.err != Nil ==> |r.ran| > 0 && r.err == outcome(r.ran[|r.ran| - 1])
    decreases |steps|
  {
    if steps == [] then StepRun(Nil, [])
    else if outcome(steps[0]) != Nil then StepRun(outcome(steps[0]), [steps[0]])
    else
      var rest := RunSteps(steps[1..], outcome);
      assert forall i :: 1 <= i < |steps| ==> steps[i] == steps[1..][i - 1];
      StepRun(rest.err, [steps[0]] + rest.ran)
  }

  /** runComponentsInstall: the target's plan, stopping at the first
      failing step. */
  function RunComponentsInstall(target: ToolType, outcome: InstallStep -> Error): (r: StepRun)
    ensures r.ran <= InstallPlan(target)
    ensures r.err == Nil <==> r.ran == InstallPlan(target) && forall s :: s in InstallPlan(target) ==> outcome(s) == Nil
    ensures r.err != Nil ==> |r.ran| > 0 && r.err == outcome(r.ran[|r.ran| - 1])
  {
    var p := InstallPlan(target);
    var r := RunSteps(p, outcome);
    assert (forall s :: s in p ==> outcome(s) == Nil) <==> (forall i :: 0 <= i < |p| ==> outcome(p[i]) == Nil);
    r
  }

  // ---------------------------------------------------------------------
  // installComponent and installExecutable

  /** The display name installComponent logs: the last `/`-separated
      segment of the tool type. */
  function CommandName(tool: ToolType): (r: string)
    ensures r == Split(tool, '/')[|Split(tool, '/')| - 1]
    ensures '/' !in r && EndsWith(tool, r)
  {
    LastSegmentOfSplit(tool, '/');
    LastSegment(tool, '/')
  }

  /** The tool types installExecutable's switch knows. */
  predicate KnownExecutable(tool: ToolType)
  {
    tool == PastelD || tool == WalletNode || tool == SuperNode || tool == RQService
  }

  /** The results of installExecutable's own steps: the download, the
      unpacking of a zip, the chmod of the main executable, the chmod of
      pastel-cli, the base working environment (pasteld only) and the
      component working environment (the other tools). */
  datatype ExecSteps = ExecSteps(download: Error, unpack: Error, makeExec: Error, makeCli: Error,
                                 baseSetup: Error, componentSetup: Error)

  /** installExecutable. The component working-environment result is not
      looked at (its error is dropped), and an unknown tool type succeeds. */
  function InstallExecutable(tool: ToolType, downloadURL: string, st: ExecSteps): (r: Error)
    ensures st.download != Nil ==> r == st.download
    ensures st.download == Nil && Contains(downloadURL, ".zip") && st.unpack != Nil ==> r == st.unpack
    ensures st.download == Nil && (!Contains(downloadURL, ".zip") || st.unpack == Nil) ==>
      (!KnownExecutable(tool) ==> r == Nil)
      && (tool == PastelD ==> (r == Nil <==> st.makeExec == Nil && st.makeCli == Nil && st.baseSetup == Nil))
      && (tool != PastelD && KnownExecutable(tool) ==> r == st.makeExec)
    ensures r != Nil ==> r in {st.download, st.unpack, st.makeExec, st.makeCli, st.baseSetup}
  {
    if st.download != Nil then st.download
    else if Contains(downloadURL, ".zip") && st.unpack != Nil then st.unpack
    else if tool == PastelD then
      if st.makeExec != Nil then st.makeExec
      else if st.makeCli != Nil then st.makeCli
      else st.baseSetup
    else if tool == WalletNode || tool == SuperNode || tool == RQService then st.makeExec
    else Nil
  }

  /** A failing component working environment never changes the result. */
  lemma ComponentSetupIgnored(tool: ToolType, url: string, st: ExecSteps, e: Error)
    ensures InstallExecutable(tool, url, st) == InstallExecutable(tool, url, st.(componentSetup := e))
  {
  }

  /** dd-service is not in the switch, so installing it succeeds as soon as
      the download (and unzip) succeed. */
  lemma DupeDetectionExecutableNeedsOnlyDownload(url: string, st: ExecSteps)
    requires st.download == Nil && (!Contains(url, ".zip") || st.unpack == Nil)
    ensures InstallExecutable(DDService, url, st) == Nil
  {
  }

  /** installComponent: a failed download-URL lookup is returned, otherwise
      installExecutable's result. `lookup` is the (URL, archive name) pair
      of Configurer.GetDownloadURL. */
  function InstallComponent(tool: ToolType, lookup: Result<(string, string)>, st: ExecSteps): (r: Error)
    ensures lookup.Err? ==> r == Failure(lookup.msg)
    ensures lookup.Ok? ==> r == InstallExecutable(tool, lookup.value.0, st)
  {
    match lookup
    case Err(msg) => Failure(msg)
    case Ok(v) => InstallExecutable(tool, v.0, st)
  }

  // ---------------------------------------------------------------------
  // checkInstalledPackages

  /** The dependencies absent from the installed set, in list order. */
  function MissingPackages(deps: seq<string>, installed: set<string>): seq<string>
    decreases |deps|
  {
    if deps == [] then []
    else
      MissingPackages(deps[..|deps| - 1], installed)
      + (if deps[|deps| - 1] in installed then [] else [deps[|deps| - 1]])
  }

  /** A name is missing exactly when it is a dependency that is not
      installed; the list is never longer than the dependency list. */
  lemma {:induction false} MissingPackagesMembers(deps: seq<string>, installed: set<string>)
    ensures forall p :: p in MissingPackages(deps, installed) <==> p in deps && p !in installed
    ensures |MissingPackages(deps, installed)| <= |deps|
    decreases |deps|
  {
    if deps != [] {
      var init := deps[..|deps| - 1];
      MissingPackagesMembers(init, installed);
      assert deps == init + [deps[|deps| - 1]];
    }
  }

  /** The filter keeps list order: the missing names of a concatenation
      are those of the first part followed by those of the second. */
  lemma {:induction false} MissingPackagesAppend(a: seq<string>, b: seq<string>, installed: set<string>)
    ensures MissingPackages(a + b, installed) == MissingPackages(a, installed) + MissingPackages(b, installed)
    decreases |b|
  {
    if b == [] {
      assert a + b == a;
    } else {
      var b0 := b[..|b| - 1];
      MissingPackagesAppend(a, b0, installed);
      assert (a + b)[..|a + b| - 1] == a + b0;
    }
  }

  /** checkInstalledPackages: on Linux, the dependencies missing from the
      installed set make an error naming them; other systems pass. */
  method CheckInstalledPackages(os: OSType, deps: seq<string>, installed: set<string>) returns (err: Error)
    ensures os != Linux ==> err == Nil
    ensures os == Linux ==> (err == Nil <==> forall p :: p in deps ==> p in installed)
    ensures err != Nil ==> err == Failure(Join(MissingPackages(deps, installed), ", ") + ErrMissingSuffix)
  {
    err := Nil;
    if os == Linux {
      var notInstall: seq<string> := [];
      var i := 0;
      while i < |deps|
        invariant 0 <= i <= |deps|
        invariant notInstall == MissingPackages(deps[..i], installed)
      {
        assert deps[..i + 1][..i] == deps[..i];
        if deps[i] !in installed {
          notInstall := notInstall + [deps[i]];
        }
        i := i + 1;
      }
      assert deps[..i] == deps;
      MissingPackagesMembers(deps, installed);
      if |notInstall| > 0 {
        assert notInstall[0] in notInstall;
        err := Failure(Join(notInstall, ", ") + ErrMissingSuffix);
      }
    }
  }

  // ---------------------------------------------------------------------
  // createInstallDir

  /** What utils.CreateFolder reports: created, an "already exists" error
      (os.IsExist holds), or another error. */
  datatype FolderResult = Created | Exists(msg: string) | FolderFailed(msg: string)

  function FolderError(f: FolderResult): (r: Error)
    ensures r == Nil <==> f.Created?
  {
    match f
    case Created => Nil
    case Exists(msg) => Failure(msg)
    case FolderFailed(msg) => Failure(msg)
  }

  /** The answer that lets the install go on: "Y" or "y" once white space
      is trimmed. */
  predicate ConfirmAnswer(line: string)
  {
    TrimSpace(line) == "Y" || TrimSpace(line) == "y"
  }

  /** A confirming answer holds a Y or a y. */
  lemma ConfirmAnswerHoldsY(line: string)
    ensures ConfirmAnswer(line) ==> 'Y' in line || 'y' in line
  {
    if ConfirmAnswer(line) {
      TrimmedHead(line, SpacesOf(line));
    }
  }

  /** A "Y" or "y" typed with its newline confirms. */
  lemma ConfirmAnswerLetter(c: char)
    requires c == 'Y' || c == 'y'
    ensures ConfirmAnswer([c] + "\n")
  {
    TrimSpaceOneLetter(c);
    if c == 'Y' {
      assert [c] == "Y";
    } else {
      assert [c] == "y";
    }
  }

  /** An empty answer does not confirm. */
  lemma ConfirmAnswerEmpty()
    ensures !ConfirmAnswer("")
  {
    assert |TrimSpace("")| == 0;
  }

  /** The first character left by trimming is a character of the input. */
  lemma TrimmedHead(s: string, cut: set<char>)
    requires TrimRight(TrimLeft(s, cut), cut) != []
    ensures TrimRight(TrimLeft(s, cut), cut)[0] in s
  {
    var l := TrimLeft(s, cut);
    var r := TrimRight(l, cut);
    assert r[0] == l[0];
    assert l[0] == s[|s| - |l|];
  }

  lemma TrimSpaceOneLetter(c: char)
    requires !IsSpace(c)
    ensures TrimSpace([c] + "\n") == [c]
  {
    var s := [c] + "\n";
    var cut := SpacesOf(s);
    assert c !in cut && '\n' in cut;
    assert TrimLeft(s, cut) == s;
    assert TrimRight(s[..1], cut) == [c];
  }

  // ---------------------------------------------------------------------
  // The remote supernode install option string

  /** One option of the remote `install supernode` command line. */
  datatype RemoteOption = DirOpt(dir: string) | WorkDirOpt(dir: string) | ForceOpt | ReleaseOpt(version: string) | PeersOpt(peers: string)

  function RemoteOptionText(o: RemoteOption): string
  {
    match o
    case DirOpt(d) => " --dir=" + d
    case WorkDirOpt(w) => " --work-dir=" + w
    case ForceOpt => " --force"
    case ReleaseOpt(v) => " --release=" + v
    case PeersOpt(p) => " --peers=" + p
  }

  function RemoteRank(o: RemoteOption): nat
  {
    match o
    case DirOpt(_) => 0
    case WorkDirOpt(_) => 1
    case ForceOpt => 2
    case ReleaseOpt(_) => 3
    case PeersOpt(_) => 4
  }

  /** The k-th conditional append of runInstallSuperNodeRemoteSubCommand:
      whether it applies, and the option it appends. */
  function RemoteCandidate(k: nat, execDir: string, workDir: string, force: bool, version: string, peers: string): (c: (bool, RemoteOption))
    requires k < 5
    ensures RemoteRank(c.1) == k
  {
    if k == 0 then (|execDir| > 0, DirOpt(execDir))
    else if k == 1 then (|workDir| > 0, WorkDirOpt(workDir))
    else if k == 2 then (force, ForceOpt)
    else if k == 3 then (|version| > 0, ReleaseOpt(version))
    else (|peers| > 0, PeersOpt(peers))
  }

  /** remoteOptions after the first k conditional appends. */
  function RemoteTextUpTo(k: nat, execDir: string, workDir: string, force: bool, version: string, peers: string): string
    requires k <= 5
  {
    if k == 0 then ""
    else
      var c := RemoteCandidate(k - 1, execDir, workDir, force, version, peers);
      StartCommand.AddText(RemoteTextUpTo(k - 1, execDir, workDir, force, version, peers), c.0, RemoteOptionText(c.1))
  }

  /** remoteOptions as the command builds it. */
  function RemoteInstallOptions(execDir: string, workDir: string, force: bool, version: string, peers: string): string
  {
    RemoteTextUpTo(5, execDir, workDir, force, version, peers)
  }

  /** The set options among the first k candidates, in order. */
  function RemoteOptionsUpTo(k: nat, execDir: string, workDir: string, force: bool, version: string, peers: string): seq<RemoteOption>
    requires k <= 5
  {
    if k == 0 then []
    else
      var c := RemoteCandidate(k - 1, execDir, workDir, force, version, peers);
      RemoteOptionsUpTo(k - 1, execDir, workDir, force, version, peers) + (if c.0 then [c.1] else [])
  }

  function RenderOptions(os: seq<RemoteOption>): string
    decreases |os|
  {
    if os == [] then "" else RenderOptions(os[..|os| - 1]) + RemoteOptionText(os[|os| - 1])
  }

  /** The option text is the set options rendered in order. */
  lemma {:induction false} RemoteTextIsRender(k: nat, execDir: string, workDir: string, force: bool, version: string, peers: string)
    requires k <= 5
    ensures RemoteTextUpTo(k, execDir, workDir, force, version, peers)
         == RenderOptions(RemoteOptionsUpTo(k, execDir, workDir, force, version, peers))
  {
    if k > 0 {
      RemoteTextIsRender(k - 1, execDir, workDir, force, version, peers);
      var prev := RemoteOptionsUpTo(k - 1, execDir, workDir, force, version, peers);
      var c := RemoteCandidate(k - 1, execDir, workDir, force, version, peers);
      if c.0 {
        assert (prev + [c.1])[..|prev|] == prev;
      } else {
        assert prev + [] == prev;
      }
    }
  }

  /** The first k candidates' options come in rank order, and an option is
      among them exactly when it is a set candidate of rank below k. */
  lemma {:induction false} RemoteOptionsUpToFacts(k: nat, execDir: string, workDir: string, force: bool, version: string, peers: string)
    requires k <= 5
    ensures var opts := RemoteOptionsUpTo(k, execDir, workDir, force, version, peers);
      && (forall i, j :: 0 <= i < j < |opts| ==> RemoteRank(opts[i]) < RemoteRank(opts[j]))
      && (forall i :: 0 <= i < |opts| ==> RemoteRank(opts[i]) < k)
      && (forall o :: o in opts <==> RemoteRank(o) < k && RemoteCandidate(RemoteRank(o), execDir, workDir, force, version, peers) == (true, o))
  {
    if k > 0 {
      RemoteOptionsUpToFacts(k - 1, execDir, workDir, force, version, peers);
      var prev := RemoteOptionsUpTo(k - 1, execDir, workDir, force, version, peers);
      var opts := RemoteOptionsUpTo(k, execDir, workDir, force, version, peers);
      forall o ensures o in opts <==> RemoteRank(o) < k && RemoteCandidate(RemoteRank(o), execDir, workDir, force, version, peers) == (true, o) {
        if RemoteRank(o) == k - 1 {
          assert o !in prev;
        }
      }
    }
  }

  /** The option string renders the options in the order --dir, --work-dir,
      --force, --release, --peers, each present exactly when it is set and
      carrying the configured value. */
  lemma RemoteOptionListShape(execDir: string, workDir: string, force: bool, version: string, peers: string)
    ensures var opts := RemoteOptionsUpTo(5, execDir, workDir, force, version, peers);
      && RemoteInstallOptions(execDir, workDir, force, version, peers) == RenderOptions(opts)
      && (forall i, j :: 0 <= i < j < |opts| ==> RemoteRank(opts[i]) < RemoteRank(opts[j]))
      && (DirOpt(execDir) in opts <==> |execDir| > 0)
      && (WorkDirOpt(workDir) in opts <==> |workDir| > 0)
      && (ForceOpt in opts <==> force)
      && (ReleaseOpt(version) in opts <==> |version| > 0)
      && (PeersOpt(peers) in opts <==> |peers| > 0)
  {
    RemoteTextIsRender(5, execDir, workDir, force, version, peers);
    RemoteOptionsUpToFacts(5, execDir, workDir, force, version, peers);
  }

  // ---------------------------------------------------------------------
  // pastel.conf (updatePastelConfigFile)

  const ServerLine: string := "server=1\n"
  const ListenLine: string := "listen=1\n\n"
  const TestnetLine: string := "testnet=1\n"
  const AddNodePrefix: string := "addnode="

  function AddNodeLine(node: string): string
  {
    AddNodePrefix + node + "\n"
  }

  /** One addnode line per comma-separated peer, or none when no peers are
      configured. */
  function AddNodeLines(peers: string): seq<string>
  {
    if peers == "" then []
    else
      var nodes := Split(peers, ',');
      seq(|nodes|, i requires 0 <= i < |nodes| => AddNodeLine(nodes[i]))
  }

  /** The lines updatePastelConfigFile writes, in order. The RPC port is
      not among them. */
  function PastelConfLines(rpcUser: string, rpcPwd: string, network: string, peers: string): seq<string>
  {
    [ServerLine, ListenLine, "rpcuser=" + rpcUser + "\n", "rpcpassword=" + rpcPwd + "\n"]
    + StartCommand.When(network == NetworkTestnet, [TestnetLine])
    + AddNodeLines(peers)
  }

  /** The lines in file order. */
  function Concat(lines: seq<string>): string
    decreases |lines|
  {
    if lines == [] then "" else Concat(lines[..|lines| - 1]) + lines[|lines| - 1]
  }

  /** The node named by an addnode line. */
  function NodeOfLine(line: string): string
  {
    if |line| > |AddNodePrefix| then line[|AddNodePrefix|..|line| - 1] else ""
  }

  function PeerNodes(lines: seq<string>): seq<string>
  {
    seq(|lines|, i requires 0 <= i < |lines| => NodeOfLine(lines[i]))
  }

  /** The layout of pastel.conf: the four fixed lines with the given
      credentials, a testnet line exactly on testnet, then the addnode
      lines. */
  lemma PastelConfLayout(rpcUser: string, rpcPwd: string, network: string, peers: string)
    ensures PastelConfLines(rpcUser, rpcPwd, network, peers)[..4] == [ServerLine, ListenLine, "rpcuser=" + rpcUser + "\n", "rpcpassword=" + rpcPwd + "\n"]
    ensures |PastelConfLines(rpcUser, rpcPwd, network, peers)| == 4 + (if network == NetworkTestnet then 1 else 0) + |AddNodeLines(peers)|
    ensures TestnetLine in PastelConfLines(rpcUser, rpcPwd, network, peers) <==> network == NetworkTestnet
    ensures peers == "" ==> AddNodeLines(peers) == []
    ensures peers != "" ==> |AddNodeLines(peers)| == |Split(peers, ',')|
  {
    var lines := PastelConfLines(rpcUser, rpcPwd, network, peers);
    var head := [ServerLine, ListenLine, "rpcuser=" + rpcUser + "\n", "rpcpassword=" + rpcPwd + "\n"];
    var ad := AddNodeLines(peers);
    assert lines[..4] == head;
    forall l | l in ad ensures l != TestnetLine {
      var i :| 0 <= i < |ad| && ad[i] == l;
      assert l[0] == 'a';
    }
    assert "rpcuser=" + rpcUser + "\n" != TestnetLine by { assert ("rpcuser=" + rpcUser + "\n")[0] == 'r'; }
    assert "rpcpassword=" + rpcPwd + "\n" != TestnetLine by { assert ("rpcpassword=" + rpcPwd + "\n")[0] == 'r'; }
    if network != NetworkTestnet {
      assert lines == head + ad;
      assert TestnetLine !in head;
    }
  }

  /** Line by line: the fixed lines, then addnode line n at position
      4 (5 on testnet) + n. */
  lemma PastelConfIndex(rpcUser: string, rpcPwd: string, network: string, peers: string)
    ensures var lines := PastelConfLines(rpcUser, rpcPwd, network, peers);
      var h := 4 + (if network == NetworkTestnet then 1 else 0);
      && |lines| >= h
      && lines[0] == ServerLine && lines[1] == ListenLine
      && lines[2] == "rpcuser=" + rpcUser + "\n" && lines[3] == "rpcpassword=" + rpcPwd + "\n"
      && (network == NetworkTestnet ==> lines[4] == TestnetLine)
      && (peers == "" ==> |lines| == h)
      && (peers != "" ==> (|lines| == h + |Split(peers, ',')|
          && forall n :: 0 <= n < |Split(peers, ',')| ==> lines[h + n] == AddNodeLine(Split(peers, ',')[n])))
  {
    var lines := PastelConfLines(rpcUser, rpcPwd, network, peers);
    var head := [ServerLine, ListenLine, "rpcuser=" + rpcUser + "\n", "rpcpassword=" + rpcPwd + "\n"]
      + StartCommand.When(network == NetworkTestnet, [TestnetLine]);
    assert lines == head + AddNodeLines(peers);
  }

  /** Reading the node names back out of the addnode lines and joining
      them with commas gives the configured peers string. */
  lemma PeersRoundTrip(peers: string)
    ensures Join(PeerNodes(AddNodeLines(peers)), ",") == peers
  {
    if peers != "" {
      var nodes := Split(peers, ',');
      var ad := AddNodeLines(peers);
      forall i | 0 <= i < |nodes| ensures NodeOfLine(ad[i]) == nodes[i] {
        var l := AddNodeLine(nodes[i]);
        assert l[|AddNodePrefix|..|l| - 1] == nodes[i];
      }
      assert PeerNodes(ad) == nodes;
      JoinSplit(peers, ',');
    }
  }

  /** A pastel.conf being written: its text so far and the count of
      WriteString calls made; WriteString fails on call number `failAt`,
      and `syncErr` is the result of Sync. */
  class ConfFile {
    var text: string
    var writes: nat
    const failAt: Option<nat>
    const syncErr: Error

    constructor(failAt: Option<nat>, syncErr: Error)
      ensures text == "" && writes == 0
      ensures this.failAt == failAt && this.syncErr == syncErr
    {
      text := "";
      writes := 0;
      this.failAt := failAt;
      this.syncErr := syncErr;
    }

    /** File.WriteString: appends `s`, or fails without writing. */
    method WriteString(s: string) returns (err: Error)
      modifies this`text, this`writes
      ensures writes == old(writes) + 1
      ensures failAt == Some(old(writes)) ==> err == Failure(ErrWriteFailed) && text == old(text)
      ensures failAt != Some(old(writes)) ==> err == Nil && text == old(text) + s
    {
      if failAt == Some(writes) {
        err := Failure(ErrWriteFailed);
      } else {
        err := Nil;
        text := text + s;
      }
      writes := writes + 1;
    }
  }

  /** How many of n writes starting at write number w0 succeed before the
      failing one. */
  function WrittenLines(failAt: Option<nat>, w0: nat, n: nat): (k: nat)
    ensures k <= n
    ensures forall j :: w0 <= j < w0 + k ==> failAt != Some(j)
    ensures k < n ==> failAt == Some(w0 + k)
  {
    if failAt.Some? && w0 <= failAt.value < w0 + n then failAt.value - w0 else n
  }

  lemma ConcatSnoc(lines: seq<string>, j: nat)
    requires j < |lines|
    ensures Concat(lines[..j + 1]) == Concat(lines[..j]) + lines[j]
  {
    assert lines[..j + 1][..j] == lines[..j];
  }

  /** The writes of `lines` onto a file that held `base` after w0 writes
      have reached line `upto`: on success the first `upto` lines are in
      the file; on failure the write that failed came before `upto`, and
      the lines before it are in the file. */
  ghost predicate Wrote(file: ConfFile, lines: seq<string>, base: string, w0: nat, upto: nat, err: Error)
    reads file
  {
    upto <= |lines| &&
    var k := WrittenLines(file.failAt, w0, |lines|);
    if err == Nil then upto <= k && file.text == base + Concat(lines[..upto]) && file.writes == w0 + upto
    else err == Failure(ErrWriteFailed) && k < upto && file.text == base + Concat(lines[..k])
  }

  /** A failure before line j is a failure before the end. */
  lemma WroteStops(file: ConfFile, lines: seq<string>, base: string, w0: nat, j: nat, err: Error)
    requires Wrote(file, lines, base, w0, j, err) && err != Nil
    ensures Wrote(file, lines, base, w0, |lines|, err)
  {
  }

  /** One WriteString of line j of `lines` on top of the first j lines. */
  method WriteLine(file: ConfFile, s: string, ghost lines: seq<string>, j: nat, ghost base: string, ghost w0: nat) returns (err: Error)
    requires j < |lines| && s == lines[j]
    requires Wrote(file, lines, base, w0, j, Nil)
    modifies file`text, file`writes
    ensures Wrote(file, lines, base, w0, j + 1, err)
  {
    err := file.WriteString(s);
    ConcatSnoc(lines, j);
  }

  /** The WriteString calls of updatePastelConfigFile, one per line in
      order, with a loop over the peers. */
  method WritePastelConf(file: ConfFile, rpcUser: string, rpcPwd: string, network: string, peers: string) returns (err: Error)
    modifies file`text, file`writes
    ensures var lines := PastelConfLines(rpcUser, rpcPwd, network, peers);
      Wrote(file, lines, old(file.text), old(file.writes), |lines|, err)
  {
    ghost var lines := PastelConfLines(rpcUser, rpcPwd, network, peers);
    ghost var base := file.text;
    ghost var w0 := file.writes;
    PastelConfIndex(rpcUser, rpcPwd, network, peers);
    var j;
    err, j := WriteHeader(file, rpcUser, rpcPwd, network, peers, lines, base, w0);
    if err != Nil {
      WroteStops(file, lines, base, w0, j, err);
      return;
    }
    if peers != "" {
      err := WritePeers(file, Split(peers, ','), lines, j, base, w0);
      return;
    }
    err := Nil;
  }

  /** The loop over the peers: one addnode line each, from line j on. */
  method WritePeers(file: ConfFile, peerList: seq<string>, ghost lines: seq<string>, j: nat, ghost base: string, ghost w0: nat)
    returns (err: Error)
    requires j + |peerList| == |lines|
    requires forall n :: 0 <= n < |peerList| ==> lines[j + n] == AddNodeLine(peerList[n])
    requires Wrote(file, lines, base, w0, j, Nil)
    modifies file`text, file`writes
    ensures Wrote(file, lines, base, w0, |lines|, err)
  {
    var n := 0;
    while n < |peerList|
      invariant 0 <= n <= |peerList|
      invariant Wrote(file, lines, base, w0, j + n, Nil)
    {
      err := WriteLine(file, AddNodeLine(peerList[n]), lines, j + n, base, w0);
      if err != Nil {
        WroteStops(file, lines, base, w0, j + n + 1, err);
        return;
      }
      n := n + 1;
    }
    err := Nil;
  }

  /** The fixed lines: server, listen, rpcuser, rpcpassword, and testnet
      on the test network. `j` is the number of lines they make. */
  method WriteHeader(file: ConfFile, rpcUser: string, rpcPwd: string, network: string, peers: string, ghost lines: seq<string>, ghost base: string, ghost w0: nat) returns (err: Error, j: nat)
    requires lines == PastelConfLines(rpcUser, rpcPwd, network, peers)
    requires file.text == base && file.writes == w0
    modifies file`text, file`writes
    ensures j == 4 + (if network == NetworkTestnet then 1 else 0) && j <= |lines|
    ensures peers != "" ==> j + |Split(peers, ',')| == |lines|
    ensures peers == "" ==> j == |lines|
    ensures Wrote(file, lines, base, w0, j, err)
  {
    PastelConfIndex(rpcUser, rpcPwd, network, peers);
    assert file.text == base + Concat(lines[..0]);
    j := 4 + (if network == NetworkTestnet then 1 else 0);
    err := WriteLine(file, ServerLine, lines, 0, base, w0);
    if err != Nil {
      WroteStops(file, lines, base, w0, 1, err);
      return;
    }
    err := WriteLine(file, ListenLine, lines, 1, base, w0);
    if err != Nil {
      WroteStops(file, lines, base, w0, 2, err);
      return;
    }
    err := WriteLine(file, "rpcuser=" + rpcUser + "\n", lines, 2, base, w0);
    if err != Nil {
      WroteStops(file, lines, base, w0, 3, err);
      return;
    }
    err := WriteLine(file, "rpcpassword=" + rpcPwd + "\n", lines, 3, base, w0);
    if err != Nil {
      WroteStops(file, lines, base, w0, 4, err);
      return;
    }
    if network == NetworkTestnet {
      err := WriteLine(file, TestnetLine, lines, 4, base, w0);
      if err != Nil {
        WroteStops(file, lines, base, w0, 5, err);
        return;
      }
    }
  }

  // ---------------------------------------------------------------------
  // The zk-SNARK parameter files (downloadZksnarkParams)

  /** The parameter directory as seen by downloadZksnarkParams: which paths
      exist, the checksum of each existing file, the expected checksums by
      file name (constants.PastelParamsCheckSums) and each download's
      result by path. */
  datatype ParamFS = ParamFS(present: set<string>, checksum: string -> Result<string>,
                             expected: map<string, string>, download: string -> Error)

  /** The expected checksum; a name missing from the table gives the empty
      string, as a Go map does. */
  function ExpectedChecksum(fs: ParamFS, name: string): string
  {
    if name in fs.expected then fs.expected[name] else ""
  }

  /** The checksum the code compares: the empty string for a missing file. */
  function CurrentChecksum(fs: ParamFS, path: string): Result<string>
  {
    if path in fs.present then fs.checksum(path) else Ok("")
  }

  /** What downloadZksnarkParams does with one file. */
  datatype ParamDecision = Keep | Fetch | Stop(msg: string, existed: bool)

  function Decide(sep: char, dir: string, name: string, force: bool, fs: ParamFS): ParamDecision
  {
    var path := PathJoin(sep, dir, name);
    if path in fs.present && !force then Stop(ErrParamExists + path, true)
    else
      var cs := CurrentChecksum(fs, path);
      if cs.Err? then Stop(cs.msg, false)
      else if cs.value != ExpectedChecksum(fs, name) then
        (match fs.download(path)
         case Nil => Fetch
         case Failure(msg) => Stop(msg, false))
      else Keep
  }

  /** An existing file without --force is the "exists" stop; a file is
      downloaded exactly when it passes that check, its checksum can be
      read, differs from the expected one and the download succeeds; it
      is kept exactly when its checksum matches. */
  lemma DecideCases(sep: char, dir: string, name: string, force: bool, fs: ParamFS)
    ensures var d := Decide(sep, dir, name, force, fs);
      var path := PathJoin(sep, dir, name);
      && (d.Stop? && d.existed <==> path in fs.present && !force)
      && (d.Fetch? <==> (!(path in fs.present && !force)
          && CurrentChecksum(fs, path).Ok?
          && CurrentChecksum(fs, path).value != ExpectedChecksum(fs, name)
          && fs.download(path) == Nil))
      && (d.Keep? <==> (!(path in fs.present && !force) && CurrentChecksum(fs, path) == Ok(ExpectedChecksum(fs, name))))
  {
  }

  /** The index of the first file that stops the loop, or |names|. */
  function FirstStop(sep: char, dir: string, names: seq<string>, force: bool, fs: ParamFS): (k: nat)
    ensures k <= |names|
    ensures k < |names| ==> Decide(sep, dir, names[k], force, fs).Stop?
    decreases |names|
  {
    if names == [] then 0
    else if Decide(sep, dir, names[0], force, fs).Stop? then 0
    else
      var k := FirstStop(sep, dir, names[1..], force, fs);
      assert k < |names| - 1 ==> names[1..][k] == names[k + 1];
      1 + k
  }

  /** No file before the first stop stops the loop. */
  lemma {:induction false} NoStopBeforeFirst(sep: char, dir: string, names: seq<string>, force: bool, fs: ParamFS, j: nat)
    requires j < FirstStop(sep, dir, names, force, fs)
    ensures !Decide(sep, dir, names[j], force, fs).Stop?
    decreases j
  {
    if j > 0 {
      NoStopBeforeFirst(sep, dir, names[1..], force, fs, j - 1);
      assert names[1..][j - 1] == names[j];
    }
  }

  /** Fetched grows by one name exactly at a file that is fetched. */
  lemma FetchedStep(sep: char, dir: string, names: seq<string>, force: bool, fs: ParamFS, i: nat)
    requires i < |names|
    ensures Fetched(sep, dir, names[..i + 1], force, fs)
            == Fetched(sep, dir, names[..i], force, fs)
               + (if Decide(sep, dir, names[i], force, fs).Fetch? then [names[i]] else [])
  {
    assert names[..i + 1][..i] == names[..i];
  }

  /** A stop no later than the first stop is the first stop. */
  lemma StopIsFirst(sep: char, dir: string, names: seq<string>, force: bool, fs: ParamFS, i: nat)
    requires i < |names| && i <= FirstStop(sep, dir, names, force, fs)
    requires Decide(sep, dir, names[i], force, fs).Stop?
    ensures i == FirstStop(sep, dir, names, force, fs)
  {
    if i < FirstStop(sep, dir, names, force, fs) {
      NoStopBeforeFirst(sep, dir, names, force, fs, i);
    }
  }

  /** The names downloaded, in order. */
  function Fetched(sep: char, dir: string, names: seq<string>, force: bool, fs: ParamFS): seq<string>
    decreases |names|
  {
    if names == [] then []
    else
      Fetched(sep, dir, names[..|names| - 1], force, fs)
      + (if Decide(sep, dir, names[|names| - 1], force, fs).Fetch? then [names[|names| - 1]] else [])
  }

  /** downloadZksnarkParams: walks the parameter names, stops with an error
      at an existing file when not forced or at a failing checksum or
      download, and downloads each file whose checksum differs from the
      expected one. `existed` tells that the stop was the "exists" error. */
  method DownloadZksnarkParams(sep: char, dir: string, names: seq<string>, force: bool, fs: ParamFS)
    returns (err: Error, existed: bool, fetched: seq<string>)
    ensures var k := FirstStop(sep, dir, names, force, fs);
      fetched == Fetched(sep, dir, names[..k], force, fs)
      && (k == |names| ==> err == Nil && !existed)
      && (k < |names| ==> var d := Decide(sep, dir, names[k], force, fs);
                          err == Failure(d.msg) && existed == d.existed)
  {
    ghost var k := FirstStop(sep, dir, names, force, fs);
    fetched := [];
    var i := 0;
    while i < |names|
      invariant 0 <= i <= k
      invariant fetched == Fetched(sep, dir, names[..i], force, fs)
    {
      var e, ex, fetch := ParamStep(sep, dir, names[i], force, fs);
      if e != Nil {
        StopIsFirst(sep, dir, names, force, fs, i);
        return e, ex, fetched;
      }
      FetchedStep(sep, dir, names, force, fs, i);
      if fetch {
        fetched := fetched + [names[i]];
      }
      i := i + 1;
    }
    err, existed := Nil, false;
  }

  /** One pass of downloadZksnarkParams's loop: the exists check, the
      checksum of an existing file and the download when it differs. */
  method ParamStep(sep: char, dir: string, name: string, force: bool, fs: ParamFS)
    returns (err: Error, existed: bool, fetch: bool)
    ensures var d := Decide(sep, dir, name, force, fs);
      (err != Nil <==> d.Stop?)
      && (d.Stop? ==> err == Failure(d.msg) && existed == d.existed)
      && (fetch <==> d.Fetch?)
  {
    var path := PathJoin(sep, dir, name);
    if path in fs.present && !force {
      return Failure(ErrParamExists + path), true, false;
    }
    var checkSum := "";
    if path in fs.present {
      var cs := fs.checksum(path);
      if cs.Err? {
        return Failure(cs.msg), false, false;
      }
      checkSum := cs.value;
    }
    err, existed, fetch := Nil, false, false;
    if checkSum != ExpectedChecksum(fs, name) {
      err := fs.download(path);
      fetch := err == Nil;
    }
  }

  lemma {:induction false} FetchedMembers(sep: char, dir: string, names: seq<string>, force: bool, fs: ParamFS)
    ensures forall n :: n in Fetched(sep, dir, names, force, fs) <==> n in names && Decide(sep, dir, n, force, fs).Fetch?
    decreases |names|
  {
    if names != [] {
      var init := names[..|names| - 1];
      FetchedMembers(sep, dir, init, force, fs);
      assert names == init + [names[|names| - 1]];
    }
  }

  /** When the loop finishes, a file was downloaded exactly when its
      current checksum (empty for a missing file) differs from the expected
      one. */
  lemma DownloadIffChecksumDiffers(sep: char, dir: string, names: seq<string>, force: bool, fs: ParamFS)
    requires FirstStop(sep, dir, names, force, fs) == |names|
    ensures forall n :: n in Fetched(sep, dir, names, force, fs) <==>
      n in names && CurrentChecksum(fs, PathJoin(sep, dir, n)) != Ok(ExpectedChecksum(fs, n))
  {
    FetchedMembers(sep, dir, names, force, fs);
    forall n | n in names
      ensures Decide(sep, dir, n, force, fs).Fetch? <==> CurrentChecksum(fs, PathJoin(sep, dir, n)) != Ok(ExpectedChecksum(fs, n))
    {
      var i :| 0 <= i < |names| && names[i] == n;
      NoStopBeforeFirst(sep, dir, names, force, fs, i);
      DecideCases(sep, dir, n, force, fs);
    }
    assert names[..|names|] == names;
  }

  /** Without --force, any existing parameter file stops the loop, at that
      file or earlier; the "exists" stop happens only without --force. */
  lemma ExistingParamStops(sep: char, dir: string, names: seq<string>, force: bool, fs: ParamFS, i: nat)
    requires i < |names| && !force && PathJoin(sep, dir, names[i]) in fs.present
    ensures FirstStop(sep, dir, names, force, fs) <= i
  {
    DecideCases(sep, dir, names[i], force, fs);
    if FirstStop(sep, dir, names, force, fs) > i {
      NoStopBeforeFirst(sep, dir, names, force, fs, i);
    }
  }

  lemma ExistsOnlyWithoutForce(sep: char, dir: string, names: seq<string>, force: bool, fs: ParamFS)
    requires FirstStop(sep, dir, names, force, fs) < |names|
    requires Decide(sep, dir, names[FirstStop(sep, dir, names, force, fs)], force, fs).existed
    ensures !force
  {
    DecideCases(sep, dir, names[FirstStop(sep, dir, names, force, fs)], force, fs);
  }

  /** setupBasePasteWorkingEnvironment's test on downloadZksnarkParams's
      error as written: `!(os.IsExist(err) && !force)`. os.IsExist holds
      for none of the errors that function makes (the "exists" error is a
      plain formatted error), so every error aborts. */
  function ZkAbortsAsWritten(err: Error, existed: bool, force: bool): (abort: bool)
    ensures abort <==> err != Nil
  {
    var isExist := false;
    err != Nil && !(isExist && !force)
  }

  /** The test as intended: the "exists" error is tolerated without
      --force. */
  function ZkAborts(err: Error, existed: bool, force: bool): bool
  {
    err != Nil && !(existed && !force)
  }

  /** A parameter file that is already there, without --force: the loop
      stops with the "exists" error; as written, setup then aborts, while
      the intended test lets it go on. */
  lemma ExistingParamAbortsSetupAsWritten()
    ensures var fs := ParamFS({"p/a"}, (p: string) => Ok(""), map[], (p: string) => Nil);
      var d := Decide('/', "p", "a", false, fs);
      FirstStop('/', "p", ["a"], false, fs) == 0 && d.existed
      && ZkAbortsAsWritten(Failure(d.msg), d.existed, false)
      && !ZkAborts(Failure(d.msg), d.existed, false)
  {
    assert PathJoin('/', "p", "a") == "p/a";
  }

  /** The intended test aborts on every error except the tolerated one. */
  lemma ZkAbortsOnlyOnRealErrors(err: Error, existed: bool, force: bool)
    ensures ZkAborts(err, existed, force) ==> ZkAbortsAsWritten(err, existed, force)
    ensures err != Nil && !existed ==> ZkAborts(err, existed, force)
    ensures force ==> (ZkAborts(err, existed, force) <==> ZkAbortsAsWritten(err, existed, force))
  {
  }

  // ---------------------------------------------------------------------
  // The install configuration

  /** A string of n characters drawn from `draw` starting at `from`
      (utils.GenerateRandomString with its randomness as a parameter). */
  function RandomString(draw: nat -> char, from: nat, n: nat): (r: string)
    ensures |r| == n
    ensures forall i :: 0 <= i < n ==> r[i] == draw(from + i)
  {
    seq(n, i requires 0 <= i < n => draw(from + i))
  }

  /** The RPC port: 19932 on testnet, 9932 otherwise. */
  function RPCPortFor(network: string): (port: string)
    ensures network == NetworkTestnet ==> port == "19932"
    ensures network != NetworkTestnet ==> port == "9932"
    ensures Atoi(port).Some? && Atoi(port).value == (if network == NetworkTestnet then 19932 else 9932)
  {
    PortDigits();
    if network == NetworkTestnet then "19932" else "9932"
  }

  /** The two port literals are the decimal texts of 19932 and 9932. */
  lemma PortDigits()
    ensures Atoi("19932") == Some(19932)
    ensures Atoi("9932") == Some(9932)
  {
    var t, m := "19932", "9932";
    assert DigitsValue(t[..1]) == 1;
    assert DigitsValue(t[..2]) == 19 by { assert t[..2][..1] == t[..1]; }
    assert DigitsValue(t[..3]) == 199 by { assert t[..3][..2] == t[..2]; }
    assert DigitsValue(t[..4]) == 1993 by { assert t[..4][..3] == t[..3]; }
    assert DigitsValue(t) == 19932 by { assert t[..4] == t[..|t| - 1]; }
    assert DigitsValue(m[..1]) == 9;
    assert DigitsValue(m[..2]) == 99 by { assert m[..2][..1] == m[..1]; }
    assert DigitsValue(m[..3]) == 993 by { assert m[..3][..2] == m[..2]; }
    assert DigitsValue(m) == 9932 by { assert m[..3] == m[..|m| - 1]; }
  }

  /** The results of the file system calls setupBasePasteWorkingEnvironment
      makes, other than the pastel.conf writes and the parameter loop. */
  datatype BaseSetupIO = BaseSetupIO(createWorkDir: Error, draw: nat -> char, createConf: Error,
                                     openConf: Error, createZkDir: Error)

  /** The parts of configs.Config the install command reads and updates. */
  class InstallConfig {
    var force: bool
    var rpcPort: string
    var rpcUser: string
    var rpcPwd: string
    const network: string
    const peers: string
    const version: string
    const workingDir: string
    const pastelExecDir: string
    const remotePastelExecDir: string
    const remoteWorkingDir: string
    const remotePastelUtilityDir: string

    constructor(force: bool, network: string, peers: string, version: string, workingDir: string, pastelExecDir: string,
                remotePastelExecDir: string, remoteWorkingDir: string, remotePastelUtilityDir: string)
      ensures this.force == force && rpcPort == "" && rpcUser == "" && rpcPwd == ""
      ensures this.network == network && this.peers == peers && this.version == version
      ensures this.workingDir == workingDir && this.pastelExecDir == pastelExecDir
      ensures this.remotePastelExecDir == remotePastelExecDir && this.remoteWorkingDir == remoteWorkingDir
      ensures this.remotePastelUtilityDir == remotePastelUtilityDir
    {
      this.force := force;
      rpcPort, rpcUser, rpcPwd := "", "", "";
      this.network, this.peers, this.version := network, peers, version;
      this.workingDir, this.pastelExecDir := workingDir, pastelExecDir;
      this.remotePastelExecDir, this.remoteWorkingDir := remotePastelExecDir, remoteWorkingDir;
      this.remotePastelUtilityDir := remotePastelUtilityDir;
    }

    /** createInstallDir. `createFolder` is utils.CreateFolder's result for
        a given force flag. An "exists" result asks the user: a confirming
        answer turns force on and creates the folder again; any other
        answer returns the original error. Other CreateFolder errors are
        not looked at and the function succeeds. */
    method CreateInstallDir(createFolder: bool -> FolderResult, line: Result<string>) returns (err: Error)
      modifies this`force
      ensures !createFolder(old(force)).Exists? ==> err == Nil && force == old(force)
      ensures createFolder(old(force)).Exists? && line.Err? ==> err == Failure(line.msg) && force == old(force)
      ensures createFolder(old(force)).Exists? && line.Ok? && ConfirmAnswer(line.value) ==>
        force && err == FolderError(createFolder(true))
      ensures createFolder(old(force)).Exists? && line.Ok? && !ConfirmAnswer(line.value) ==>
        err == Failure(createFolder(old(force)).msg) && force == old(force)
    {
      var first := createFolder(force);
      err := Nil;
      if first.Exists? {
        match line {
          case Err(msg) =>
            err := Failure(msg);
          case Ok(answer) =>
            if ConfirmAnswer(answer) {
              force := true;
              err := FolderError(createFolder(force));
            } else {
              err := Failure(first.msg);
            }
        }
      }
    }

    /** updatePastelConfigFile: opens the file, writes the pastel.conf
        lines (WritePastelConf) and syncs. A failed write stops with the
        lines so far in the file. */
    method UpdatePastelConfigFile(file: ConfFile, openErr: Error) returns (err: Error)
      modifies file`text, file`writes
      ensures openErr != Nil ==> err == openErr && file.text == old(file.text) && file.writes == old(file.writes)
      ensures openErr == Nil ==>
        var lines := PastelConfLines(rpcUser, rpcPwd, network, peers);
        var k := WrittenLines(file.failAt, old(file.writes), |lines|);
        file.text == old(file.text) + Concat(lines[..k])
        && (k < |lines| ==> err == Failure(ErrWriteFailed))
        && (k == |lines| && file.syncErr != Nil ==> err == Failure(ErrSaveFile + file.syncErr.msg))
        && (err == Nil <==> k == |lines| && file.syncErr == Nil)
    {
      if openErr != Nil {
        return openErr;
      }
      ghost var lines := PastelConfLines(rpcUser, rpcPwd, network, peers);
      err := WritePastelConf(file, rpcUser, rpcPwd, network, peers);
      if err != Nil {
        return;
      }
      assert lines[..|lines|] == lines;
      if file.syncErr != Nil {
        return Failure(ErrSaveFile + file.syncErr.msg);
      }
    }

    /** setupBasePasteWorkingEnvironment: creates the working directory (a
        failure is ignored when it is the executable directory), picks the
        RPC port, draws an 8-character user and a 15-character password,
        writes pastel.conf with them, creates the parameter directory and
        fetches the parameter files; an "exists" stop of that loop without
        --force is tolerated (the corrected test, ZkAborts). */
    method SetupBasePasteWorkingEnvironment(io: BaseSetupIO, file: ConfFile, sep: char, zkDir: string,
                                            names: seq<string>, fs: ParamFS) returns (err: Error)
      modifies this`rpcPort, this`rpcUser, this`rpcPwd, file`text, file`writes
      ensures io.createWorkDir != Nil && workingDir != pastelExecDir ==>
        err == io.createWorkDir && rpcPort == old(rpcPort) && rpcUser == old(rpcUser) && rpcPwd == old(rpcPwd)
        && file.text == old(file.text)
      ensures io.createWorkDir == Nil || workingDir == pastelExecDir ==>
        rpcPort == RPCPortFor(network)
        && rpcUser == RandomString(io.draw, 0, 8) && rpcPwd == RandomString(io.draw, 8, 15)
      ensures err == Nil ==>
        (io.createWorkDir == Nil || workingDir == pastelExecDir)
        && io.createConf == Nil && io.createZkDir == Nil
        && file.text == old(file.text) + Concat(PastelConfLines(rpcUser, rpcPwd, network, peers))
      ensures err == Nil ==>
        var k := FirstStop(sep, zkDir, names, force, fs);
        k == |names| || (Decide(sep, zkDir, names[k], force, fs).existed && !force)
      ensures ((io.createWorkDir == Nil || workingDir == pastelExecDir) && io.createConf == Nil
               && io.openConf == Nil && file.failAt == None && file.syncErr == Nil && io.createZkDir == Nil
               && FirstStop(sep, zkDir, names, force, fs) == |names|) ==> err == Nil
    {
      if io.createWorkDir != Nil && workingDir != pastelExecDir {
        return io.createWorkDir;
      }
      rpcPort := RPCPortFor(network);
      rpcUser := RandomString(io.draw, 0, 8);
      rpcPwd := RandomString(io.draw, 8, 15);
      if io.createConf != Nil {
        return io.createConf;
      }
      ghost var n := |PastelConfLines(rpcUser, rpcPwd, network, peers)|;
      ghost var w0 := file.writes;
      err := UpdatePastelConfigFile(file, io.openConf);
      if err != Nil {
        return;
      }
      assert WrittenLines(file.failAt, w0, n) == n;
      assert PastelConfLines(rpcUser, rpcPwd, network, peers)[..n] == PastelConfLines(rpcUser, rpcPwd, network, peers);
      if io.createZkDir != Nil {
        return io.createZkDir;
      }
      var zerr, existed, _ := DownloadZksnarkParams(sep, zkDir, names, force, fs);
      if ZkAborts(zerr, existed, force) {
        return zerr;
      }
      err := Nil;
    }

    /** The path of pastel-utility on the remote host, with forward slashes. */
    function UtilityPath(sep: char): (path: string)
      reads this
      ensures '\\' !in path
      ensures |path| == |PathJoin(sep, remotePastelUtilityDir, "pastel-utility")|
    {
      ReplaceChar(PathJoin(sep, remotePastelUtilityDir, "pastel-utility"), '\\', '/')
    }

    /** The remote command lines runInstallSuperNodeRemoteSubCommand sends,
        in order; the last is the shell input that runs the install. */
    function RemoteInstallSteps(sep: char, downloadURL: string): seq<string>
      reads this
    {
      var path := UtilityPath(sep);
      ["rm -r -f " + path, "wget -O " + path + " " + downloadURL, "chmod 777 /" + path, path + " stop supernode ",
       "/" + path + " install supernode" + RemoteInstallOptions(remotePastelExecDir, remoteWorkingDir, force, version, peers)]
    }

    /** runInstallSuperNodeRemoteSubCommand: checks the SSH address and the
        remote utility directory, connects, then sends the remove, download,
        chmod and stop commands and starts the install in a shell, stopping
        at the first failure. `remote` is each command's result; `sent` is
        what was sent. */
    method RunInstallSuperNodeRemote(sshIP: string, sep: char, downloadURL: string, dial: Error, remote: string -> Error)
      returns (err: Error, sent: seq<string>)
      ensures sshIP == "" ==> err == Failure(ErrNoSSHIP) && sent == []
      ensures sshIP != "" && remotePastelUtilityDir == "" ==> err == Failure(ErrNoSSHDir) && sent == []
      ensures sshIP != "" && remotePastelUtilityDir != "" && dial != Nil ==> err == dial && sent == []
      ensures sshIP != "" && remotePastelUtilityDir != "" && dial == Nil ==>
        sent <= RemoteInstallSteps(sep, downloadURL) && |sent| > 0
        && (forall i :: 0 <= i < |sent| - 1 ==> remote(sent[i]) == Nil)
        && err == remote(sent[|sent| - 1])
        && (err == Nil ==> sent == RemoteInstallSteps(sep, downloadURL))
    {
      sent := [];
      if |sshIP| == 0 {
        return Failure(ErrNoSSHIP), sent;
      }
      if |remotePastelUtilityDir| == 0 {
        return Failure(ErrNoSSHDir), sent;
      }
      if dial != Nil {
        return dial, sent;
      }
      var steps := RemoteInstallSteps(sep, downloadURL);
      // rm -r -f, wget, chmod, stop supernode, then the install shell
      sent := [steps[0]];
      err := remote(steps[0]);
      if err != Nil {
        return;
      }
      sent := sent + [steps[1]];
      err := remote(steps[1]);
      if err != Nil {
        return;
      }
      sent := sent + [steps[2]];
      err := remote(steps[2]);
      if err != Nil {
        return;
      }
      sent := sent + [steps[3]];
      err := remote(steps[3]);
      if err != Nil {
        return;
      }
      sent := sent + [steps[4]];
      err := remote(steps[4]);
      assert sent == steps;
    }
  }
}
