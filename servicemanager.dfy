// The service manager of pastelup: a systemd-backed manager for Linux and
// a manager that does nothing for every other OS. The host (unit files on
// disk, the units systemd runs and enables, which systemctl verbs it
// rejects) is explicit state; every systemctl invocation is recorded.
module ServiceManager {
  import opened Util
  import opened Constants

  /** The systemctl verbs pastelup issues. */
  datatype Verb = Start | Stop | Enable | Disable | Status

  function VerbName(v: Verb): string
  {
    match v
    case Start => "start"
    case Stop => "stop"
    case Enable => "enable"
    case Disable => "disable"
    case Status => "status"
  }

  /** One `systemctl <verb> <unit>` invocation. */
  datatype SystemctlCall = SystemctlCall(verb: Verb, unit: string)

  /** What sits at a path: a rendered systemd unit, or any other file. */
  datatype File = UnitFile(desc: string, execCmd: string, workDir: string) | Plain

  /** The two implementations of the ServiceManager interface. */
  datatype ManagerKind = LinuxSystemd(homeDir: string) | NoopManager

  /** New: the systemd manager on Linux, otherwise the no-op manager
      together with an error. */
  function New(os: OSType, homeDir: string): (r: (ManagerKind, Error))
    ensures os == Linux <==> r.1 == Nil
    ensures os == Linux ==> r.0 == LinuxSystemd(homeDir)
    ensures os != Linux ==> r.0 == NoopManager && r.1.Failure?
  {
    if os == Linux then (LinuxSystemd(homeDir), Nil)
    else (NoopManager, Failure("services are not comptabile with your OS (" + OSName(os) + ")"))
  }

  // ---------------------------------------------------------------------
  // NoopManager: every call returns its zero value.

  function NoopRegisterService(app: ToolType): Error { Nil }
  function NoopStartService(app: ToolType): (bool, Error) { (false, Nil) }
  function NoopStopService(app: ToolType): Error { Nil }
  function NoopIsRunning(app: ToolType): bool { false }
  function NoopEnableService(app: ToolType): Error { Nil }
  function NoopDisableService(app: ToolType): Error { Nil }
  function NoopIsRegistered(app: ToolType): (bool, Error) { (false, Nil) }
  function NoopServiceName(app: ToolType): string { "" }

  /** The no-op manager never reports a service as registered, running or
      started, never fails, and names no unit. */
  lemma NoopManagerZeroResults(app: ToolType)
    ensures NoopRegisterService(app) == Nil && NoopStopService(app) == Nil
    ensures NoopEnableService(app) == Nil && NoopDisableService(app) == Nil
    ensures NoopStartService(app) == (false, Nil)
    ensures !NoopIsRunning(app) && NoopIsRegistered(app) == (false, Nil)
    ensures NoopServiceName(app) == ""
  {
  }

  // ---------------------------------------------------------------------
  // Unit names

  /** ServiceName: SystemdServicePrefix, the tool, ".service". */
  function ServiceName(prefix: string, app: ToolType): (name: string)
    ensures EndsWith(name, ".service") && prefix <= name
    ensures |name| == |prefix| + |app| + 8
    ensures name[|prefix|..|prefix| + |app|] == app
  {
    var name := prefix + app + ".service";
    assert name[|name| - 8..] == ".service";
    assert name[..|prefix|] == prefix;
    assert name[|prefix|..|prefix| + |app|] == app;
    name
  }

  /** Distinct tools get distinct unit names. */
  lemma {:induction false} ServiceNameInjective(prefix: string, a: ToolType, b: ToolType)
    requires ServiceName(prefix, a) == ServiceName(prefix, b)
    ensures a == b
  {
    assert |a| == |b|;
  }

  /** What `systemctl status` prints on its Active line. */
  function StatusOutput(isActive: bool): string
  {
    if isActive then "Active: active (running)" else "Active: inactive (dead)"
  }

  /** IsRunning's test: the status output contains "(running)". */
  predicate ReportsRunning(output: string)
  {
    Contains(output, "(running)")
  }

  /** The status text of a unit shows "(running)" exactly when it runs. */
  lemma {:induction false} StatusReportsRunning(isActive: bool)
    ensures ReportsRunning(StatusOutput(isActive)) <==> isActive
  {
    var out := StatusOutput(isActive);
    if isActive {
      ContainsIff(out, "(running)");
      assert out[15..] == "(running)";
    } else {
      assert "(running)"[7] == 'g';
      MissingCharNotContained(out, "(running)", 7);
    }
  }

  lemma MissingCharNotContained(s: string, sub: string, k: nat)
    requires k < |sub| && sub[k] !in s
    ensures !Contains(s, sub)
  {
    ContainsIff(s, sub);
    forall i | 0 <= i <= |s| ensures !(sub <= s[i..]) {
      if i + k < |s| {
        assert s[i..][k] == s[i + k] && s[i + k] in s;
      }
    }
  }

  /** runSudoCMD: with a user password the arguments are piped through
      `sudo -S` inside bash, otherwise sudo is invoked directly. */
  function SudoArgv(userPw: string, args: seq<string>): (argv: seq<string>)
    ensures |userPw| > 0 ==> argv == ["bash", "-c", "echo " + userPw + " | sudo -S " + Join(args, " ")]
    ensures |argv| >= 1
    ensures |userPw| == 0 ==> argv[0] == "sudo" && argv[1..] == args
  {
    if |userPw| > 0 then ["bash", "-c", "echo " + userPw + " | sudo -S " + Join(args, " ")]
    else ["sudo"] + args
  }

  // ---------------------------------------------------------------------
  // Unit contents

  /** The inputs RegisterService reads from its parameters and from the
      configuration helpers (conf-file locations, executable names, the
      external-IP lookup and whether the unit template renders). */
  datatype RegistrationParams = RegistrationParams(
    force: bool,
    flagDevMode: bool,
    os: OSType,
    workingDir: string,
    pastelExecDir: string,
    rqConfFile: string,
    snConfFile: string,
    wnConfFile: string,
    rqExecName: string,
    snExecName: string,
    wnExecName: string,
    ddExecName: string,
    ddConfigFile: string,
    ddImgWorkDir: string,
    externalIP: Result<string>,
    renderFails: bool)

  /** What RegisterService does for a tool before writing anything: skip an
      unknown tool, stop with an error, or write a unit with this command
      and working directory. */
  datatype UnitPlan = Unsupported | Abort(err: Error) | Unit(execCmd: string, workDir: string)

  /** The executable a tool's unit launches, if the tool has one. */
  function ExecPath(app: ToolType, p: RegistrationParams): string
  {
    if app == PastelD then PathJoin('/', p.pastelExecDir, PasteldName(p.os))
    else if app == RQService then PathJoin('/', p.pastelExecDir, p.rqExecName)
    else if app == DDService then PathJoin('/', p.pastelExecDir, p.ddExecName)
    else if app == SuperNode then PathJoin('/', p.pastelExecDir, p.snExecName)
    else if app == WalletNode then PathJoin('/', p.pastelExecDir, p.wnExecName)
    else ""
  }

  /** The tools whose unit launches an executable that must exist. */
  predicate NeedsExecutable(app: ToolType)
  {
    app in {PastelD, RQService, DDService, SuperNode, WalletNode}
  }

  /** The command each tool's unit runs, once its executable exists. */
  function ExecCommand(app: ToolType, p: RegistrationParams, extIP: string): string
  {
    var path := ExecPath(app, p);
    if app == PastelD then path + " --datadir=" + p.workingDir + " --externalip=" + extIP
    else if app == RQService then path + " --config-file=" + p.rqConfFile
    else if app == DDService then "python3 " + path + " " + p.ddConfigFile
    else if app == SuperNode then path + " --config-file=" + p.snConfFile
    else if app == WalletNode then
      path + " --config-file=" + p.wnConfFile + (if p.flagDevMode then " --swagger" else "")
    else "python3 -m  http.server 8000"
  }

  /** The per-tool switch of RegisterService, exactly as written: a
      missing executable ends registration with the still-nil error. */
  function PlanUnitAsWritten(app: ToolType, p: RegistrationParams, files: map<string, File>): (r: UnitPlan)
    ensures NeedsExecutable(app) && ExecPath(app, p) !in files ==> r == Abort(Nil)
  {
    if app == DDImgService then Unit(ExecCommand(app, p, ""), p.ddImgWorkDir)
    else if !NeedsExecutable(app) then Unsupported
    else if ExecPath(app, p) !in files then Abort(Nil)
    else if app == PastelD && p.externalIP.Err? then Abort(Failure(p.externalIP.msg))
    else Unit(ExecCommand(app, p, if app == PastelD then p.externalIP.value else ""), p.pastelExecDir)
  }

  /** The per-tool switch with the evident intent: a missing executable is
      reported as an error, as the log line beside it says. */
  function PlanUnit(app: ToolType, p: RegistrationParams, files: map<string, File>): (r: UnitPlan)
    ensures !NeedsExecutable(app) && app != DDImgService <==> r == Unsupported
    ensures NeedsExecutable(app) && ExecPath(app, p) !in files ==> r.Abort? && r.err.Failure?
    ensures app == PastelD && ExecPath(app, p) in files && p.externalIP.Err? ==> r == Abort(Failure(p.externalIP.msg))
    ensures r.Unit? && app == PastelD ==>
      r.execCmd == ExecPath(app, p) + " --datadir=" + p.workingDir + " --externalip=" + p.externalIP.value
      && r.workDir == p.pastelExecDir
    ensures r.Unit? && app == WalletNode ==>
      (p.flagDevMode ==> r.execCmd == ExecPath(app, p) + " --config-file=" + p.wnConfFile + " --swagger")
      && (!p.flagDevMode ==> r.execCmd == ExecPath(app, p) + " --config-file=" + p.wnConfFile)
    ensures r.Unit? && NeedsExecutable(app) ==> ExecPath(app, p) in files
    ensures r != PlanUnitAsWritten(app, p, files) <==> NeedsExecutable(app) && ExecPath(app, p) !in files
  {
    if NeedsExecutable(app) && ExecPath(app, p) !in files then
      Abort(Failure("Could not find " + app + " executable file"))
    else PlanUnitAsWritten(app, p, files)
  }

  /** For every tool that needs an executable, the code as written reports
      success when that executable is missing, while nothing is written. */
  lemma MissingExecutableReportsSuccess(app: ToolType, p: RegistrationParams, files: map<string, File>)
    requires NeedsExecutable(app) && ExecPath(app, p) !in files
    ensures PlanUnitAsWritten(app, p, files) == Abort(Nil)
    ensures PlanUnit(app, p, files).Abort? && PlanUnit(app, p, files).err.Failure?
  {
  }

  // ---------------------------------------------------------------------
  // LinuxSystemdManager

  class SystemdManager {
    const homeDir: string
    /** SystemdServicePrefix, SystemdUserDir (under the home directory)
        and SystemdSystemDir. */
    const servicePrefix: string
    const userDir: string
    const systemDir: string
    /** Paths whose stat fails for a reason other than absence. */
    const statErrors: set<string>
    /** Paths WriteFile cannot write. */
    const unwritable: set<string>
    /** Verbs systemctl rejects on this host. */
    const refused: set<Verb>

    /** The file system. */
    var files: map<string, File>
    /** Units systemd reports as running, and units enabled at boot. */
    var running: set<string>
    var enabled: set<string>
    /** systemctl invocations issued, oldest first. */
    var calls: seq<SystemctlCall>

    constructor (homeDir: string, servicePrefix: string, userDir: string, systemDir: string,
                 statErrors: set<string>, unwritable: set<string>, refused: set<Verb>,
                 files: map<string, File>, running: set<string>, enabled: set<string>)
      ensures this.homeDir == homeDir && this.servicePrefix == servicePrefix
      ensures this.userDir == userDir && this.systemDir == systemDir
      ensures this.statErrors == statErrors && this.unwritable == unwritable && this.refused == refused
      ensures this.files == files && this.running == running && this.enabled == enabled
      ensures calls == []
    {
      this.homeDir := homeDir;
      this.servicePrefix := servicePrefix;
      this.userDir := userDir;
      this.systemDir := systemDir;
      this.statErrors := statErrors;
      this.unwritable := unwritable;
      this.refused := refused;
      this.files := files;
      this.running := running;
      this.enabled := enabled;
      calls := [];
    }

    function Name(app: ToolType): string
    {
      ServiceName(servicePrefix, app)
    }

    /** Where IsRegistered looks for the unit. */
    function UserUnitPath(app: ToolType): string
    {
      PathJoin('/', PathJoin('/', homeDir, userDir), Name(app))
    }

    /** Where RegisterService writes the unit. */
    function SystemUnitPath(app: ToolType): string
    {
      PathJoin('/', systemDir, Name(app))
    }

    /** IsRegistered: the user unit file exists; a stat failure other than
        absence is reported as an error and counts as not registered. */
    function IsRegistered(app: ToolType): (r: (bool, Error))
      reads this
      ensures r.0 <==> UserUnitPath(app) in files && UserUnitPath(app) !in statErrors
      ensures r.1.Failure? <==> UserUnitPath(app) in statErrors
    {
      var path := UserUnitPath(app);
      if path in statErrors then (false, Failure("stat " + path))
      else if path in files then (true, Nil)
      else (false, Nil)
    }

    /** StartService would report the tool started: it is registered and
        either already running or systemd accepts `start`. */
    predicate StartSucceeds(app: ToolType)
      reads this
    {
      IsRegistered(app).0 && (Name(app) in running || Start !in refused)
    }

    /** StartService would return an error: `start` is issued and rejected. */
    predicate StartFails(app: ToolType)
      reads this
    {
      IsRegistered(app).0 && Name(app) !in running && Start in refused
    }

    /** runSystemdCmd: issue `systemctl <verb> <unit>`. A verb the host
        accepts takes effect on the running and enabled sets. */
    method Systemctl(verb: Verb, unit: string) returns (output: string, err: Error)
      modifies this`calls, this`running, this`enabled
      ensures calls == old(calls) + [SystemctlCall(verb, unit)]
      ensures err.Failure? <==> verb in refused
      ensures verb == Status ==> output == StatusOutput(unit in running)
      ensures running == (if verb == Start && verb !in refused then old(running) + {unit}
                          else if verb == Stop && verb !in refused then old(running) - {unit}
                          else old(running))
      ensures enabled == (if verb == Enable && verb !in refused then old(enabled) + {unit}
                          else if verb == Disable && verb !in refused then old(enabled) - {unit}
                          else old(enabled))
    {
      calls := calls + [SystemctlCall(verb, unit)];
      output := if verb == Status then StatusOutput(unit in running) else "";
      if verb in refused {
        err := Failure("systemctl " + VerbName(verb) + " " + unit);
        return;
      }
      err := Nil;
      match verb
      case Start => running := running + {unit};
      case Stop => running := running - {unit};
      case Enable => enabled := enabled + {unit};
      case Disable => enabled := enabled - {unit};
      case Status =>
    }

    /** IsRunning: query the status and look for "(running)"; a failed
        query is not an error. */
    method IsRunning(app: ToolType) returns (isRunning: bool)
      modifies this`calls, this`running, this`enabled
      ensures calls == old(calls) + [SystemctlCall(Status, Name(app))]
      ensures running == old(running) && enabled == old(enabled)
      ensures isRunning <==> Name(app) in running
    {
      var out, _ := Systemctl(Status, Name(app));
      isRunning := ReportsRunning(out);
      StatusReportsRunning(Name(app) in running);
    }

    /** EnableService. */
    method EnableService(app: ToolType) returns (err: Error)
      modifies this`calls, this`running, this`enabled
      ensures calls == old(calls) + [SystemctlCall(Enable, Name(app))]
      ensures running == old(running)
      ensures err.Failure? <==> Enable in refused
      ensures enabled == if err == Nil then old(enabled) + {Name(app)} else old(enabled)
    {
      var _, e := Systemctl(Enable, Name(app));
      err := if e.Failure? then Failure("err enabling " + Name(app) + " - err: " + e.msg) else Nil;
    }

    /** DisableService. */
    method DisableService(app: ToolType) returns (err: Error)
      modifies this`calls, this`running, this`enabled
      ensures calls == old(calls) + [SystemctlCall(Disable, Name(app))]
      ensures running == old(running)
      ensures err.Failure? <==> Disable in refused
      ensures enabled == if err == Nil then old(enabled) - {Name(app)} else old(enabled)
    {
      var _, e := Systemctl(Disable, Name(app));
      err := if e.Failure? then Failure("err enabling " + Name(app) + " - err: " + e.msg) else Nil;
    }

    /** StartService: an unregistered tool is skipped without any systemctl
        call; a running one is left alone; otherwise `start` is issued once. */
    method StartService(app: ToolType) returns (started: bool, err: Error)
      modifies this`calls, this`running, this`enabled
      ensures enabled == old(enabled)
      ensures !old(IsRegistered(app)).0 ==>
        !started && err == Nil && calls == old(calls) && running == old(running)
      ensures old(IsRegistered(app)).0 && Name(app) in old(running) ==>
        started && err == Nil && running == old(running)
        && calls == old(calls) + [SystemctlCall(Status, Name(app))]
      ensures old(IsRegistered(app)).0 && Name(app) !in old(running) ==>
        calls == old(calls) + [SystemctlCall(Status, Name(app)), SystemctlCall(Start, Name(app))]
        && (started <==> Start !in refused) && (err == Nil <==> started)
        && running == (if started then old(running) + {Name(app)} else old(running))
      ensures started ==> Name(app) in running
      ensures started == old(StartSucceeds(app)) && err.Failure? == old(StartFails(app))
    {
      var registered, _ := IsRegistered(app).0, IsRegistered(app).1;
      if !registered {
        return false, Nil;
      }
      var isRunning := IsRunning(app);
      if isRunning {
        return true, Nil;
      }
      var _, e := Systemctl(Start, Name(app));
      if e.Failure? {
        return false, Failure("unable to start service (" + app + "): " + e.msg);
      }
      return true, Nil;
    }

    /** StopService: always disable first and return its failure; stop only
        a running unit. */
    method StopService(app: ToolType) returns (err: Error)
      modifies this`calls, this`running, this`enabled
      ensures |calls| > |old(calls)| && calls[|old(calls)|] == SystemctlCall(Disable, Name(app))
      ensures Disable in refused ==>
        err.Failure? && calls == old(calls) + [SystemctlCall(Disable, Name(app))]
        && running == old(running) && enabled == old(enabled)
      ensures Disable !in refused && Name(app) !in old(running) ==>
        err == Nil && running == old(running) && enabled == old(enabled) - {Name(app)}
        && calls == old(calls) + [SystemctlCall(Disable, Name(app)), SystemctlCall(Status, Name(app))]
      ensures Disable !in refused && Name(app) in old(running) ==>
        enabled == old(enabled) - {Name(app)}
        && calls == old(calls) + [SystemctlCall(Disable, Name(app)), SystemctlCall(Status, Name(app)),
                                  SystemctlCall(Stop, Name(app))]
        && (err == Nil <==> Stop !in refused)
        && running == (if err == Nil then old(running) - {Name(app)} else old(running))
      ensures err == Nil ==> Name(app) !in running && Name(app) !in enabled
    {
      var e := DisableService(app);
      if e.Failure? {
        return Failure("unable to disable service (" + app + "): " + e.msg);
      }
      var isRunning := IsRunning(app);
      if !isRunning {
        return Nil;
      }
      var _, e2 := Systemctl(Stop, Name(app));
      if e2.Failure? {
        return Failure("unable to stop service (" + app + "): " + e2.msg);
      }
      return Nil;
    }

    /** RegisterService: an already registered tool is left alone; an
        unknown tool is skipped; otherwise the unit described by PlanUnit
        is rendered, written under the system unit directory (a write
        failure is only logged) and enabled, whose result is ignored. */
    method RegisterService(app: ToolType, p: RegistrationParams) returns (err: Error)
      modifies this`files, this`calls, this`running, this`enabled
      ensures running == old(running)
      ensures old(IsRegistered(app)).0 ==>
        err == Nil && files == old(files) && calls == old(calls) && enabled == old(enabled)
      ensures !old(IsRegistered(app)).0 && !PlanUnit(app, p, old(files)).Unit? ==>
        err == (if PlanUnit(app, p, old(files)).Abort? then PlanUnit(app, p, old(files)).err else Nil)
        && files == old(files) && calls == old(calls) && enabled == old(enabled)
      ensures !old(IsRegistered(app)).0 && PlanUnit(app, p, old(files)).Unit? && p.renderFails ==>
        err.Failure? && files == old(files) && calls == old(calls) && enabled == old(enabled)
      ensures !old(IsRegistered(app)).0 && PlanUnit(app, p, old(files)).Unit? && !p.renderFails ==>
        var plan := PlanUnit(app, p, old(files));
        err == Nil
        && files == (if SystemUnitPath(app) in unwritable then old(files)
                     else old(files)[SystemUnitPath(app) := UnitFile(app + " daemon", plan.execCmd, plan.workDir)])
        && calls == old(calls) + [SystemctlCall(Enable, Name(app))]
        && enabled == (if Enable in refused then old(enabled) else old(enabled) + {Name(app)})
      ensures SystemUnitPath(app) != UserUnitPath(app) ==> IsRegistered(app) == old(IsRegistered(app))
    {
      var registered := IsRegistered(app).0;
      if registered {
        return Nil;
      }
      var plan := PlanUnit(app, p, files);
      if plan.Unsupported? {
        return Nil;
      }
      if plan.Abort? {
        return plan.err;
      }
      if p.renderFails {
        return Failure("unable ot create service file for (" + app + ")");
      }
      var path := SystemUnitPath(app);
      if path !in unwritable {
        files := files[path := UnitFile(app + " daemon", plan.execCmd, plan.workDir)];
      }
      var _ := EnableService(app);
      return Nil;
    }
  }
}
