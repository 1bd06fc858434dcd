/** The Corstone-700 platform wrapper: its configuration, its default test
    specification, the four terminal watchers it builds from a test
    specification, and the images it hands to the model. */
module Corstone700 {
  import opened Wrappers
  import opened Text
  import opened Watcher
  import opened Testspec
  import FW = FvpWrapper

  // ---------------------------------------------------------------------------
  // Configuration

  const FvpName := "Corstone-700"
  /** The model's own message when it is stopped. */
  const StopCnd := "/OSCI/SystemC: Simulation stopped by user"

  const SeBootloader := "se.trustedBootROMloader.fname"
  const BoardFlashloader := "board.flashloader0.fname"
  /** The external system flash loader parameter, numbered by system. */
  function EsFlashloader(i: nat): string
  {
    "extsys_harness" + NatToString(i) + ".extsys_flashloader.fname"
  }

  const HostUart0 := "host.uart0.out_file"
  const HostUart1 := "host.uart1.out_file"
  const SeUart := "se.uart0.out_file"
  /** The external system UART log parameter, numbered by UART. */
  function EsUart(i: nat): string
  {
    "extsys0.uart" + NatToString(i) + ".out_file"
  }

  const HostTelnetPort0 := 5000
  const HostTelnetPort1 := 5001
  const SeTelnetPort0 := 5002
  const EsTelnetPorts: seq<int> := [5003, -1, -1, -1]

  const LinuxLoginPrompt := "corstone700-fvp login:"
  const LinuxUser := "root"
  const LinuxShString := "root@corstone700-fvp:~# "

  /** How many external systems get a watcher. */
  const EsCnt := 1

  /** The default test specification that user specifications are merged into. */
  function DefaultTestspec(): map<string, Value>
  {
    map[
      "name" := Null,
      "commands" := List([]),
      "se_bootrom" := Null,
      "board_flash" := Null,
      "es_images" := Null,
      "host_stop_str" := Null,
      "se_stop_str" := Null,
      "es_stop_strs" := List([Null]),
      "host_ver_strs" := List([]),
      "se_ver_strs" := List([]),
      "es_ver_strs" := List([List([])])
    ]
  }

  // ---------------------------------------------------------------------------
  // The watchers a specification asks for

  /** The host terminal 0 watcher: the login sequence, then the test's steps. */
  function Host0(name: string, logDir: string, stopStr: Option<string>, verificationStrs: seq<string>,
                 steps: seq<Command>): WatcherPlan
  {
    WatcherPlan("host0", FW.JoinPath(logDir, name + "_host0.txt"), stopStr, verificationStrs,
                Some(HostUart0), Some(HostTelnetPort0),
                LoginSteps(LinuxLoginPrompt, LinuxUser, LinuxShString) + steps)
  }

  /** The host terminal 1 watcher: no stop string, nothing to verify. */
  function Host1(name: string, logDir: string): WatcherPlan
  {
    WatcherPlan("host1", FW.JoinPath(logDir, name + "_host1.txt"), None, [],
                Some(HostUart1), Some(HostTelnetPort1), [])
  }

  /** The secure enclave watcher. */
  function Se(name: string, logDir: string, stopStr: Option<string>, verificationStrs: seq<string>): WatcherPlan
  {
    WatcherPlan("se", FW.JoinPath(logDir, name + "_se.txt"), stopStr, verificationStrs,
                Some(SeUart), Some(SeTelnetPort0), [])
  }

  /** The watcher of external system `i`. */
  function Es(name: string, logDir: string, i: nat, stopStr: Option<string>, verificationStrs: seq<string>,
              port: int): WatcherPlan
  {
    WatcherPlan("es" + NatToString(i), FW.JoinPath(logDir, name + "_es" + NatToString(i) + ".txt"),
                stopStr, verificationStrs, Some(EsUart(i)), Some(port), [])
  }

  /** `str(0)`. */
  lemma ZeroText()
    ensures NatToString(0) == "0"
  {
    assert DigitChar(0) == '0';
  }

  /** `es_stop_strs[k]`: the stop string of external system `k`. */
  function EsStopAt(spec: map<string, Value>, k: nat): Result<Option<string>, Fault>
  {
    var stops :- Lookup(spec, "es_stop_strs");
    var stopV :- IndexAt(stops, k);
    AsStopStr(stopV)
  }

  /** `es_ver_strs[k]`: the verification strings of external system `k`. */
  function EsVerAt(spec: map<string, Value>, k: nat): Result<seq<string>, Fault>
  {
    var vers :- Lookup(spec, "es_ver_strs");
    var verV :- IndexAt(vers, k);
    AsStrings(verV)
  }

  /** The watchers of external systems `i` up to `n`, each reading its stop
      string, its telnet port and its verification strings at its own index. */
  function EsPlans(spec: map<string, Value>, name: string, logDir: string, i: nat, n: nat)
    : (r: Result<seq<WatcherPlan>, Fault>)
    ensures r.Success? <==>
      forall k :: i <= k < n ==> EsStopAt(spec, k).Success? && k < |EsTelnetPorts| && EsVerAt(spec, k).Success?
    ensures r.Success? ==> |r.value| == if i < n then n - i else 0
    ensures r.Success? ==> forall k :: i <= k < n ==>
      r.value[k - i] == Es(name, logDir, k, EsStopAt(spec, k).value, EsVerAt(spec, k).value, EsTelnetPorts[k])
    decreases n - i
  {
    if i >= n then Success([])
    else
      var stop :- EsStopAt(spec, i);
      var port :- if i < |EsTelnetPorts| then Success(EsTelnetPorts[i]) else Failure(IndexError);
      var ver :- EsVerAt(spec, i);
      var p := Es(name, logDir, i, stop, ver, port);
      var rest :- EsPlans(spec, name, logDir, i + 1, n);
      Success([p] + rest)
  }

  /** The watchers the constructor builds from the merged specification `spec`,
      in the order host0, host1, se, es0, reading the entries in the order the
      constructor does; the first entry that cannot be used aborts. */
  function Plan(spec: map<string, Value>, logDir: string): Result<seq<WatcherPlan>, Fault>
  {
    var nameV :- Lookup(spec, "name");
    var name :- AsStr(nameV);
    var hostStop :- StopStrAt(spec, "host_stop_str");
    var hostVer :- StringsAt(spec, "host_ver_strs");
    var commands :- Lookup(spec, "commands");
    var items :- Iterate(commands);
    var steps :- StepsOf(items);
    var seStop :- StopStrAt(spec, "se_stop_str");
    var seVer :- StringsAt(spec, "se_ver_strs");
    var es :- EsPlans(spec, name, logDir, 0, EsCnt);
    Success([Host0(name, logDir, hostStop, hostVer, steps), Host1(name, logDir), Se(name, logDir, seStop, seVer)] + es)
  }

  /** The test's entries of `spec` that `Plan` reads, when they can all be used. */
  datatype Entries = Entries(name: string, items: seq<Value>, steps: seq<Command>,
                             hostStop: Option<string>, hostVer: seq<string>,
                             seStop: Option<string>, seVer: seq<string>,
                             esStop: Option<string>, esVer: seq<string>)

  /** `e` holds the entries of `spec`, read as the constructor reads them. */
  predicate ReadAs(spec: map<string, Value>, e: Entries)
  {
    && "name" in spec && spec["name"] == Str(e.name)
    && "commands" in spec && Iterate(spec["commands"]) == Success(e.items)
    && StepsOf(e.items) == Success(e.steps)
    && StopStrAt(spec, "host_stop_str") == Success(e.hostStop)
    && StringsAt(spec, "host_ver_strs") == Success(e.hostVer)
    && StopStrAt(spec, "se_stop_str") == Success(e.seStop)
    && StringsAt(spec, "se_ver_strs") == Success(e.seVer)
    && EsStopAt(spec, 0) == Success(e.esStop)
    && EsVerAt(spec, 0) == Success(e.esVer)
  }

  /** The four watchers for given entries. */
  function Watchers(e: Entries, logDir: string): seq<WatcherPlan>
  {
    [Host0(e.name, logDir, e.hostStop, e.hostVer, e.steps), Host1(e.name, logDir),
     Se(e.name, logDir, e.seStop, e.seVer),
     Es(e.name, logDir, 0, e.esStop, e.esVer, EsTelnetPorts[0])]
  }

  /** `Plan` succeeds exactly when every entry it reads can be used, and then
      builds the four watchers from them. */
  lemma PlanReads(spec: map<string, Value>, logDir: string, e: Entries)
    requires ReadAs(spec, e)
    ensures Plan(spec, logDir) == Success(Watchers(e, logDir))
  {
    var es := EsPlans(spec, e.name, logDir, 0, EsCnt);
    assert EsTelnetPorts[0] == 5003;
    assert es.value == [Watchers(e, logDir)[3]];
    var first := [Host0(e.name, logDir, e.hostStop, e.hostVer, e.steps), Host1(e.name, logDir),
                  Se(e.name, logDir, e.seStop, e.seVer)];
    assert Plan(spec, logDir) == Success(first + es.value);
    assert first + es.value == Watchers(e, logDir);
  }

  /** A successful plan reads its entries from `spec`. */
  lemma PlanRead(spec: map<string, Value>, logDir: string)
    requires Plan(spec, logDir).Success?
    ensures exists e :: ReadAs(spec, e) && Plan(spec, logDir) == Success(Watchers(e, logDir))
  {
    var name := spec["name"].s;
    var items := Iterate(spec["commands"]).value;
    var es0 := EsPlans(spec, name, logDir, 0, EsCnt);
    assert es0.Success?;
    var e := Entries(name, items, StepsOf(items).value,
                     StopStrAt(spec, "host_stop_str").value, StringsAt(spec, "host_ver_strs").value,
                     StopStrAt(spec, "se_stop_str").value, StringsAt(spec, "se_ver_strs").value,
                     EsStopAt(spec, 0).value, EsVerAt(spec, 0).value);
    assert ReadAs(spec, e);
    PlanReads(spec, logDir, e);
  }

  /** Host0 queues the login sequence and then the test's commands in their
      given order; host1 has no stop string and nothing to verify; every other
      watcher queues nothing. */
  lemma WatchersSteps(e: Entries, logDir: string)
    requires StepsOf(e.items) == Success(e.steps)
    ensures var ws := Watchers(e, logDir);
      && |ws| == 4
      && ws[0].steps == [Command(Read, LinuxLoginPrompt), Command(Write, LinuxUser), Command(Read, LinuxShString)] + e.steps
      && |e.steps| == |e.items|
      && (forall i :: 0 <= i < |e.items| ==> StepOf(e.items[i]) == Success(ws[0].steps[3 + i]))
      && ws[1].stopStr.None? && ws[1].verificationStrs == []
      && ws[1].steps == [] && ws[2].steps == [] && ws[3].steps == []
  {
  }

  /** The watchers are host0, host1, se and es0 on the distinct ports 5000 to
      5003, each logging to "<test>_<watcher>.txt" in the log directory and
      mirroring its own UART. */
  lemma WatchersLayout(e: Entries, logDir: string)
    ensures var ws := Watchers(e, logDir);
      && |ws| == 4
      && ws[0].name == "host0" && ws[1].name == "host1" && ws[2].name == "se" && ws[3].name == "es0"
      && (forall i :: 0 <= i < 4 ==> ws[i].port == Some(5000 + i))
      && (forall i, j :: 0 <= i < j < 4 ==> ws[i].port != ws[j].port)
      && (forall i :: 0 <= i < 4 ==> ws[i].termfile == FW.JoinPath(logDir, e.name + "_" + ws[i].name + ".txt"))
      && ws[0].fvpUart == Some("host.uart0.out_file") && ws[1].fvpUart == Some("host.uart1.out_file")
      && ws[2].fvpUart == Some("se.uart0.out_file") && ws[3].fvpUart == Some("extsys0.uart0.out_file")
  {
    var ws := Watchers(e, logDir);
    ZeroText();
    assert ws[3].name == "es" + "0" == "es0";
    assert EsUart(0) == "extsys0.uart" + "0" + ".out_file" == "extsys0.uart0.out_file";
    assert e.name + "_host0.txt" == e.name + "_" + "host0" + ".txt";
    assert e.name + "_host1.txt" == e.name + "_" + "host1" + ".txt";
    assert e.name + "_se.txt" == e.name + "_" + "se" + ".txt";
    assert e.name + "_es" + "0" + ".txt" == e.name + "_" + "es0" + ".txt";
  }

  /** The defaults of the entries a watcher reads. */
  lemma DefaultEntries()
    ensures var d := DefaultTestspec();
      && "host_stop_str" in d && d["host_stop_str"] == Null
      && "se_stop_str" in d && d["se_stop_str"] == Null
      && "host_ver_strs" in d && d["host_ver_strs"] == List([])
      && "se_ver_strs" in d && d["se_ver_strs"] == List([])
      && "es_stop_strs" in d && d["es_stop_strs"] == List([Null])
      && "es_ver_strs" in d && d["es_ver_strs"] == List([List([])])
  {
  }

  /** A specification giving only a name and commands keeps every other default. */
  lemma DefaultsKept(name: string, commands: seq<Value>)
    ensures var spec := Merged(DefaultTestspec(), map["name" := Str(name), "commands" := List(commands)]);
      && "name" in spec && spec["name"] == Str(name)
      && "commands" in spec && spec["commands"] == List(commands)
      && "host_stop_str" in spec && spec["host_stop_str"] == Null
      && "se_stop_str" in spec && spec["se_stop_str"] == Null
      && "host_ver_strs" in spec && spec["host_ver_strs"] == List([])
      && "se_ver_strs" in spec && spec["se_ver_strs"] == List([])
      && "es_stop_strs" in spec && spec["es_stop_strs"] == List([Null])
      && "es_ver_strs" in spec && spec["es_ver_strs"] == List([List([])])
  {
    DefaultEntries();
    var u := map["name" := Str(name), "commands" := List(commands)];
    assert u.Keys == {"name", "commands"};
  }

  /** Entries the user leaves out keep their defaults: with only a name and
      commands given, host0, se and es0 have no stop string and nothing to
      verify. */
  lemma DefaultsFillIn(name: string, commands: seq<Value>, logDir: string)
    requires StepsOf(commands).Success?
    ensures var spec := Merged(DefaultTestspec(), map["name" := Str(name), "commands" := List(commands)]);
      var e := Entries(name, commands, StepsOf(commands).value, None, [], None, [], None, []);
      ReadAs(spec, e) && Plan(spec, logDir) == Success(Watchers(e, logDir))
  {
    var spec := Merged(DefaultTestspec(), map["name" := Str(name), "commands" := List(commands)]);
    var e := Entries(name, commands, StepsOf(commands).value, None, [], None, [], None, []);
    DefaultsKept(name, commands);
    DefaultsRead(spec, name, commands);
    PlanReads(spec, logDir, e);
  }

  /** Default values read as no stop string and nothing to verify. */
  lemma DefaultsRead(spec: map<string, Value>, name: string, commands: seq<Value>)
    requires StepsOf(commands).Success?
    requires "name" in spec && spec["name"] == Str(name)
    requires "commands" in spec && spec["commands"] == List(commands)
    requires "host_stop_str" in spec && spec["host_stop_str"] == Null
    requires "se_stop_str" in spec && spec["se_stop_str"] == Null
    requires "host_ver_strs" in spec && spec["host_ver_strs"] == List([])
    requires "se_ver_strs" in spec && spec["se_ver_strs"] == List([])
    requires "es_stop_strs" in spec && spec["es_stop_strs"] == List([Null])
    requires "es_ver_strs" in spec && spec["es_ver_strs"] == List([List([])])
    ensures ReadAs(spec, Entries(name, commands, StepsOf(commands).value, None, [], None, [], None, []))
  {
    assert Texts([]) == Success([]);
  }

  /** Without a usable name, no watcher can be named: the constructor fails on it first. */
  lemma NameMustBeText(spec: map<string, Value>, logDir: string)
    requires "name" in spec && !spec["name"].Str?
    ensures Plan(spec, logDir) == Failure(TypeError)
  {
  }

  // ---------------------------------------------------------------------------
  // Images

  /** The flash loaders' images: the secure enclave ROM, the board flash and
      external system 0's flash, each a fixed file name in the image directory. */
  function ModelParameters(imageDir: string): (params: map<string, string>)
    ensures params.Keys == {SeBootloader, BoardFlashloader, EsFlashloader(0)}
    ensures |params| == 3
    ensures forall k :: k in params ==> IsPrefix(imageDir + "/", params[k])
  {
    assert NatToString(0) == "0";
    var params := map[SeBootloader := FW.JoinPath(imageDir, "se_romfw.bin"),
                      BoardFlashloader := FW.JoinPath(imageDir, "arm-reference-image-corstone700-fvp.wic.nopt"),
                      EsFlashloader(0) := FW.JoinPath(imageDir, "es_flashfw.bin")];
    assert |params.Keys| == 3;
    params
  }

  /** No watcher's UART parameter names a flash loader, so merging the
      watchers' parameters after the images leaves every image in place. */
  lemma ImagesSurviveWatchers(imageDir: string, e: Entries, logDir: string)
    ensures var model := ModelParameters(imageDir);
      var merged := FW.MergeAll(model, seq(4, i requires 0 <= i < 4 => PlanParameters(Watchers(e, logDir)[i])));
      forall k :: k in model ==> k in merged && merged[k] == model[k]
  {
    var model := ModelParameters(imageDir);
    var ms := seq(4, i requires 0 <= i < 4 => PlanParameters(Watchers(e, logDir)[i]));
    assert NatToString(0) == "0";
    forall k | k in model
      ensures k in FW.MergeAll(model, ms) && FW.MergeAll(model, ms)[k] == model[k]
    {
      forall i | 0 <= i < |ms| ensures k !in ms[i] {
        assert ms[i].Keys <= {HostUart0, HostUart1, SeUart, EsUart(0)};
      }
      FW.MergeAllLookup(model, ms, k);
    }
  }

  class Corstone700Fvp {
    const wrapper: FW.FvpWrapper
    /** The merged test specification: the module's default table itself. */
    const testspec: SpecTable
    const imageDir: string

    constructor (wrapper: FW.FvpWrapper, testspec: SpecTable, imageDir: string)
      ensures this.wrapper == wrapper && this.testspec == testspec && this.imageDir == imageDir
    {
      this.wrapper := wrapper;
      this.testspec := testspec;
      this.imageDir := imageDir;
    }

    /** The images for the flash loaders, one entry at a time. */
    method GetModelParameters() returns (params: map<string, string>)
      ensures params == ModelParameters(imageDir)
    {
      params := map[];
      params := params[SeBootloader := FW.JoinPath(imageDir, "se_romfw.bin")];
      params := params[BoardFlashloader := FW.JoinPath(imageDir, "arm-reference-image-corstone700-fvp.wic.nopt")];
      params := params[EsFlashloader(0) := FW.JoinPath(imageDir, "es_flashfw.bin")];
    }

    /** Nothing is written into the model's memory for this platform. */
    method GetModelData() returns (data: map<string, string>)
      ensures data == map[]
    {
      data := map[];
    }
  }

  /** The constructor: read the test name, set up the generic wrapper, merge the
      specification into the defaults, then build the watchers host0 (login
      then the test's commands), host1, se and the external systems'. A fault
      is what ends the process. */
  method Create(defaults: SpecTable, testspec: map<string, Value>, fvpPath: string, imageDir: string,
                userMode: bool, fvpTimeout: int, workDir: string)
    returns (fvp: Corstone700Fvp?, fault: Option<Fault>)
    modifies defaults
    ensures fault.None? <==> fvp != null
    ensures "name" !in testspec ==> fault == Some(KeyError) && defaults.entries == old(defaults.entries)
    ensures "name" in testspec && "commands" !in testspec ==>
      fault == Some(Exit(1)) && defaults.entries == old(defaults.entries)
    ensures "name" in testspec && "commands" in testspec ==>
      && defaults.entries == Merged(old(defaults.entries), testspec)
      && var plan := Plan(defaults.entries, FW.JoinPath(workDir, "logs"));
      && (plan.Failure? ==> fault == Some(plan.error))
      && (plan.Success? ==> fault.None?)
    ensures fvp != null ==>
      && fresh(fvp) && fresh(fvp.wrapper) && fvp.testspec == defaults && fvp.imageDir == imageDir
      && var w := fvp.wrapper;
      && w.fvpPath == fvpPath && w.fvpName == FvpName && w.workDir == workDir
      && w.fvpTimeout == fvpTimeout && w.userMode == userMode
      && w.fvpParams == map[] && w.fvpData == map[] && w.threads == []
      && var plan := Plan(defaults.entries, w.logDir);
      && plan.Success? && |w.watchers| == |plan.value|
      && (forall i :: 0 <= i < |plan.value| ==> fresh(w.watchers[i]) && Built(w.watchers[i], plan.value[i], StopCnd))
  {
    if "name" !in testspec {
      return null, Some(KeyError);
    }
    var wrapper := new FW.FvpWrapper(fvpPath, FvpName, workDir, fvpTimeout, userMode);
    fault := ParseTestspec(defaults, testspec);
    if fault.Some? {
      return null, fault;
    }
    var ws;
    ws, fault := BuildWatchers(defaults.entries, wrapper.logDir);
    if fault.Some? {
      return null, fault;
    }
    wrapper.watchers := ws;
    fvp := new Corstone700Fvp(wrapper, defaults, imageDir);
  }

  /** The watchers `spec` asks for, built in order, or the fault that stops the
      constructor before any of them is kept. */
  method BuildWatchers(spec: map<string, Value>, logDir: string) returns (ws: seq<TelnetWatcher>, fault: Option<Fault>)
    ensures var plan := Plan(spec, logDir);
      && (plan.Failure? ==> fault == Some(plan.error))
      && (plan.Success? ==> fault.None? && |ws| == |plan.value|)
      && (plan.Success? ==> forall i :: 0 <= i < |plan.value| ==> fresh(ws[i]) && Built(ws[i], plan.value[i], StopCnd))
  {
    var plan := Plan(spec, logDir);
    if plan.Failure? {
      return [], Some(plan.error);
    }
    PlanRead(spec, logDir);
    var e :| ReadAs(spec, e) && plan == Success(Watchers(e, logDir));
    ws := BuildAll(Watchers(e, logDir), e.items);
    fault := None;
  }

  /** Build the planned watchers in order: host0 with its queued steps, then
      host1, se and es0. */
  method BuildAll(plans: seq<WatcherPlan>, items: seq<Value>) returns (ws: seq<TelnetWatcher>)
    requires |plans| == 4 && StepsOf(items).Success?
    requires plans[0].steps == LoginSteps(LinuxLoginPrompt, LinuxUser, LinuxShString) + StepsOf(items).value
    requires forall i :: 1 <= i < 4 ==> plans[i].steps == []
    ensures |ws| == 4
    ensures forall i :: 0 <= i < 4 ==> fresh(ws[i]) && Built(ws[i], plans[i], StopCnd)
  {
    var host0 := NewHost(plans[0], StopCnd, LinuxLoginPrompt, LinuxUser, LinuxShString, items);
    ws := [host0];
    for i := 1 to 4
      invariant |ws| == i
      invariant forall j :: 0 <= j < i ==> fresh(ws[j]) && Built(ws[j], plans[j], StopCnd)
    {
      var w := NewWatcher(plans[i], StopCnd);
      ws := ws + [w];
    }
  }
}
