/** The Corstone-500 platform wrapper: its configuration, its default test
    specification, the single host terminal watcher it builds from a test
    specification, and the images it hands to the model. */
module Corstone500 {
  import opened Wrappers
  import opened Text
  import opened Watcher
  import opened Testspec
  import FW = FvpWrapper

  // ---------------------------------------------------------------------------
  // Configuration

  const FvpName := "corstone500"
  /** The model's own message when it is stopped. */
  const StopCnd := "/OSCI/SystemC: Simulation stopped by user"

  /** The processor whose memory receives the data image. */
  const HostCpu0 := "css.cluster.cpu0"
  /** Where the data image is written: ten characters, as the model loader expects. */
  const Address1 := "0x80000000"
  const BoardRomLoader := "board.flashloader0.fname"
  const HostUart0 := "css.uart_0.out_file"
  const HostTelnetPort0 := 5000

  const LinuxLoginPrompt := "corstone500 login:"
  const LinuxUser := "root"
  const LinuxShString := "root@corstone500:~# "

  /** The default test specification that user specifications are merged into. */
  function DefaultTestspec(): map<string, Value>
  {
    map[
      "name" := Null,
      "commands" := List([]),
      "board_flash" := Null,
      "host_stop_str" := Null,
      "host_ver_strs" := List([])
    ]
  }

  // ---------------------------------------------------------------------------
  // The watcher a specification asks for

  /** The host terminal 0 watcher: the login sequence, then the test's steps. */
  function Host0(name: string, logDir: string, stopStr: Option<string>, verificationStrs: seq<string>,
                 steps: seq<Command>): WatcherPlan
  {
    WatcherPlan("host0", FW.JoinPath(logDir, name + "_host0.txt"), stopStr, verificationStrs,
                Some(HostUart0), Some(HostTelnetPort0),
                LoginSteps(LinuxLoginPrompt, LinuxUser, LinuxShString) + steps)
  }

  /** The watchers the constructor builds from the merged specification `spec`
      (host0 alone), reading the entries in the order the constructor does; the
      first entry that cannot be used aborts. */
  function Plan(spec: map<string, Value>, logDir: string): Result<seq<WatcherPlan>, Fault>
  {
    var nameV :- Lookup(spec, "name");
    var name :- AsStr(nameV);
    var hostStop :- StopStrAt(spec, "host_stop_str");
    var hostVer :- StringsAt(spec, "host_ver_strs");
    var commands :- Lookup(spec, "commands");
    var items :- Iterate(commands);
    var steps :- StepsOf(items);
    Success([Host0(name, logDir, hostStop, hostVer, steps)])
  }

  /** The test's entries of `spec` that `Plan` reads, when they can all be used. */
  datatype Entries = Entries(name: string, items: seq<Value>, steps: seq<Command>,
                             hostStop: Option<string>, hostVer: seq<string>)

  /** `e` holds the entries of `spec`, read as the constructor reads them. */
  predicate ReadAs(spec: map<string, Value>, e: Entries)
  {
    && "name" in spec && spec["name"] == Str(e.name)
    && "commands" in spec && Iterate(spec["commands"]) == Success(e.items)
    && StepsOf(e.items) == Success(e.steps)
    && StopStrAt(spec, "host_stop_str") == Success(e.hostStop)
    && StringsAt(spec, "host_ver_strs") == Success(e.hostVer)
  }

  /** The one watcher for given entries. */
  function Watchers(e: Entries, logDir: string): seq<WatcherPlan>
  {
    [Host0(e.name, logDir, e.hostStop, e.hostVer, e.steps)]
  }

  /** `Plan` builds the host0 watcher from usable entries. */
  lemma PlanReads(spec: map<string, Value>, logDir: string, e: Entries)
    requires ReadAs(spec, e)
    ensures Plan(spec, logDir) == Success(Watchers(e, logDir))
  {
  }

  /** A successful plan reads its entries from `spec`. */
  lemma PlanRead(spec: map<string, Value>, logDir: string)
    requires Plan(spec, logDir).Success?
    ensures exists e :: ReadAs(spec, e) && Plan(spec, logDir) == Success(Watchers(e, logDir))
  {
    var items := Iterate(spec["commands"]).value;
    var e := Entries(spec["name"].s, items, StepsOf(items).value,
                     StopStrAt(spec, "host_stop_str").value, StringsAt(spec, "host_ver_strs").value);
    assert ReadAs(spec, e);
    PlanReads(spec, logDir, e);
  }

  /** The one watcher is host0 on port 5000, logging to "<test>_host0.txt" in
      the log directory and mirroring UART 0; it queues the login sequence and
      then the test's commands in their given order. */
  lemma WatchersShape(e: Entries, logDir: string)
    requires StepsOf(e.items) == Success(e.steps)
    ensures var ws := Watchers(e, logDir);
      && |ws| == 1
      && ws[0].name == "host0" && ws[0].port == Some(5000)
      && ws[0].termfile == FW.JoinPath(logDir, e.name + "_host0.txt")
      && ws[0].fvpUart == Some("css.uart_0.out_file")
      && ws[0].stopStr == e.hostStop && ws[0].verificationStrs == e.hostVer
      && ws[0].steps == [Command(Read, LinuxLoginPrompt), Command(Write, LinuxUser), Command(Read, LinuxShString)] + e.steps
      && |e.steps| == |e.items|
      && (forall i :: 0 <= i < |e.items| ==> StepOf(e.items[i]) == Success(ws[0].steps[3 + i]))
  {
  }

  /** A specification giving only a name and commands keeps the default stop
      string and verification strings. */
  lemma DefaultsKept(name: string, commands: seq<Value>)
    ensures var spec := Merged(DefaultTestspec(), map["name" := Str(name), "commands" := List(commands)]);
      && "name" in spec && spec["name"] == Str(name)
      && "commands" in spec && spec["commands"] == List(commands)
      && "host_stop_str" in spec && spec["host_stop_str"] == Null
      && "host_ver_strs" in spec && spec["host_ver_strs"] == List([])
  {
    var u := map["name" := Str(name), "commands" := List(commands)];
    assert u.Keys == {"name", "commands"};
  }

  /** With only a name and commands given, host0 has no stop string and nothing
      to verify. */
  lemma DefaultsFillIn(name: string, commands: seq<Value>, logDir: string)
    requires StepsOf(commands).Success?
    ensures var spec := Merged(DefaultTestspec(), map["name" := Str(name), "commands" := List(commands)]);
      var e := Entries(name, commands, StepsOf(commands).value, None, []);
      ReadAs(spec, e) && Plan(spec, logDir) == Success(Watchers(e, logDir))
  {
    var spec := Merged(DefaultTestspec(), map["name" := Str(name), "commands" := List(commands)]);
    var e := Entries(name, commands, StepsOf(commands).value, None, []);
    DefaultsKept(name, commands);
    assert Texts([]) == Success([]);
    assert ReadAs(spec, e);
    PlanReads(spec, logDir, e);
  }

  // ---------------------------------------------------------------------------
  // Images

  /** The boot ROM image, a fixed file name in the image directory. */
  function ModelParameters(imageDir: string): (params: map<string, string>)
    ensures params.Keys == {BoardRomLoader}
    ensures params[BoardRomLoader] == FW.JoinPath(imageDir, "bl1.bin")
  {
    map[BoardRomLoader := FW.JoinPath(imageDir, "bl1.bin")]
  }

  /** The file image for the host processor, written at `Address1`. */
  function ModelData(imageDir: string): (data: map<string, string>)
    ensures data.Keys == {HostCpu0}
    ensures FW.SplitDataImage(data[HostCpu0])
         == (FW.JoinPath(imageDir, "arm-reference-image-corstone500.wic.nopt"), Address1)
  {
    var value := FW.JoinPath(imageDir, "arm-reference-image-corstone500.wic.nopt" + "@" + Address1);
    assert value == FW.JoinPath(imageDir, "arm-reference-image-corstone500.wic.nopt") + "@" + Address1;
    FW.SplitDataImageRoundTrip(FW.JoinPath(imageDir, "arm-reference-image-corstone500.wic.nopt"), Address1);
    map[HostCpu0 := value]
  }

  /** The watcher's UART parameter does not name the boot ROM loader, so
      merging it after the images leaves the image in place. */
  lemma ImageSurvivesWatcher(imageDir: string, e: Entries, logDir: string)
    ensures var model := ModelParameters(imageDir);
      var merged := FW.MergeAll(model, [PlanParameters(Watchers(e, logDir)[0])]);
      BoardRomLoader in merged && merged[BoardRomLoader] == model[BoardRomLoader]
  {
    var model := ModelParameters(imageDir);
    var ms := [PlanParameters(Watchers(e, logDir)[0])];
    assert ms[0].Keys == {HostUart0};
    FW.MergeAllLookup(model, ms, BoardRomLoader);
  }

  class A5dsFvp {
    const wrapper: FW.FvpWrapper
    /** The merged test specification: the module's default table itself. */
    const testspec: SpecTable
    const imageDir: string

    constructor (wrapper: FW.FvpWrapper, testspec: SpecTable, imageDir: string)
      ensures this.wrapper == wrapper && this.testspec == testspec && this.imageDir == imageDir
    {
      this.wrapper := wrapper;
      this.testspec := testspec;
      this.imageDir := imageDir;
    }

    /** The image for the boot ROM loader. */
    method GetModelParameters() returns (params: map<string, string>)
      ensures params == ModelParameters(imageDir)
    {
      params := map[];
      params := params[BoardRomLoader := FW.JoinPath(imageDir, "bl1.bin")];
    }

    /** The image written into the host processor's memory, as "<path>@<address>". */
    method GetModelData() returns (data: map<string, string>)
      ensures data == ModelData(imageDir)
    {
      data := map[];
      data := data[HostCpu0 := FW.JoinPath(imageDir, "arm-reference-image-corstone500.wic.nopt" + "@" + Address1)];
    }
  }

  /** The constructor: read the test name, set up the generic wrapper, merge the
      specification into the defaults, then build host0 (login then the test's
      commands). A fault is what ends the process. */
  method Create(defaults: SpecTable, testspec: map<string, Value>, fvpPath: string, imageDir: string,
                userMode: bool, fvpTimeout: int, workDir: string)
    returns (fvp: A5dsFvp?, fault: Option<Fault>)
    modifies defaults
    ensures fault.None? <==> fvp != null
    ensures "name" !in testspec ==> fault == Some(KeyError) && defaults.entries == old(defaults.entries)
    ensures "name" in testspec && "commands" !in testspec ==>
      fault == Some(Exit(1)) && defaults.entries == old(defaults.entries)
    ensures "name" in testspec && "commands" in testspec ==>
      && defaults.entries == Merged(old(defaults.entries), testspec)
      && var plan := Plan(defaults.entries, FW.JoinPath(workDir, "logs"));
      && (plan.Failure? ==> fault == Some(plan.error))
      && (plan.Success? ==> fault.None?)
    ensures fvp != null ==>
      && fresh(fvp) && fresh(fvp.wrapper) && fvp.testspec == defaults && fvp.imageDir == imageDir
      && var w := fvp.wrapper;
      && w.fvpPath == fvpPath && w.fvpName == FvpName && w.workDir == workDir
      && w.fvpTimeout == fvpTimeout && w.userMode == userMode
      && w.fvpParams == map[] && w.fvpData == map[] && w.threads == []
      && var plan := Plan(defaults.entries, w.logDir);
      && plan.Success? && |w.watchers| == |plan.value|
      && (forall i :: 0 <= i < |plan.value| ==> fresh(w.watchers[i]) && Built(w.watchers[i], plan.value[i], StopCnd))
  {
    if "name" !in testspec {
      return null, Some(KeyError);
    }
    var wrapper := new FW.FvpWrapper(fvpPath, FvpName, workDir, fvpTimeout, userMode);
    fault := ParseTestspec(defaults, testspec);
    if fault.Some? {
      return null, fault;
    }
    var ws;
    ws, fault := BuildWatchers(defaults.entries, wrapper.logDir);
    if fault.Some? {
      return null, fault;
    }
    wrapper.watchers := ws;
    fvp := new A5dsFvp(wrapper, defaults, imageDir);
  }

  /** The watcher `spec` asks for, built with its queued steps, or the fault
      that stops the constructor. */
  method BuildWatchers(spec: map<string, Value>, logDir: string) returns (ws: seq<TelnetWatcher>, fault: Option<Fault>)
    ensures var plan := Plan(spec, logDir);
      && (plan.Failure? ==> fault == Some(plan.error))
      && (plan.Success? ==> fault.None? && |ws| == |plan.value|)
      && (plan.Success? ==> forall i :: 0 <= i < |plan.value| ==> fresh(ws[i]) && Built(ws[i], plan.value[i], StopCnd))
  {
    var plan := Plan(spec, logDir);
    if plan.Failure? {
      return [], Some(plan.error);
    }
    PlanRead(spec, logDir);
    var e :| ReadAs(spec, e) && plan == Success(Watchers(e, logDir));
    var host0 := NewHost(Watchers(e, logDir)[0], StopCnd, LinuxLoginPrompt, LinuxUser, LinuxShString, e.items);
    ws, fault := [host0], None;
  }
}
