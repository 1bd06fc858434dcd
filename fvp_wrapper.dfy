/** The FVP wrapper: the shared run flags, the watcher loop, the wait for the
    watchers, verification of the logs and the decision on the test's result. */
module FvpWrapper {
  import opened Wrappers
  import opened Text
  import opened Watcher

  /** Port of the model's debug (iris) server. */
  const ModelPort := 7100
  /** Checks, one per second, allowed for the model to open its debug port. */
  const WaitFvpReady := 30
  /** Checks, one per second, allowed for the model to close its debug port. */
  const WaitFvpFinish := 30

  /** Path joining, as `os.path.join` with a relative second component. */
  function JoinPath(dir: string, file: string): string
  {
    dir + "/" + file
  }

  // ---------------------------------------------------------------------------
  // wait_iris_server

  /** A check of the debug port (the number of matching sockets) answers the wait:
      present when waiting for start-up (reason 0), absent otherwise. */
  predicate PortMatches(count: nat, waitReason: int)
  {
    if count != 0 then waitReason == 0 else waitReason != 0
  }

  /** One of the first `maxWaitTime` checks answers the wait. */
  predicate PortSeen(observed: seq<nat>, maxWaitTime: nat, waitReason: int)
    requires maxWaitTime <= |observed|
  {
    exists j :: 0 <= j < maxWaitTime && PortMatches(observed[j], waitReason)
  }

  /** Poll the debug port once per observation: succeed at the first check that
      answers the wait, fail after `maxWaitTime` checks that do not. */
  method WaitIrisServer(observed: seq<nat>, maxWaitTime: int, waitReason: int) returns (ok: bool, checks: nat)
    requires 1 <= maxWaitTime <= |observed|
    ensures 1 <= checks <= maxWaitTime
    ensures forall j :: 0 <= j < checks - 1 ==> !PortMatches(observed[j], waitReason)
    ensures ok <==> PortMatches(observed[checks - 1], waitReason)
    ensures !ok ==> checks == maxWaitTime
    ensures ok <==> PortSeen(observed, maxWaitTime, waitReason)
  {
    var i := 0;
    while true
      invariant 0 <= i < maxWaitTime
      invariant forall j :: 0 <= j < i ==> !PortMatches(observed[j], waitReason)
      decreases maxWaitTime - i
    {
      i := i + 1;
      var ret := observed[i - 1];
      if ret != 0 {
        if waitReason == 0 {
          return true, i;
        }
      } else {
        if waitReason != 0 {
          return true, i;
        }
      }
      if i == maxWaitTime {
        return false, i;
      }
    }
  }

  // ---------------------------------------------------------------------------
  // Shared run flags

  /** The flags every watcher thread and the waiting loop share. */
  class RunState {
    var stopAll: bool
    var testComplete: bool
    var success: bool

    constructor ()
      ensures Flags() == Watcher.Flags(false, false, true)
    {
      stopAll, testComplete, success := false, false, true;
    }

    function Flags(): Flags
      reads this
    {
      Watcher.Flags(stopAll, testComplete, success)
    }

    /** Signal every thread to stop; nothing else changes, so a second call changes nothing. */
    method Stop()
      modifies this
      ensures stopAll
      ensures testComplete == old(testComplete) && success == old(success)
      ensures Flags() == old(Flags()).(stopAll := true)
    {
      stopAll := true;
    }
  }

  // ---------------------------------------------------------------------------
  // blocking_wait, as a function over the observations of each polling tick

  /** What a watcher thread wrote to the shared flags since the previous tick. */
  datatype Signal = Quiet | EndStringFound | SimulationEnded

  /** One polling tick: the watchers' writes, a user interrupt, which threads are
      alive (in thread order) and whether the run's timeout has passed. */
  datatype WaitTick = WaitTick(signal: Signal, interrupted: bool, alive: seq<bool>, timedOut: bool)

  /** Why the wait ended; `NoMoreTicks` marks the end of the modelled observations. */
  datatype WaitExit = ThreadFinished(index: nat) | StopObserved | TimedOut | Interrupted | NoMoreTicks

  datatype Waited = Waited(flags: Flags, exit: WaitExit)

  /** The flags after a watcher thread's writes. */
  function Signalled(f: Flags, s: Signal): Flags
  {
    match s
    case Quiet => f
    case EndStringFound => f.(testComplete := true, stopAll := true)
    case SimulationEnded => f.(success := false, stopAll := true)
  }

  /** Index of the first thread found dead, or the thread count if all are alive. */
  function FirstFinished(alive: seq<bool>): (i: nat)
    ensures i <= |alive|
    ensures i < |alive| ==> !alive[i]
    ensures forall j :: 0 <= j < i ==> alive[j]
  {
    if alive == [] || !alive[0] then 0 else 1 + FirstFinished(alive[1..])
  }

  /** The waiting loop: per tick, any thread found dead, an observed stop, a
      timeout or an interrupt stops the run and ends the wait. */
  function Wait(f: Flags, ticks: seq<WaitTick>): Waited
  {
    if ticks == [] then Waited(f, NoMoreTicks)
    else
      var t := ticks[0];
      var g := Signalled(f, t.signal);
      var i := FirstFinished(t.alive);
      if t.interrupted then Waited(g.(stopAll := true), Interrupted)
      else if i < |t.alive| then Waited(g.(stopAll := true), ThreadFinished(i))
      else if g.stopAll then Waited(g, StopObserved)
      else if t.timedOut then Waited(g.(stopAll := true), TimedOut)
      else Wait(g, ticks[1..])
  }

  /** The wait leaves its loop only with the stop flag set; it never clears the
      flag, never sets `success` back to true nor clears `testComplete`; when the
      observations run out it has changed nothing; a timeout changes nothing but
      the stop flag, so it does not by itself fail the run. */
  lemma {:induction false} WaitOutcomes(f: Flags, ticks: seq<WaitTick>)
    ensures var w := Wait(f, ticks);
      && (w.exit != NoMoreTicks ==> w.flags.stopAll)
      && (w.exit == NoMoreTicks ==> w.flags == f && (ticks != [] ==> !f.stopAll))
      && (w.exit == TimedOut ==> w.flags == f.(stopAll := true))
      && (f.stopAll ==> w.flags.stopAll)
      && (w.flags.success ==> f.success)
      && (f.testComplete ==> w.flags.testComplete)
  {
    if ticks != [] {
      var t := ticks[0];
      var g := Signalled(f, t.signal);
      if !t.interrupted && FirstFinished(t.alive) == |t.alive| && !g.stopAll && !t.timedOut {
        assert g == f;
        WaitOutcomes(g, ticks[1..]);
      }
    }
  }

  // ---------------------------------------------------------------------------
  // Parameter merging and the model's command line

  /** Apply the parameter maps in order, later entries overriding earlier ones. */
  function MergeAll(base: map<string, string>, maps: seq<map<string, string>>): map<string, string>
    decreases |maps|
  {
    if maps == [] then base else MergeAll(base + maps[0], maps[1..])
  }

  /** A key of the merged map comes from the last map that has it, or from the base. */
  lemma {:induction false} MergeAllLookup(base: map<string, string>, maps: seq<map<string, string>>, k: string)
    ensures k in MergeAll(base, maps) <==> k in base || exists i :: 0 <= i < |maps| && k in maps[i]
    ensures k in base && (forall i :: 0 <= i < |maps| ==> k !in maps[i]) ==> MergeAll(base, maps)[k] == base[k]
    ensures forall i :: 0 <= i < |maps| && k in maps[i] && (forall j :: i < j < |maps| ==> k !in maps[j])
              ==> MergeAll(base, maps)[k] == maps[i][k]
    decreases |maps|
  {
    if maps != [] {
      MergeAllLookup(base + maps[0], maps[1..], k);
      forall i | 0 <= i < |maps| && k in maps[i] && (forall j :: i < j < |maps| ==> k !in maps[j])
        ensures MergeAll(base, maps)[k] == maps[i][k]
      {
        if i > 0 {
          assert maps[1..][i - 1] == maps[i];
          forall j | i - 1 < j < |maps| - 1 ensures k !in maps[1..][j] {
            assert maps[1..][j] == maps[j + 1];
          }
        } else {
          forall j | 0 <= j < |maps| - 1 ensures k !in maps[1..][j] {
            assert maps[1..][j] == maps[j + 1];
          }
        }
      }
      if exists i :: 0 <= i < |maps| && k in maps[i] {
        var i :| 0 <= i < |maps| && k in maps[i];
        if i > 0 {
          assert k in maps[1..][i - 1];
        }
      }
      if k in base && (forall i :: 0 <= i < |maps| ==> k !in maps[i]) {
        forall j | 0 <= j < |maps| - 1 ensures k !in maps[1..][j] {
          assert maps[1..][j] == maps[j + 1];
        }
      }
    }
  }

  /** The parameter maps contributed by the watchers, in watcher order. */
  function ParamsOf(ws: seq<TelnetWatcher>): (ms: seq<map<string, string>>)
    ensures |ms| == |ws|
    ensures forall i :: 0 <= i < |ws| ==> ms[i] == ws[i].GetParameters()
  {
    if ws == [] then [] else [ws[0].GetParameters()] + ParamsOf(ws[1..])
  }

  /** `keys` lists every key of `domain` exactly once. */
  predicate IsOrdering(keys: seq<string>, domain: set<string>)
  {
    && |keys| == |domain|
    && (forall i :: 0 <= i < |keys| ==> keys[i] in domain)
    && (forall i, j :: 0 <= i < j < |keys| ==> keys[i] != keys[j])
  }

  /** The "-C key=value" arguments for the parameters, in the order of `keys`. */
  function CmdPairs(keys: seq<string>, params: map<string, string>): seq<string>
    requires forall i :: 0 <= i < |keys| ==> keys[i] in params
  {
    if keys == [] then [] else ["-C", keys[0] + "=" + params[keys[0]]] + CmdPairs(keys[1..], params)
  }

  /** Each key contributes one "-C" followed by its "key=value", in order. */
  lemma {:induction false} CmdPairsShape(keys: seq<string>, params: map<string, string>)
    requires forall i :: 0 <= i < |keys| ==> keys[i] in params
    ensures |CmdPairs(keys, params)| == 2 * |keys|
    ensures forall i :: 0 <= i < |keys| ==>
      CmdPairs(keys, params)[2 * i] == "-C" && CmdPairs(keys, params)[2 * i + 1] == keys[i] + "=" + params[keys[i]]
  {
    if keys != [] {
      CmdPairsShape(keys[1..], params);
      var c := CmdPairs(keys, params);
      forall i | 0 <= i < |keys|
        ensures c[2 * i] == "-C" && c[2 * i + 1] == keys[i] + "=" + params[keys[i]]
      {
        if i > 0 {
          assert c[2 * i] == CmdPairs(keys[1..], params)[2 * (i - 1)];
          assert c[2 * i + 1] == CmdPairs(keys[1..], params)[2 * (i - 1) + 1];
        }
      }
    }
  }

  lemma CmdPairsAppend(keys: seq<string>, k: string, params: map<string, string>)
    requires forall i :: 0 <= i < |keys| ==> keys[i] in params
    requires k in params
    ensures CmdPairs(keys + [k], params) == CmdPairs(keys, params) + ["-C", k + "=" + params[k]]
  {
    if keys != [] {
      assert (keys + [k])[1..] == keys[1..] + [k];
      CmdPairsAppend(keys[1..], k, params);
    } else {
      assert CmdPairs([k], params) == ["-C", k + "=" + params[k]] + CmdPairs([], params);
    }
  }

  /** Update the merged parameters with each watcher's, in watcher order. */
  method MergeWatcherParams(base: map<string, string>, ws: seq<TelnetWatcher>) returns (params: map<string, string>)
    ensures params == MergeAll(base, ParamsOf(ws))
  {
    params := base;
    for i := 0 to |ws|
      invariant params == MergeAll(base, ParamsOf(ws[..i]))
    {
      MergeAllSnoc(base, ParamsOf(ws[..i]), ws[i].GetParameters());
      assert ParamsOf(ws[..i + 1]) == ParamsOf(ws[..i]) + [ws[i].GetParameters()];
      params := params + ws[i].GetParameters();
    }
    assert ws[..|ws|] == ws;
  }

  /** Append "-C" and "key=value" for every parameter, each key once, in the
      dictionary's iteration order (`order`). */
  method AppendParams(head: seq<string>, params: map<string, string>) returns (cmd: seq<string>, ghost order: seq<string>)
    ensures IsOrdering(order, params.Keys)
    ensures forall i :: 0 <= i < |order| ==> order[i] in params
    ensures cmd == head + CmdPairs(order, params)
  {
    cmd := head;
    var remaining := params.Keys;
    order := [];
    while remaining != {}
      invariant remaining <= params.Keys
      invariant forall i :: 0 <= i < |order| ==> order[i] in params && order[i] !in remaining
      invariant forall i, j :: 0 <= i < j < |order| ==> order[i] != order[j]
      invariant |order| + |remaining| == |params.Keys|
      invariant cmd == head + CmdPairs(order, params)
      decreases |remaining|
    {
      var param :| param in remaining;
      CmdPairsAppend(order, param, params);
      cmd := cmd + ["-C", param + "=" + params[param]];
      order := order + [param];
      remaining := remaining - {param};
    }
  }

  // ---------------------------------------------------------------------------
  // Data images: "path@address" strings

  /** What the loader reads back from a data image entry: the path (all but the
      last 11 characters) and the address (the last 10). */
  function SplitDataImage(value: string): (string, string)
  {
    (PySlice(value, 0, -11), PySlice(value, |value| - 10, |value|))
  }

  /** Joining a path and a 10-character address with "@" and splitting it again
      gives back both parts. */
  lemma SplitDataImageRoundTrip(path: string, address: string)
    requires |address| == 10
    ensures SplitDataImage(path + "@" + address) == (path, address)
  {
    var v := path + "@" + address;
    assert SliceBound(-11, |v|) == |path|;
    assert PySlice(v, 0, -11) == v[0..|path|] == path;
    assert PySlice(v, |v| - 10, |v|) == v[|v| - 10..|v|] == address;
  }

  // ---------------------------------------------------------------------------
  // The wrapper

  /** The watchers that get a thread: those with a telnet port. */
  function Threaded(ws: seq<TelnetWatcher>): seq<TelnetWatcher>
  {
    if ws == [] then []
    else (if ws[0].port.Some? then [ws[0]] else []) + Threaded(ws[1..])
  }

  /** The loop of `start` over the watchers: one thread more for every watcher
      that has a port, in watcher order. */
  method StartThreads(threads: seq<TelnetWatcher>, ws: seq<TelnetWatcher>) returns (started: seq<TelnetWatcher>)
    ensures started == threads + Threaded(ws)
  {
    started := threads;
    for i := 0 to |ws|
      invariant started == threads + Threaded(ws[..i])
    {
      ThreadedSnoc(ws[..i], ws[i]);
      assert ws[..i + 1] == ws[..i] + [ws[i]];
      if ws[i].port.Some? {
        started := started + [ws[i]];
      }
    }
    assert ws[..|ws|] == ws;
  }

  /** Exactly the watchers with a port get a thread, in watcher order. */
  lemma {:induction false} ThreadedKeepsPorted(ws: seq<TelnetWatcher>)
    ensures |Threaded(ws)| <= |ws|
    ensures forall i :: 0 <= i < |Threaded(ws)| ==> Threaded(ws)[i] in ws && Threaded(ws)[i].port.Some?
    ensures forall i :: 0 <= i < |ws| && ws[i].port.Some? ==> ws[i] in Threaded(ws)
  {
    if ws != [] {
      ThreadedKeepsPorted(ws[1..]);
      var ts := Threaded(ws);
      var head := if ws[0].port.Some? then [ws[0]] else [];
      assert ts == head + Threaded(ws[1..]);
      forall i | 0 <= i < |ts| ensures ts[i] in ws && ts[i].port.Some? {
        if i >= |head| {
          assert ts[i] == Threaded(ws[1..])[i - |head|];
        }
      }
      forall i | 0 <= i < |ws| && ws[i].port.Some? ensures ws[i] in ts {
        if i > 0 {
          assert ws[i] == ws[1..][i - 1];
        }
      }
    }
  }

  /** Every watcher's log holds all of its verification strings. */
  predicate AllVerified(ws: seq<TelnetWatcher>, logs: seq<string>)
    requires |logs| == |ws|
  {
    forall i :: 0 <= i < |ws| ==> AllFound(logs[i], ws[i].verificationStrs)
  }

  /** Controls one model run: its watchers, the model parameters and command line,
      and the flags the watchers share. */
  class FvpWrapper {
    const fvpPath: string
    const fvpName: string
    const workDir: string
    const logDir: string
    const fvpTimeout: int
    const userMode: bool
    const state: RunState
    var watchers: seq<TelnetWatcher>
    var fvpParams: map<string, string>
    var fvpData: map<string, string>
    /** The model's command line: the executable, "-I", then the parameters. */
    var fvpCmd: seq<string>
    var threads: seq<TelnetWatcher>

    constructor (fvpPath: string, fvpName: string, workDir: string, fvpTimeout: int, userMode: bool)
      ensures fresh(state)
      ensures this.fvpPath == fvpPath && this.fvpName == fvpName && this.workDir == workDir
      ensures this.fvpTimeout == fvpTimeout && this.userMode == userMode
      ensures logDir == JoinPath(workDir, "logs")
      ensures state.Flags() == Watcher.Flags(false, false, true)
      ensures watchers == [] && threads == []
      ensures fvpParams == map[] && fvpData == map[] && fvpCmd == ["", "-I"]
    {
      this.fvpPath := fvpPath;
      this.fvpName := fvpName;
      this.workDir := workDir;
      this.logDir := JoinPath(workDir, "logs");
      this.fvpTimeout := fvpTimeout;
      this.userMode := userMode;
      state := new RunState();
      watchers := [];
      threads := [];
      fvpParams := map[];
      fvpData := map[];
      fvpCmd := ["", "-I"];
    }

    /** Merge the platform's parameters and then each watcher's (watcher entries
        win), build the command line with one "-C key=value" per parameter, and
        wait for the model's debug port to open. */
    method LoadFvp(modelParams: map<string, string>, modelData: map<string, string>, readyPolls: seq<nat>)
      returns (ready: bool, ghost order: seq<string>)
      requires |fvpCmd| >= 1 && WaitFvpReady <= |readyPolls|
      modifies this
      ensures fvpParams == MergeAll(old(fvpParams) + modelParams, ParamsOf(watchers))
      ensures fvpData == old(fvpData) + modelData
      ensures IsOrdering(order, fvpParams.Keys)
      ensures forall i :: 0 <= i < |order| ==> order[i] in fvpParams
      ensures fvpCmd == [fvpPath] + old(fvpCmd)[1..] + CmdPairs(order, fvpParams)
      ensures ready <==> PortSeen(readyPolls, WaitFvpReady, 0)
      ensures watchers == old(watchers) && threads == old(threads)
    {
      var params := MergeWatcherParams(fvpParams + modelParams, watchers);
      var cmd;
      cmd, order := AppendParams([fvpPath] + fvpCmd[1..], params);
      var checks;
      ready, checks := WaitIrisServer(readyPolls, WaitFvpReady, 0);
      fvpParams, fvpData, fvpCmd := params, fvpData + modelData, cmd;
    }

    /** Load the model, then give a thread to every watcher that has a port. */
    method Start(modelParams: map<string, string>, modelData: map<string, string>, readyPolls: seq<nat>)
      returns (ok: bool)
      requires |fvpCmd| >= 1 && WaitFvpReady <= |readyPolls|
      modifies this
      ensures watchers == old(watchers)
      ensures fvpParams == MergeAll(old(fvpParams) + modelParams, ParamsOf(watchers))
      ensures ok <==> PortSeen(readyPolls, WaitFvpReady, 0)
      ensures threads == if ok then old(threads) + Threaded(watchers) else old(threads)
    {
      ghost var order;
      ok, order := LoadFvp(modelParams, modelData, readyPolls);
      if !ok {
        return;
      }
      threads := StartThreads(threads, watchers);
    }

    /** Signal every watcher thread to stop. */
    method Stop()
      modifies state
      ensures state.Flags() == old(state.Flags()).(stopAll := true)
    {
      state.Stop();
    }

    /** The loop of one watcher thread over the events its session delivers:
        replay queued steps, read a line, classify it; repeat. */
    method WatcherLoop(w: TelnetWatcher, events: seq<Event>) returns (sent: seq<string>, exit: Exit)
      modifies w, state
      ensures Run(old(w.commandQueue), true, None, old(state.Flags()), w.stopStr, w.sysStopStr, events)
           == Trace(sent, exit, state.Flags(), w.commandQueue)
    {
      ghost var goal := Run(w.commandQueue, true, None, state.Flags(), w.stopStr, w.sysStopStr, events);
      sent := [];
      var getNext := true;
      var command: Option<Command> := None;
      var pos := 0;
      assert events[pos..] == events;
      assert goal.(sent := sent + goal.sent) == goal;
      while true
        invariant RunSoFar(goal, sent, w.commandQueue, getNext, command, state.Flags(), w.stopStr, w.sysStopStr, events, pos)
        decreases |events| - pos, |w.commandQueue| + (if getNext then 0 else 1)
      {
        var stopped;
        sent, getNext, command, pos, stopped := Advance(w, events, goal, sent, getNext, command, pos);
        if stopped.Some? {
          exit := stopped.value;
          return;
        }
      }
    }

    /** A pass of the watcher loop, with what it leaves of the whole run `goal`. */
    method Advance(w: TelnetWatcher, events: seq<Event>, ghost goal: Trace, sent: seq<string>,
                   getNext: bool, command: Option<Command>, pos: nat)
      returns (sentAfter: seq<string>, getNextAfter: bool, commandAfter: Option<Command>, next: nat,
               stopped: Option<Exit>)
      requires RunSoFar(goal, sent, w.commandQueue, getNext, command, state.Flags(), w.stopStr, w.sysStopStr, events, pos)
      modifies w, state
      ensures stopped.Some? ==> goal == Trace(sentAfter, stopped.value, state.Flags(), w.commandQueue)
      ensures stopped.None? ==>
        RunSoFar(goal, sentAfter, w.commandQueue, getNextAfter, commandAfter, state.Flags(), w.stopStr, w.sysStopStr, events, next)
      ensures stopped.None? ==> pos <= next && (next == pos ==>
        |w.commandQueue| + (if getNextAfter then 0 else 1) < |old(w.commandQueue)| + (if getNext then 0 else 1))
    {
      ghost var q0, f0 := w.commandQueue, state.Flags();
      var written;
      ghost var acc;
      written, getNextAfter, commandAfter, next, stopped, acc := Pass(w, events, pos, getNext, command);
      sentAfter := sent + written;
      PassStep(goal, sent, q0, getNext, command, f0, w.stopStr, w.sysStopStr, events, pos,
               written, commandAfter, w.commandQueue, acc, getNextAfter, state.Flags(), stopped, sentAfter, next);
    }

    /** One pass of the watcher loop from position `pos`: replay queued steps if
        `getNext`, read a line (`acc` describes the reading), then either stop
        (`stopped` says why) or say whether the next pass replays again. */
    method Pass(w: TelnetWatcher, events: seq<Event>, pos: nat, getNext: bool, command: Option<Command>)
      returns (written: seq<string>, getNextAfter: bool, commandAfter: Option<Command>, next: nat,
               stopped: Option<Exit>, ghost acc: Accumulated)
      requires pos <= |events|
      modifies w, state
      ensures Replayed(written, commandAfter, w.commandQueue)
           == ReplayFrom(old(w.commandQueue), getNext, command)
      ensures acc == Accumulate("", old(state.stopAll), commandAfter, events[pos..])
      ensures next == pos + acc.used
      ensures !acc.complete ==> stopped == Some(InputExhausted) && state.Flags() == old(state.Flags()).(stopAll := acc.stopAll)
      ensures acc.complete ==>
        var v := Classify(acc.line, acc.stopAll, commandAfter, w.stopStr, w.sysStopStr);
        && stopped == ExitOf(v)
        && state.Flags() == Flagged(v, old(state.Flags()).(stopAll := acc.stopAll))
        && (v.Proceed? ==> getNextAfter == v.advance)
    {
      written, commandAfter := Resume(w, getNext, command);
      getNextAfter := false;
      var line, complete;
      line, next, complete := ReadLine(events, pos, commandAfter);
      acc := Accumulated(line, state.stopAll, next - pos, complete);
      if !complete {
        stopped := Some(InputExhausted);
      } else {
        var verdict := Judge(w, line, commandAfter);
        stopped := ExitOf(verdict);
        if verdict.Proceed? {
          getNextAfter := verdict.advance;
        }
      }
    }

    /** Decide on a line read: stop if the stop flag is up, stop with the test
        complete on the end string, stop with the run failed on the system stop
        string, otherwise go on, replaying again if the pending read was seen. */
    method Judge(w: TelnetWatcher, line: string, command: Option<Command>) returns (verdict: Verdict)
      modifies state
      ensures verdict == Classify(line, old(state.stopAll), command, w.stopStr, w.sysStopStr)
      ensures state.Flags() == Flagged(verdict, old(state.Flags()))
    {
      if state.stopAll {
        return Halt;
      }
      var advance := command.Some? && command.value.kind == Read && Contains(line, command.value.text);
      if w.stopStr.Some? && Contains(line, w.stopStr.value) {
        state.testComplete := true;
        state.Stop();
        return EndFound;
      }
      if Contains(line, w.sysStopStr) {
        state.success := false;
        state.Stop();
        return SysStopFound;
      }
      return Proceed(advance);
    }

    /** Replay queued steps when the previous pass asked for it; otherwise keep
        the pending step. */
    method Resume(w: TelnetWatcher, getNext: bool, command: Option<Command>)
      returns (written: seq<string>, commandAfter: Option<Command>)
      modifies w
      ensures Replayed(written, commandAfter, w.commandQueue)
           == ReplayFrom(old(w.commandQueue), getNext, command)
    {
      written, commandAfter := [], command;
      if getNext {
        written, commandAfter := PopSteps(w);
      }
    }

    /** Pop steps off the watcher's queue, writing each write step, up to a read
        step (returned) or an empty queue (nothing returned). */
    method PopSteps(w: TelnetWatcher) returns (written: seq<string>, command: Option<Command>)
      modifies w
      ensures Replay(old(w.commandQueue)) == Replayed(written, command, w.commandQueue)
    {
      written := [];
      var getNext := true;
      command := None;
      while getNext
        invariant getNext ==> Replay(old(w.commandQueue)) == Replayed(written + Replay(w.commandQueue).sent,
                                            Replay(w.commandQueue).pending, Replay(w.commandQueue).rest)
        invariant !getNext ==> Replay(old(w.commandQueue)) == Replayed(written, command, w.commandQueue)
        decreases |w.commandQueue|, getNext
      {
        if w.commandQueue == [] {
          command := None;
        } else {
          command := Some(w.commandQueue[|w.commandQueue| - 1]);
          w.commandQueue := w.commandQueue[..|w.commandQueue| - 1];
        }
        if command.Some? && command.value.kind == Write {
          written := written + [command.value.text + "\n"];
        } else {
          getNext := false;
        }
      }
    }

    /** Append the received text to a line, starting at `events[pos]`, until a
        newline, the stop flag or the pending read step's text; `complete` is false
        when the events run out first. */
    method ReadLine(events: seq<Event>, pos: nat, command: Option<Command>)
      returns (line: string, next: nat, complete: bool)
      requires pos <= |events|
      modifies state
      ensures pos <= next <= |events|
      ensures Accumulate("", old(state.stopAll), command, events[pos..])
           == Accumulated(line, state.stopAll, next - pos, complete)
      ensures state.testComplete == old(state.testComplete) && state.success == old(state.success)
    {
      line := "";
      next := pos;
      ghost var goal := Accumulate("", state.stopAll, command, events[pos..]);
      while KeepReading(line, state.stopAll, command)
        invariant pos <= next <= |events|
        invariant ReadSoFar(goal, line, state.stopAll, command, events, pos, next)
        invariant state.testComplete == old(state.testComplete) && state.success == old(state.success)
        decreases |events| - next
      {
        if next == |events| {
          return line, next, false;
        }
        ReadSoFarStep(goal, line, state.stopAll, command, events, pos, next);
        line := Take(events[next], line);
        next := next + 1;
      }
      complete := true;
    }

    /** One read: its text joins the line, or another thread's stop is seen. */
    method Take(event: Event, line: string) returns (longer: string)
      modifies state
      ensures longer == line + DataOf(event)
      ensures state.stopAll == (old(state.stopAll) || event.StopRaised?)
      ensures state.testComplete == old(state.testComplete) && state.success == old(state.success)
    {
      match event {
        case Chunk(data) => longer := line + data;
        case StopRaised =>
          longer := line;
          state.Stop();
      }
    }

    /** Block until a watcher thread ends, the stop flag is seen, the timeout
        passes or the user interrupts; every way out raises the stop flag. */
    method BlockingWait(ticks: seq<WaitTick>) returns (exit: WaitExit)
      requires forall k :: 0 <= k < |ticks| ==> |ticks[k].alive| == |threads|
      modifies state
      ensures Waited(state.Flags(), exit) == Wait(old(state.Flags()), ticks)
    {
      var k := 0;
      while k < |ticks|
        invariant 0 <= k <= |ticks|
        invariant Wait(old(state.Flags()), ticks) == Wait(state.Flags(), ticks[k..])
      {
        var tick := ticks[k];
        assert ticks[k..][1..] == ticks[k + 1..];
        // the watcher threads' writes since the previous tick
        match tick.signal {
          case Quiet =>
          case EndStringFound =>
            state.testComplete := true;
            state.Stop();
          case SimulationEnded =>
            state.success := false;
            state.Stop();
        }
        if tick.interrupted {
          state.Stop();
          return Interrupted;
        }
        var i := 0;
        while i < |threads| && tick.alive[i]
          invariant 0 <= i <= |threads|
          invariant forall j :: 0 <= j < i ==> tick.alive[j]
        {
          i := i + 1;
        }
        FirstFinishedIs(tick.alive, i);
        if i < |threads| {
          state.Stop();
          return ThreadFinished(i);
        }
        if state.stopAll {
          return StopObserved;
        }
        if tick.timedOut {
          state.Stop();
          return TimedOut;
        }
        k := k + 1;
      }
      exit := NoMoreTicks;
    }

    /** AND every watcher's verification of its log into `success`, checking all of them. */
    method Test(logs: seq<string>)
      requires |logs| == |watchers|
      modifies state
      ensures state.success == (old(state.success) && AllVerified(watchers, logs))
      ensures state.stopAll == old(state.stopAll) && state.testComplete == old(state.testComplete)
    {
      for i := 0 to |watchers|
        invariant state.success == (old(state.success) && forall j :: 0 <= j < i ==> AllFound(logs[j], watchers[j].verificationStrs))
        invariant state.stopAll == old(state.stopAll) && state.testComplete == old(state.testComplete)
      {
        var ok, found := watchers[i].Verify(logs[i]);
        state.success := state.success && ok;
      }
    }

    /** Run one test: reset `success`, start the model and the watchers, wait,
        shut the model down, verify the logs only if the run kept `success`, and
        return 0 exactly when `success` still holds. A missing watcher list, a
        model that never opens its port or never closes it fail with status 1. */
    method ExecuteTest(modelParams: map<string, string>, modelData: map<string, string>,
                       readyPolls: seq<nat>, ticks: seq<WaitTick>, shutdownPolls: seq<nat>, logs: seq<string>)
      returns (code: int)
      requires |fvpCmd| >= 1 && threads == []
      requires WaitFvpReady <= |readyPolls| && WaitFvpFinish <= |shutdownPolls|
      requires |logs| == |watchers|
      requires forall k :: 0 <= k < |ticks| ==> |ticks[k].alive| == |Threaded(watchers)|
      modifies this, state
      ensures watchers == old(watchers)
      ensures code == 0 || code == 1
      ensures code == 0 <==>
        && |watchers| > 0
        && PortSeen(readyPolls, WaitFvpReady, 0)
        && Wait(old(state.Flags()).(success := true), ticks).flags.success
        && PortSeen(shutdownPolls, WaitFvpFinish, 1)
        && AllVerified(watchers, logs)
    {
      state.success := true;
      if |watchers| == 0 {
        return 1;
      }
      var ready := Start(modelParams, modelData, readyPolls);
      if !ready {
        return 1;
      }
      var exit := BlockingWait(ticks);
      var terminated, checks := WaitIrisServer(shutdownPolls, WaitFvpFinish, 1);
      if !terminated {
        return 1;
      }
      if state.success {
        Test(logs);
      }
      code := if state.success then 0 else 1;
    }
  }

  /** The outcome of one pass, stated through its parts, is the watcher loop's. */
  lemma PassConnects(queue: seq<Command>, getNext: bool, pending: Option<Command>, flags: Flags,
                     stopStr: Option<string>, sysStopStr: string, events: seq<Event>, r: Replayed, acc: Accumulated,
                     getNextAfter: bool, flagsAfter: Flags, stopped: Option<Exit>)
    requires r == ReplayFrom(queue, getNext, pending)
    requires acc == Accumulate("", flags.stopAll, r.pending, events)
    requires !acc.complete ==> stopped == Some(InputExhausted) && flagsAfter == flags.(stopAll := acc.stopAll)
    requires acc.complete ==>
      var v := Classify(acc.line, acc.stopAll, r.pending, stopStr, sysStopStr);
      && stopped == ExitOf(v)
      && flagsAfter == Flagged(v, flags.(stopAll := acc.stopAll))
      && (v.Proceed? ==> getNextAfter == v.advance)
    ensures var t0 := Run(queue, getNext, pending, flags, stopStr, sysStopStr, events);
      stopped.Some? ==> t0 == Trace(r.sent, stopped.value, flagsAfter, r.rest)
    ensures var t0 := Run(queue, getNext, pending, flags, stopStr, sysStopStr, events);
      var t := Run(r.rest, getNextAfter, r.pending, flagsAfter, stopStr, sysStopStr, events[acc.used..]);
      stopped.None? ==> t0 == t.(sent := r.sent + t.sent)
  {
    RunPass(queue, getNext, pending, flags, stopStr, sysStopStr, events, r, acc);
  }

  /** `goal` is what reading from `events[pos..]` yields, given the line and
      stop flag reached after the events before `next`. */
  ghost predicate ReadSoFar(goal: Accumulated, line: string, stopAll: bool, pending: Option<Command>,
                            events: seq<Event>, pos: nat, next: nat)
    requires pos <= next <= |events|
  {
    var a := Accumulate(line, stopAll, pending, events[next..]);
    goal == a.(used := a.used + (next - pos))
  }

  /** One read of the loop: its text joins the line, or it raises the stop flag. */
  lemma ReadSoFarStep(goal: Accumulated, line: string, stopAll: bool, pending: Option<Command>,
                      events: seq<Event>, pos: nat, next: nat)
    requires pos <= next < |events|
    requires KeepReading(line, stopAll, pending)
    requires ReadSoFar(goal, line, stopAll, pending, events, pos, next)
    ensures ReadSoFar(goal, line + DataOf(events[next]), stopAll || events[next].StopRaised?, pending, events, pos, next + 1)
  {
    assert events[next..][1..] == events[next + 1..];
  }

  /** `goal` is the whole run: the lines `sent` so far followed by the run
      from position `pos` in the state reached. */
  ghost predicate RunSoFar(goal: Trace, sent: seq<string>, queue: seq<Command>, getNext: bool,
                           pending: Option<Command>, flags: Flags, stopStr: Option<string>,
                           sysStopStr: string, events: seq<Event>, pos: nat)
  {
    pos <= |events| &&
    var t := Run(queue, getNext, pending, flags, stopStr, sysStopStr, events[pos..]);
    goal == t.(sent := sent + t.sent)
  }

  /** A pass as `Pass` performs it either ends the whole run or leaves the rest
      of the run to the following passes. */
  lemma PassStep(goal: Trace, sent: seq<string>, queue: seq<Command>, getNext: bool, pending: Option<Command>,
                 flags: Flags, stopStr: Option<string>, sysStopStr: string, events: seq<Event>, pos: nat,
                 written: seq<string>, pendingAfter: Option<Command>, rest: seq<Command>, acc: Accumulated,
                 getNextAfter: bool, flagsAfter: Flags, stopped: Option<Exit>, sentAfter: seq<string>, next: nat)
    requires sentAfter == sent + written && next == pos + acc.used
    requires RunSoFar(goal, sent, queue, getNext, pending, flags, stopStr, sysStopStr, events, pos)
    requires Replayed(written, pendingAfter, rest) == ReplayFrom(queue, getNext, pending)
    requires acc == Accumulate("", flags.stopAll, pendingAfter, events[pos..])
    requires !acc.complete ==> stopped == Some(InputExhausted) && flagsAfter == flags.(stopAll := acc.stopAll)
    requires acc.complete ==>
      var v := Classify(acc.line, acc.stopAll, pendingAfter, stopStr, sysStopStr);
      && stopped == ExitOf(v)
      && flagsAfter == Flagged(v, flags.(stopAll := acc.stopAll))
      && (v.Proceed? ==> getNextAfter == v.advance)
    ensures stopped.Some? ==> goal == Trace(sentAfter, stopped.value, flagsAfter, rest)
    ensures stopped.None? ==>
      RunSoFar(goal, sentAfter, rest, getNextAfter, pendingAfter, flagsAfter, stopStr, sysStopStr, events, next)
    ensures stopped.None? && next == pos ==>
      |rest| + (if getNextAfter then 0 else 1) < |queue| + (if getNext then 0 else 1)
  {
    PassEnds(goal, sent, queue, getNext, pending, flags, stopStr, sysStopStr, events, pos, written, pendingAfter, rest, acc, getNextAfter, flagsAfter, stopped, sentAfter, next);
    PassGoesOn(goal, sent, queue, getNext, pending, flags, stopStr, sysStopStr, events, pos, written, pendingAfter, rest, acc, getNextAfter, flagsAfter, stopped, sentAfter, next);
    PassProgress(goal, sent, queue, getNext, pending, flags, stopStr, sysStopStr, events, pos, written, pendingAfter, rest, acc, getNextAfter, flagsAfter, stopped, sentAfter, next);
  }

  /** A pass that stops ends the whole run. */
  lemma PassEnds(goal: Trace, sent: seq<string>, queue: seq<Command>, getNext: bool, pending: Option<Command>,
                 flags: Flags, stopStr: Option<string>, sysStopStr: string, events: seq<Event>, pos: nat,
                 written: seq<string>, pendingAfter: Option<Command>, rest: seq<Command>, acc: Accumulated,
                 getNextAfter: bool, flagsAfter: Flags, stopped: Option<Exit>, sentAfter: seq<string>, next: nat)
    requires sentAfter == sent + written && next == pos + acc.used
    requires RunSoFar(goal, sent, queue, getNext, pending, flags, stopStr, sysStopStr, events, pos)
    requires Replayed(written, pendingAfter, rest) == ReplayFrom(queue, getNext, pending)
    requires acc == Accumulate("", flags.stopAll, pendingAfter, events[pos..])
    requires !acc.complete ==> stopped == Some(InputExhausted) && flagsAfter == flags.(stopAll := acc.stopAll)
    requires acc.complete ==>
      var v := Classify(acc.line, acc.stopAll, pendingAfter, stopStr, sysStopStr);
      && stopped == ExitOf(v)
      && flagsAfter == Flagged(v, flags.(stopAll := acc.stopAll))
      && (v.Proceed? ==> getNextAfter == v.advance)
    ensures stopped.Some? ==> goal == Trace(sentAfter, stopped.value, flagsAfter, rest)
  {
    if stopped.Some? {
      var r := Replayed(written, pendingAfter, rest);
      PassConnects(queue, getNext, pending, flags, stopStr, sysStopStr, events[pos..], r, acc,
                   getNextAfter, flagsAfter, stopped);
      var t0 := Run(queue, getNext, pending, flags, stopStr, sysStopStr, events[pos..]);
      Finished(goal, sent, t0, r.sent);
    }
  }

  /** A pass that goes on leaves the rest of the run to the following passes. */
  lemma PassGoesOn(goal: Trace, sent: seq<string>, queue: seq<Command>, getNext: bool, pending: Option<Command>,
                   flags: Flags, stopStr: Option<string>, sysStopStr: string, events: seq<Event>, pos: nat,
                   written: seq<string>, pendingAfter: Option<Command>, rest: seq<Command>, acc: Accumulated,
                   getNextAfter: bool, flagsAfter: Flags, stopped: Option<Exit>, sentAfter: seq<string>, next: nat)
    requires sentAfter == sent + written && next == pos + acc.used
    requires RunSoFar(goal, sent, queue, getNext, pending, flags, stopStr, sysStopStr, events, pos)
    requires Replayed(written, pendingAfter, rest) == ReplayFrom(queue, getNext, pending)
    requires acc == Accumulate("", flags.stopAll, pendingAfter, events[pos..])
    requires !acc.complete ==> stopped == Some(InputExhausted) && flagsAfter == flags.(stopAll := acc.stopAll)
    requires acc.complete ==>
      var v := Classify(acc.line, acc.stopAll, pendingAfter, stopStr, sysStopStr);
      && stopped == ExitOf(v)
      && flagsAfter == Flagged(v, flags.(stopAll := acc.stopAll))
      && (v.Proceed? ==> getNextAfter == v.advance)
    ensures stopped.None? ==>
      RunSoFar(goal, sentAfter, rest, getNextAfter, pendingAfter, flagsAfter, stopStr, sysStopStr, events, next)
  {
    if stopped.None? {
      var r := Replayed(written, pendingAfter, rest);
      PassConnects(queue, getNext, pending, flags, stopStr, sysStopStr, events[pos..], r, acc,
                   getNextAfter, flagsAfter, stopped);
      var t0 := Run(queue, getNext, pending, flags, stopStr, sysStopStr, events[pos..]);
      assert events[pos..][acc.used..] == events[next..];
      var t := Run(rest, getNextAfter, pendingAfter, flagsAfter, stopStr, sysStopStr, events[next..]);
      Continued(goal, sent, t0, written, t);
    }
  }

  /** A pass that goes on reads an event or takes a step off the queue. */
  lemma PassProgress(goal: Trace, sent: seq<string>, queue: seq<Command>, getNext: bool, pending: Option<Command>,
                     flags: Flags, stopStr: Option<string>, sysStopStr: string, events: seq<Event>, pos: nat,
                     written: seq<string>, pendingAfter: Option<Command>, rest: seq<Command>, acc: Accumulated,
                     getNextAfter: bool, flagsAfter: Flags, stopped: Option<Exit>, sentAfter: seq<string>, next: nat)
    requires sentAfter == sent + written && next == pos + acc.used
    requires RunSoFar(goal, sent, queue, getNext, pending, flags, stopStr, sysStopStr, events, pos)
    requires Replayed(written, pendingAfter, rest) == ReplayFrom(queue, getNext, pending)
    requires acc == Accumulate("", flags.stopAll, pendingAfter, events[pos..])
    requires !acc.complete ==> stopped == Some(InputExhausted) && flagsAfter == flags.(stopAll := acc.stopAll)
    requires acc.complete ==>
      var v := Classify(acc.line, acc.stopAll, pendingAfter, stopStr, sysStopStr);
      && stopped == ExitOf(v)
      && flagsAfter == Flagged(v, flags.(stopAll := acc.stopAll))
      && (v.Proceed? ==> getNextAfter == v.advance)
    ensures stopped.None? && next == pos ==>
      |rest| + (if getNextAfter then 0 else 1) < |queue| + (if getNext then 0 else 1)
  {
    if stopped.None? && next == pos {
      var r := Replayed(written, pendingAfter, rest);
      PassConnects(queue, getNext, pending, flags, stopStr, sysStopStr, events[pos..], r, acc,
                   getNextAfter, flagsAfter, stopped);
    }
  }

  lemma Finished(goal: Trace, sent0: seq<string>, t0: Trace, written: seq<string>)
    requires goal == t0.(sent := sent0 + t0.sent) && t0.sent == written
    ensures goal == t0.(sent := sent0 + written)
  {
  }

  lemma Continued(goal: Trace, sent0: seq<string>, t0: Trace, written: seq<string>, t: Trace)
    requires goal == t0.(sent := sent0 + t0.sent) && t0 == t.(sent := written + t.sent)
    ensures goal == t.(sent := (sent0 + written) + t.sent)
  {
    assert (sent0 + written) + t.sent == sent0 + (written + t.sent);
  }

  /** The first dead thread found by scanning in order is the one FirstFinished names. */
  lemma FirstFinishedIs(alive: seq<bool>, i: nat)
    requires i <= |alive| && (forall j :: 0 <= j < i ==> alive[j]) && (i < |alive| ==> !alive[i])
    ensures FirstFinished(alive) == i
  {
  }

  lemma MergeAllSnoc(base: map<string, string>, maps: seq<map<string, string>>, m: map<string, string>)
    ensures MergeAll(base, maps + [m]) == MergeAll(base, maps) + m
    decreases |maps|
  {
    if maps != [] {
      assert (maps + [m])[1..] == maps[1..] + [m];
      MergeAllSnoc(base + maps[0], maps[1..], m);
    }
  }

  lemma ThreadedSnoc(ws: seq<TelnetWatcher>, w: TelnetWatcher)
    ensures Threaded(ws + [w]) == Threaded(ws) + (if w.port.Some? then [w] else [])
  {
    if ws != [] {
      assert (ws + [w])[1..] == ws[1..] + [w];
      ThreadedSnoc(ws[1..], w);
    }
  }
}
