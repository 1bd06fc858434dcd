/** A telnet watcher: its configuration, its command queue, and the pure step
    functions that define one watcher loop over a sequence of input events. */
module Watcher {
  import opened Wrappers
  import opened Text

  /** A queued step: wait for text to be read, or write a line. */
  datatype Kind = Read | Write
  datatype Command = Command(kind: Kind, text: string)

  /** The step kind named by an `addCommand` type tag; only "r" and "w" are known. */
  function KindOf(tag: string): (k: Option<Kind>)
    ensures k.Some? <==> tag == "r" || tag == "w"
    ensures k == Some(Read) <==> tag == "r"
  {
    if tag == "r" then Some(Read) else if tag == "w" then Some(Write) else None
  }

  /** The order in which the loop pops steps: the queue is consumed from its end. */
  function PopOrder(queue: seq<Command>): seq<Command>
  {
    Reverse(queue)
  }

  /** Inserting at the front and popping from the back makes the queue first-in first-out. */
  lemma {:induction false} InsertFrontPopsLast(c: Command, queue: seq<Command>)
    ensures PopOrder([c] + queue) == PopOrder(queue) + [c]
  {
    var l, r := PopOrder([c] + queue), PopOrder(queue) + [c];
    assert |l| == |r|;
    forall i | 0 <= i < |l| ensures l[i] == r[i] {
      if i < |queue| {
        assert l[i] == ([c] + queue)[|queue| - i];
      }
    }
  }

  /** A watcher hooked to one UART of the model. Its configuration is fixed at
      construction; only the command queue changes afterwards. */
  class TelnetWatcher {
    const name: string
    const termfile: string
    const stopStr: Option<string>
    const sysStopStr: string
    const verificationStrs: seq<string>
    const fvpUart: Option<string>
    const port: Option<int>
    const host: string
    /** Pending steps; the newest is at index 0 and the loop pops the last one. */
    var commandQueue: seq<Command>

    constructor (name: string, termfile: string, stopStr: Option<string>, sysStopStr: string,
                 verificationStrs: seq<string>, fvpUart: Option<string>, port: Option<int>)
      ensures this.name == name + "_watcher" && this.termfile == termfile
      ensures this.stopStr == stopStr && this.sysStopStr == sysStopStr
      ensures this.verificationStrs == verificationStrs
      ensures this.fvpUart == fvpUart && this.port == port && this.host == "localhost"
      ensures commandQueue == []
    {
      this.name := name + "_watcher";
      this.termfile := termfile;
      this.stopStr := stopStr;
      this.sysStopStr := sysStopStr;
      this.verificationStrs := verificationStrs;
      this.fvpUart := fvpUart;
      this.port := port;
      this.host := "localhost";
      commandQueue := [];
    }

    /** Queue a step of kind `tag` ("r" or "w"). Any other tag is refused and the
        queue is left as it was (the source exits with status 1). */
    method AddCommand(tag: string, text: string) returns (ok: bool)
      modifies this
      ensures ok <==> tag == "r" || tag == "w"
      ensures ok ==> commandQueue == [Command(KindOf(tag).value, text)] + old(commandQueue)
      ensures ok ==> PopOrder(commandQueue) == PopOrder(old(commandQueue)) + [Command(KindOf(tag).value, text)]
      ensures !ok ==> commandQueue == old(commandQueue)
    {
      var kind := KindOf(tag);
      if kind.None? {
        return false;
      }
      commandQueue := [Command(kind.value, text)] + commandQueue;
      InsertFrontPopsLast(Command(kind.value, text), old(commandQueue));
      ok := true;
    }

    /** Check every verification string against the log text, without stopping at
        the first miss; `found` is the per-string report. */
    method Verify(log: string) returns (success: bool, found: seq<bool>)
      ensures |found| == |verificationStrs|
      ensures forall i :: 0 <= i < |found| ==> found[i] == Contains(log, verificationStrs[i])
      ensures success <==> AllFound(log, verificationStrs)
      ensures verificationStrs == [] ==> success
    {
      success := true;
      found := [];
      if |verificationStrs| != 0 {
        for i := 0 to |verificationStrs|
          invariant |found| == i
          invariant forall j :: 0 <= j < i ==> found[j] == Contains(log, verificationStrs[j])
          invariant success <==> forall j :: 0 <= j < i ==> Contains(log, verificationStrs[j])
        {
          var hit := Contains(log, verificationStrs[i]);
          if !hit {
            success := false;
          }
          found := found + [hit];
        }
      }
    }

    /** The model parameter this watcher contributes: its UART's output file is its log file. */
    function GetParameters(): (params: map<string, string>)
      ensures |params| <= 1
      ensures fvpUart.Some? ==> fvpUart.value in params
      ensures forall k :: k in params ==> fvpUart == Some(k) && params[k] == termfile
    {
      if fvpUart.Some? then map[fvpUart.value := termfile] else map[]
    }
  }

  /** Every string of `strs` occurs in `log`. */
  predicate AllFound(log: string, strs: seq<string>)
  {
    forall i :: 0 <= i < |strs| ==> Contains(log, strs[i])
  }

  // ---------------------------------------------------------------------------
  // The watcher loop as functions over a finite sequence of input events.

  /** What one non-blocking read of the telnet session yields: some text, or
      nothing while another party raised the shared stop flag. */
  datatype Event = Chunk(data: string) | StopRaised

  /** The shared run flags as the watcher sees them. */
  datatype Flags = Flags(stopAll: bool, testComplete: bool, success: bool)

  /** Why a watcher loop returned; `InputExhausted` marks the end of the modelled
      input, where the source would keep polling. */
  datatype Exit = Halted | Completed | SystemStopped | InputExhausted

  /** The text a read contributes to the current line. */
  function DataOf(e: Event): string
  {
    if e.Chunk? then e.data else ""
  }

  /** All text received over `events`, in order. */
  function Received(events: seq<Event>): string
  {
    if events == [] then "" else DataOf(events[0]) + Received(events[1..])
  }

  /** Some event of `events` raised the stop flag. */
  predicate StopIn(events: seq<Event>)
  {
    exists i :: 0 <= i < |events| && events[i].StopRaised?
  }

  /** The result of popping steps: the lines written, the step left pending and the remaining queue. */
  datatype Replayed = Replayed(sent: seq<string>, pending: Option<Command>, rest: seq<Command>)

  /** Pop steps off the end of the queue, writing each write step, until a read
      step (left pending) or an empty queue (nothing pending). */
  function Replay(queue: seq<Command>): (r: Replayed)
    ensures |r.rest| <= |queue|
    ensures r.pending.Some? ==> |r.rest| < |queue| && r.pending.value.kind == Read
  {
    if queue == [] then Replayed([], None, [])
    else
      var c := queue[|queue| - 1];
      match c.kind
      case Write =>
        var r := Replay(queue[..|queue| - 1]);
        Replayed([c.text + "\n"] + r.sent, r.pending, r.rest)
      case Read =>
        Replayed([], Some(c), queue[..|queue| - 1])
  }

  /** The start of a pass: pop steps if the previous pass asked for it,
      otherwise keep the pending step and the queue. */
  function ReplayFrom(queue: seq<Command>, getNext: bool, pending: Option<Command>): Replayed
  {
    if getNext then Replay(queue) else Replayed([], pending, queue)
  }

  /** Replay pops from the end of the queue exactly the leading write steps in pop
      order, writing each as its text plus a newline, then the first read step if any. */
  lemma {:induction false} ReplayTakesLeadingWrites(queue: seq<Command>)
    ensures var r := Replay(queue);
      && r.rest == queue[..|r.rest|]
      && |r.sent| <= |queue|
      && (forall i :: 0 <= i < |r.sent| ==>
            PopOrder(queue)[i].kind == Write && r.sent[i] == PopOrder(queue)[i].text + "\n")
      && (r.pending.Some? ==> |queue| - |r.rest| == |r.sent| + 1 && PopOrder(queue)[|r.sent|] == r.pending.value)
      && (r.pending.None? ==> |r.sent| == |queue| && r.rest == [])
  {
    if queue != [] {
      var c := queue[|queue| - 1];
      var init := queue[..|queue| - 1];
      PopOrderLast(queue);
      if c.kind == Write {
        ReplayTakesLeadingWrites(init);
        var r := Replay(init);
        assert init[..|r.rest|] == queue[..|r.rest|];
        var p := PopOrder(queue);
        var s := Replay(queue).sent;
        assert s == [c.text + "\n"] + r.sent && p == [c] + PopOrder(init);
        forall i | 0 <= i < |s|
          ensures p[i].kind == Write && s[i] == p[i].text + "\n"
        {
          if i > 0 {
            assert s[i] == r.sent[i - 1] && p[i] == PopOrder(init)[i - 1];
          }
        }
      }
    }
  }

  /** The pending read step, if any, has its text in `line`. */
  predicate ReadSatisfied(pending: Option<Command>, line: string)
  {
    pending.Some? && pending.value.kind == Read && Contains(line, pending.value.text)
  }

  /** The condition of the read loop: no newline yet, no stop, pending read not yet seen. */
  predicate KeepReading(line: string, stopAll: bool, pending: Option<Command>)
  {
    '\n' !in line && !stopAll && !ReadSatisfied(pending, line)
  }

  /** The line accumulated, the stop flag afterwards, how many events were used,
      and whether the loop ended (false: the input ran out first). */
  datatype Accumulated = Accumulated(line: string, stopAll: bool, used: nat, complete: bool)

  /** Append received text to `line` while the read loop's condition holds. */
  function Accumulate(line: string, stopAll: bool, pending: Option<Command>, events: seq<Event>): (r: Accumulated)
    ensures r.used <= |events|
    ensures r.used == 0 ==> r.line == line && r.stopAll == stopAll
    ensures !r.complete ==> KeepReading(r.line, r.stopAll, pending)
    decreases |events|
  {
    if !KeepReading(line, stopAll, pending) then Accumulated(line, stopAll, 0, true)
    else if events == [] then Accumulated(line, stopAll, 0, false)
    else
      var r := Accumulate(line + DataOf(events[0]), stopAll || events[0].StopRaised?, pending, events[1..]);
      r.(used := r.used + 1)
  }

  /** The first `m + 1` events are the first event followed by the next `m`. */
  lemma PrefixCons(events: seq<Event>, m: nat)
    requires m < |events|
    ensures Received(events[..m + 1]) == DataOf(events[0]) + Received(events[1..][..m])
    ensures StopIn(events[..m + 1]) == (events[0].StopRaised? || StopIn(events[1..][..m]))
  {
    assert events[..m + 1][1..] == events[1..][..m];
    assert events[..m + 1][0] == events[0];
    if StopIn(events[..m + 1]) && !events[0].StopRaised? {
      var i :| 0 <= i < m + 1 && events[..m + 1][i].StopRaised?;
      assert events[1..][..m][i - 1].StopRaised?;
    }
  }

  /** The line read is exactly the text received over the events used, and the
      stop flag is raised if one of them raised it. */
  lemma {:induction false} AccumulateReceived(line: string, stopAll: bool, pending: Option<Command>, events: seq<Event>)
    ensures var r := Accumulate(line, stopAll, pending, events);
      && r.line == line + Received(events[..r.used])
      && r.stopAll == (stopAll || StopIn(events[..r.used]))
    decreases |events|
  {
    if !KeepReading(line, stopAll, pending) || events == [] {
      assert events[..0] == [];
    } else {
      var e := events[0];
      AccumulateReceived(line + DataOf(e), stopAll || e.StopRaised?, pending, events[1..]);
      var r' := Accumulate(line + DataOf(e), stopAll || e.StopRaised?, pending, events[1..]);
      PrefixCons(events, r'.used);
      var rest := Received(events[1..][..r'.used]);
      assert (line + DataOf(e)) + rest == line + (DataOf(e) + rest);
    }
  }

  /** Reading ends either where the loop's condition fails or at the end of the input. */
  lemma {:induction false} AccumulateEnds(line: string, stopAll: bool, pending: Option<Command>, events: seq<Event>)
    ensures var r := Accumulate(line, stopAll, pending, events);
      && (r.complete ==> !KeepReading(r.line, r.stopAll, pending))
      && (!r.complete ==> r.used == |events|)
    decreases |events|
  {
    if KeepReading(line, stopAll, pending) && events != [] {
      var e := events[0];
      AccumulateEnds(line + DataOf(e), stopAll || e.StopRaised?, pending, events[1..]);
    }
  }

  /** Reading stops at the first point where a newline, the stop flag or the
      pending read's text is present: the loop's condition held at every earlier point. */
  lemma {:induction false} AccumulateStopsAtFirstMatch(line: string, stopAll: bool, pending: Option<Command>, events: seq<Event>)
    ensures var r := Accumulate(line, stopAll, pending, events);
      forall m :: 0 <= m < r.used ==>
        KeepReading(line + Received(events[..m]), stopAll || StopIn(events[..m]), pending)
    decreases |events|
  {
    var r := Accumulate(line, stopAll, pending, events);
    if KeepReading(line, stopAll, pending) && events != [] {
      var e := events[0];
      var line' := line + DataOf(e);
      var stop' := stopAll || e.StopRaised?;
      AccumulateStopsAtFirstMatch(line', stop', pending, events[1..]);
      assert events[..0] == [];
      assert line + Received(events[..0]) == line;
      assert !StopIn(events[..0]);
      forall m | 0 <= m < r.used
        ensures KeepReading(line + Received(events[..m]), stopAll || StopIn(events[..m]), pending)
      {
        if m > 0 {
          PrefixCons(events, m - 1);
          assert line + Received(events[..m]) == line' + Received(events[1..][..m - 1]);
        }
      }
    }
  }

  /** How one pass of the loop ends once the line is read. */
  datatype Verdict = Halt | Proceed(advance: bool) | EndFound | SysStopFound

  /** Classify a read line in the source's order: the stop flag, then the test's stop
      string, then the system stop string; otherwise carry on, advancing past the
      pending read step only when its text is in the line. */
  function Classify(line: string, stopAll: bool, pending: Option<Command>,
                    stopStr: Option<string>, sysStopStr: string): Verdict
  {
    if stopAll then Halt
    else if stopStr.Some? && Contains(line, stopStr.value) then EndFound
    else if Contains(line, sysStopStr) then SysStopFound
    else Proceed(ReadSatisfied(pending, line))
  }

  /** The outcome of a watcher loop: lines written, why it returned, the shared
      flags afterwards and what is left of its queue. */
  datatype Trace = Trace(sent: seq<string>, exit: Exit, flags: Flags, queue: seq<Command>)

  /** The watcher loop from a given state: `getNext` says whether to pop steps
      first, `pending` is the step kept otherwise. */
  function Run(queue: seq<Command>, getNext: bool, pending: Option<Command>, flags: Flags,
               stopStr: Option<string>, sysStopStr: string, events: seq<Event>): (t: Trace)
    decreases |events|, |queue| + (if getNext then 0 else 1)
  {
    var r := ReplayFrom(queue, getNext, pending);
    var acc := Accumulate("", flags.stopAll, r.pending, events);
    var f := flags.(stopAll := acc.stopAll);
    if !acc.complete then Trace(r.sent, InputExhausted, f, r.rest)
    else
      match Classify(acc.line, acc.stopAll, r.pending, stopStr, sysStopStr)
      case Halt => Trace(r.sent, Halted, f, r.rest)
      case EndFound => Trace(r.sent, Completed, f.(testComplete := true, stopAll := true), r.rest)
      case SysStopFound => Trace(r.sent, SystemStopped, f.(success := false, stopAll := true), r.rest)
      case Proceed(advance) =>
        assert acc.used == 0 ==> advance && (getNext ==> |r.rest| < |queue|);
        var t := Run(r.rest, advance, r.pending, f, stopStr, sysStopStr, events[acc.used..]);
        t.(sent := r.sent + t.sent)
  }

  /** The shared flags after a verdict on a line. */
  function Flagged(v: Verdict, f: Flags): Flags
  {
    match v
    case EndFound => f.(testComplete := true, stopAll := true)
    case SysStopFound => f.(success := false, stopAll := true)
    case _ => f
  }

  /** The exit a verdict takes, if it stops the loop. */
  function ExitOf(v: Verdict): Option<Exit>
  {
    match v
    case Halt => Some(Halted)
    case EndFound => Some(Completed)
    case SysStopFound => Some(SystemStopped)
    case Proceed(_) => None
  }

  /** One pass of the watcher loop from a given state: the exit it takes, or
      the next pass it hands over to, which starts where the line ended. */
  lemma RunPass(queue: seq<Command>, getNext: bool, pending: Option<Command>, flags: Flags,
                stopStr: Option<string>, sysStopStr: string, events: seq<Event>, r: Replayed, acc: Accumulated)
    requires r == ReplayFrom(queue, getNext, pending)
    requires acc == Accumulate("", flags.stopAll, r.pending, events)
    ensures var run := Run(queue, getNext, pending, flags, stopStr, sysStopStr, events);
      var f := flags.(stopAll := acc.stopAll);
      var v := Classify(acc.line, acc.stopAll, r.pending, stopStr, sysStopStr);
      && (!acc.complete ==> run == Trace(r.sent, InputExhausted, f, r.rest))
      && (acc.complete && ExitOf(v).Some? ==> run == Trace(r.sent, ExitOf(v).value, Flagged(v, f), r.rest))
      && (acc.complete && v.Proceed? ==>
            var t := Run(r.rest, v.advance, r.pending, f, stopStr, sysStopStr, events[acc.used..]);
            run == t.(sent := r.sent + t.sent))
  {
    RunPassExhausted(queue, getNext, pending, flags, stopStr, sysStopStr, events, r, acc);
    RunPassStops(queue, getNext, pending, flags, stopStr, sysStopStr, events, r, acc);
    RunPassProceeds(queue, getNext, pending, flags, stopStr, sysStopStr, events, r, acc);
  }

  /** A pass whose input runs out ends the run. */
  lemma RunPassExhausted(queue: seq<Command>, getNext: bool, pending: Option<Command>, flags: Flags,
                         stopStr: Option<string>, sysStopStr: string, events: seq<Event>, r: Replayed, acc: Accumulated)
    requires r == ReplayFrom(queue, getNext, pending)
    requires acc == Accumulate("", flags.stopAll, r.pending, events)
    ensures !acc.complete ==>
      Run(queue, getNext, pending, flags, stopStr, sysStopStr, events)
        == Trace(r.sent, InputExhausted, flags.(stopAll := acc.stopAll), r.rest)
  {
  }

  /** A pass whose verdict stops the loop ends the run. */
  lemma RunPassStops(queue: seq<Command>, getNext: bool, pending: Option<Command>, flags: Flags,
                     stopStr: Option<string>, sysStopStr: string, events: seq<Event>, r: Replayed, acc: Accumulated)
    requires r == ReplayFrom(queue, getNext, pending)
    requires acc == Accumulate("", flags.stopAll, r.pending, events)
    ensures var v := Classify(acc.line, acc.stopAll, r.pending, stopStr, sysStopStr);
      acc.complete && ExitOf(v).Some? ==>
        Run(queue, getNext, pending, flags, stopStr, sysStopStr, events)
          == Trace(r.sent, ExitOf(v).value, Flagged(v, flags.(stopAll := acc.stopAll)), r.rest)
  {
  }

  /** A pass whose verdict goes on leaves the rest of the run to the next pass. */
  lemma RunPassProceeds(queue: seq<Command>, getNext: bool, pending: Option<Command>, flags: Flags,
                        stopStr: Option<string>, sysStopStr: string, events: seq<Event>, r: Replayed, acc: Accumulated)
    requires r == ReplayFrom(queue, getNext, pending)
    requires acc == Accumulate("", flags.stopAll, r.pending, events)
    ensures var v := Classify(acc.line, acc.stopAll, r.pending, stopStr, sysStopStr);
      acc.complete && v.Proceed? ==>
        var t := Run(r.rest, v.advance, r.pending, flags.(stopAll := acc.stopAll), stopStr, sysStopStr, events[acc.used..]);
        Run(queue, getNext, pending, flags, stopStr, sysStopStr, events) == t.(sent := r.sent + t.sent)
  {
  }

  // ---------------------------------------------------------------------------
  // Properties of the watcher loop.

  /** The lines a sequence of steps writes: one per write step, its text plus a newline. */
  function WriteLines(steps: seq<Command>): seq<string>
  {
    if steps == [] then []
    else (if steps[0].kind == Write then [steps[0].text + "\n"] else []) + WriteLines(steps[1..])
  }

  lemma {:induction false} WriteLinesAppend(a: seq<Command>, b: seq<Command>)
    ensures WriteLines(a + b) == WriteLines(a) + WriteLines(b)
    decreases |a|
  {
    if a == [] {
      assert a + b == b;
    } else {
      assert (a + b)[0] == a[0];
      assert (a + b)[1..] == a[1..] + b;
      WriteLinesAppend(a[1..], b);
    }
  }

  /** Popping down to `rest` and then down to `left` writes what popping straight down to `left` writes. */
  lemma PopsCompose(queue: seq<Command>, rest: seq<Command>, left: seq<Command>)
    requires |left| <= |rest| <= |queue|
    requires rest == queue[..|rest|] && left == rest[..|left|]
    ensures left == queue[..|left|]
    ensures WriteLines(PopOrder(queue)[..|queue| - |left|])
         == WriteLines(PopOrder(queue)[..|queue| - |rest|]) + WriteLines(PopOrder(rest)[..|rest| - |left|])
  {
    var n, m := |queue| - |rest|, |rest| - |left|;
    PopOrderPrefix(queue, |rest|);
    assert PopOrder(queue)[..n] + PopOrder(rest)[..m] == PopOrder(queue)[..n + m];
    WriteLinesAppend(PopOrder(queue)[..n], PopOrder(rest)[..m]);
  }

  /** The last element of the queue is popped first, then the rest in pop order. */
  lemma PopOrderLast(queue: seq<Command>)
    requires queue != []
    ensures PopOrder(queue) == [queue[|queue| - 1]] + PopOrder(queue[..|queue| - 1])
  {
  }

  /** Popping from a prefix of the queue continues where popping the whole queue left off. */
  lemma PopOrderPrefix(queue: seq<Command>, k: nat)
    requires k <= |queue|
    ensures PopOrder(queue[..k]) == PopOrder(queue)[|queue| - k..]
  {
  }

  /** What Replay writes is exactly the write lines of the steps it pops. */
  lemma {:induction false} ReplaySentIsWriteLines(queue: seq<Command>)
    ensures var r := Replay(queue);
      r.rest == queue[..|r.rest|] && r.sent == WriteLines(PopOrder(queue)[..|queue| - |r.rest|])
  {
    if queue != [] {
      var c := queue[|queue| - 1];
      var init := queue[..|queue| - 1];
      PopOrderLast(queue);
      match c.kind
      case Write =>
        ReplaySentIsWriteLines(init);
        var r := Replay(init);
        assert init[..|r.rest|] == queue[..|r.rest|];
        assert PopOrder(queue)[..|queue| - |r.rest|] == [c] + PopOrder(init)[..|init| - |r.rest|];
      case Read =>
        assert PopOrder(queue)[..1] == [c];
        assert WriteLines([c]) == [] by { assert [c][1..] == []; }
    }
  }

  /** One pass that popped down to `rest` and wrote `sent`, followed by the rest of
      the loop, writes the write lines of everything popped. */
  lemma PopsThenRun(queue: seq<Command>, rest: seq<Command>, sent: seq<string>, t: Trace)
    requires |rest| <= |queue| && rest == queue[..|rest|]
    requires sent == WriteLines(PopOrder(queue)[..|queue| - |rest|])
    requires WritesInPopOrder(rest, t)
    ensures WritesInPopOrder(queue, t.(sent := sent + t.sent))
  {
    PopsCompose(queue, rest, t.queue);
  }

  lemma ReplayFromInPopOrder(queue: seq<Command>, getNext: bool, pending: Option<Command>)
    ensures var r := ReplayFrom(queue, getNext, pending);
      |r.rest| <= |queue| && r.rest == queue[..|r.rest|] && r.sent == WriteLines(PopOrder(queue)[..|queue| - |r.rest|])
  {
    if getNext {
      ReplaySentIsWriteLines(queue);
    } else {
      assert PopOrder(queue)[..0] == [];
    }
  }

  /** The loop's outcome `t` leaves a prefix of `queue` and wrote exactly the write
      steps among those it popped, in pop order. */
  predicate WritesInPopOrder(queue: seq<Command>, t: Trace)
  {
    |t.queue| <= |queue| && t.queue == queue[..|t.queue|]
    && t.sent == WriteLines(PopOrder(queue)[..|queue| - |t.queue|])
  }

  /** The watcher writes, in order, exactly the write steps among the steps it has
      popped, and those are the steps added first: what is left is a prefix of the queue. */
  lemma {:induction false} RunWritesInPopOrder(queue: seq<Command>, getNext: bool, pending: Option<Command>,
                                                flags: Flags, stopStr: Option<string>, sysStopStr: string,
                                                events: seq<Event>)
    requires !getNext ==> pending.None? || pending.value.kind == Read
    ensures WritesInPopOrder(queue, Run(queue, getNext, pending, flags, stopStr, sysStopStr, events))
    decreases |events|, |queue| + (if getNext then 0 else 1), 1
  {
    var r := ReplayFrom(queue, getNext, pending);
    var acc := Accumulate("", flags.stopAll, r.pending, events);
    ReplayFromInPopOrder(queue, getNext, pending);
    RunPass(queue, getNext, pending, flags, stopStr, sysStopStr, events, r, acc);
    if acc.complete && Classify(acc.line, acc.stopAll, r.pending, stopStr, sysStopStr).Proceed? {
      ProceedWritesInPopOrder(queue, getNext, pending, flags, stopStr, sysStopStr, events);
    }
  }

  /** The inductive step of RunWritesInPopOrder: a pass that goes on. */
  lemma {:induction false} ProceedWritesInPopOrder(queue: seq<Command>, getNext: bool, pending: Option<Command>,
                                                    flags: Flags, stopStr: Option<string>, sysStopStr: string,
                                                    events: seq<Event>)
    requires !getNext ==> pending.None? || pending.value.kind == Read
    requires var r := ReplayFrom(queue, getNext, pending);
      var acc := Accumulate("", flags.stopAll, r.pending, events);
      acc.complete && Classify(acc.line, acc.stopAll, r.pending, stopStr, sysStopStr).Proceed?
    ensures WritesInPopOrder(queue, Run(queue, getNext, pending, flags, stopStr, sysStopStr, events))
    decreases |events|, |queue| + (if getNext then 0 else 1), 0
  {
    var r := ReplayFrom(queue, getNext, pending);
    var acc := Accumulate("", flags.stopAll, r.pending, events);
    var f := flags.(stopAll := acc.stopAll);
    var v := Classify(acc.line, acc.stopAll, r.pending, stopStr, sysStopStr);
    ReplayFromInPopOrder(queue, getNext, pending);
    var t := Run(r.rest, v.advance, r.pending, f, stopStr, sysStopStr, events[acc.used..]);
    assert WritesInPopOrder(r.rest, t) by {
      assert acc.used == 0 ==> v.advance && (getNext ==> |r.rest| < |queue|);
      RunWritesInPopOrder(r.rest, v.advance, r.pending, f, stopStr, sysStopStr, events[acc.used..]);
    }
    PopsThenRun(queue, r.rest, r.sent, t);
    assert Run(queue, getNext, pending, flags, stopStr, sysStopStr, events) == t.(sent := r.sent + t.sent) by {
      RunPass(queue, getNext, pending, flags, stopStr, sysStopStr, events, r, acc);
    }
  }

  /** The loop never clears the stop flag and returns with it set unless the input
      ran out; it sets `testComplete` only on completion and clears `success` only
      on a system stop; started with the flag set, it returns at once and changes nothing. */
  lemma {:induction false} RunFlags(queue: seq<Command>, getNext: bool, pending: Option<Command>,
                                     flags: Flags, stopStr: Option<string>, sysStopStr: string,
                                     events: seq<Event>)
    ensures var t := Run(queue, getNext, pending, flags, stopStr, sysStopStr, events);
      && (t.flags.stopAll <==> t.exit != InputExhausted)
      && t.flags.testComplete == (flags.testComplete || t.exit == Completed)
      && t.flags.success == (flags.success && t.exit != SystemStopped)
      && (flags.stopAll ==> t.exit == Halted && t.flags == flags)
    decreases |events|, |queue| + (if getNext then 0 else 1)
  {
    var r := ReplayFrom(queue, getNext, pending);
    var acc := Accumulate("", flags.stopAll, r.pending, events);
    var f := flags.(stopAll := acc.stopAll);
    if acc.complete {
      match Classify(acc.line, acc.stopAll, r.pending, stopStr, sysStopStr)
      case Proceed(advance) =>
        assert acc.used == 0 ==> advance && (getNext ==> |r.rest| < |queue|);
        RunFlags(r.rest, advance, r.pending, f, stopStr, sysStopStr, events[acc.used..]);
      case _ =>
    }
  }

  /** If the stop flag is set when a line ends, the loop returns without touching
      `testComplete` or `success`, even when the line holds a stop string. */
  lemma StopFlagBeatsStopStrings(queue: seq<Command>, getNext: bool, pending: Option<Command>,
                                 flags: Flags, stopStr: Option<string>, sysStopStr: string,
                                 events: seq<Event>)
    requires var r := ReplayFrom(queue, getNext, pending);
      var acc := Accumulate("", flags.stopAll, r.pending, events);
      acc.complete && acc.stopAll
    ensures var t := Run(queue, getNext, pending, flags, stopStr, sysStopStr, events);
      t.exit == Halted && t.flags == flags.(stopAll := true)
  {
  }

  /** A line holding the test's stop string completes the test, also when it holds
      the system stop string: completion is checked first, and `success` is kept. */
  lemma EndStringBeatsSystemStop(queue: seq<Command>, getNext: bool, pending: Option<Command>,
                                 flags: Flags, stopStr: Option<string>, sysStopStr: string,
                                 events: seq<Event>)
    requires var r := ReplayFrom(queue, getNext, pending);
      var acc := Accumulate("", flags.stopAll, r.pending, events);
      acc.complete && !acc.stopAll && stopStr.Some? && Contains(acc.line, stopStr.value)
    ensures var t := Run(queue, getNext, pending, flags, stopStr, sysStopStr, events);
      t.exit == Completed && t.flags == flags.(stopAll := true, testComplete := true)
  {
  }

  /** A line holding only the system stop string marks the run failed and stops it. */
  lemma SystemStopFails(queue: seq<Command>, getNext: bool, pending: Option<Command>,
                        flags: Flags, stopStr: Option<string>, sysStopStr: string,
                        events: seq<Event>)
    requires var r := ReplayFrom(queue, getNext, pending);
      var acc := Accumulate("", flags.stopAll, r.pending, events);
      && acc.complete && !acc.stopAll && Contains(acc.line, sysStopStr)
      && (stopStr.None? || !Contains(acc.line, stopStr.value))
    ensures var t := Run(queue, getNext, pending, flags, stopStr, sysStopStr, events);
      t.exit == SystemStopped && t.flags == flags.(stopAll := true, success := false)
  {
  }
}
