/** Test specifications as the harness receives them: dictionaries of
    dynamically typed values, the ways reading them aborts the process, and the
    pieces both platform wrappers build from them. */
module Testspec {
  import opened Wrappers
  import opened Watcher

  /** A Python value as it appears in a test specification. */
  datatype Value =
    | Null
    | Bool(b: bool)
    | Int(i: int)
    | Str(s: string)
    | List(items: seq<Value>)
    | Dict(entries: map<string, Value>)

  /** Why reading a specification aborts the process. */
  datatype Fault =
    | KeyError
    | TypeError
    | ValueError
    | IndexError
    | Exit(code: int)

  // ---------------------------------------------------------------------------
  // Reading values the way the platform constructors use them

  /** `spec[key]`. */
  function Lookup(spec: map<string, Value>, key: string): (r: Result<Value, Fault>)
    ensures r.Success? <==> key in spec
    ensures r.Success? ==> r.value == spec[key]
    ensures r.Failure? ==> r.error == KeyError
  {
    if key in spec then Success(spec[key]) else Failure(KeyError)
  }

  /** A one-character string, as iterating or indexing a Python string yields. */
  function Char(c: char): Value
  {
    Str([c])
  }

  /** `v[i]` for a list or a string; on a dictionary it is a lookup of the key
      `i`, which its string keys never match; anything else cannot be indexed. */
  function IndexAt(v: Value, i: nat): (r: Result<Value, Fault>)
    ensures v.List? ==> (r.Success? <==> i < |v.items|)
    ensures v.List? && i < |v.items| ==> r.value == v.items[i]
    ensures v.Str? ==> (r.Success? <==> i < |v.s|)
    ensures v.Str? && i < |v.s| ==> r.value == Str([v.s[i]])
    ensures r.Success? ==> v.List? || v.Str?
    ensures r.Failure? ==> r.error == (if v.List? || v.Str? then IndexError else if v.Dict? then KeyError else TypeError)
  {
    match v
    case List(items) => if i < |items| then Success(items[i]) else Failure(IndexError)
    case Str(s) => if i < |s| then Success(Char(s[i])) else Failure(IndexError)
    case Dict(_) => Failure(KeyError)
    case _ => Failure(TypeError)
  }

  /** `for x in v`: a list yields its items, a string its characters. A
      dictionary would yield its keys in hash order and is not accepted here. */
  function Iterate(v: Value): (r: Result<seq<Value>, Fault>)
    ensures r.Success? <==> v.List? || v.Str?
    ensures v.List? ==> r.value == v.items
    ensures v.Str? ==> |r.value| == |v.s| && forall i :: 0 <= i < |v.s| ==> r.value[i] == Str([v.s[i]])
    ensures r.Failure? ==> r.error == TypeError
  {
    match v
    case List(items) => Success(items)
    case Str(s) => Success(seq(|s|, i requires 0 <= i < |s| => Char(s[i])))
    case _ => Failure(TypeError)
  }

  /** `a, b = v`: exactly two items, or two characters. */
  function Unpack2(v: Value): (r: Result<(Value, Value), Fault>)
    ensures r.Success? <==> (v.List? && |v.items| == 2) || (v.Str? && |v.s| == 2)
    ensures v.List? && |v.items| == 2 ==> r.value == (v.items[0], v.items[1])
    ensures v.Str? && |v.s| == 2 ==> r.value == (Str([v.s[0]]), Str([v.s[1]]))
    ensures r.Failure? ==> r.error == (if v.List? || v.Str? then ValueError else TypeError)
  {
    match v
    case List(items) => if |items| == 2 then Success((items[0], items[1])) else Failure(ValueError)
    case Str(s) => if |s| == 2 then Success((Char(s[0]), Char(s[1]))) else Failure(ValueError)
    case _ => Failure(TypeError)
  }

  /** A value used as text (`name + "_host0.txt"` needs a string). */
  function AsStr(v: Value): (r: Result<string, Fault>)
    ensures r.Success? <==> v.Str?
    ensures r.Success? ==> r.value == v.s
    ensures r.Failure? ==> r.error == TypeError
  {
    if v.Str? then Success(v.s) else Failure(TypeError)
  }

  /** A stop string: `None` or text. */
  function AsStopStr(v: Value): (r: Result<Option<string>, Fault>)
    ensures r.Success? <==> v.Null? || v.Str?
    ensures v.Null? ==> r == Success(None)
    ensures v.Str? ==> r == Success(Some(v.s))
  {
    match v
    case Null => Success(None)
    case Str(s) => Success(Some(s))
    case _ => Failure(TypeError)
  }

  /** The texts of a sequence of values, all of which must be strings. */
  function Texts(items: seq<Value>): (r: Result<seq<string>, Fault>)
    ensures r.Success? <==> forall i :: 0 <= i < |items| ==> items[i].Str?
    ensures r.Success? ==> |r.value| == |items| && forall i :: 0 <= i < |items| ==> r.value[i] == items[i].s
    ensures r.Failure? ==> r.error == TypeError
  {
    if items == [] then Success([])
    else if !items[0].Str? then Failure(TypeError)
    else
      var rest :- Texts(items[1..]);
      Success([items[0].s] + rest)
  }

  /** A list of verification strings: every element iterated must be text. */
  function AsStrings(v: Value): (r: Result<seq<string>, Fault>)
    ensures v.List? ==> r == Texts(v.items)
    ensures !v.List? && !v.Str? ==> r == Failure(TypeError)
  {
    var items :- Iterate(v);
    Texts(items)
  }

  /** `spec[key]` used as a stop string. */
  function StopStrAt(spec: map<string, Value>, key: string): (r: Result<Option<string>, Fault>)
    ensures key !in spec ==> r == Failure(KeyError)
    ensures key in spec ==> r == AsStopStr(spec[key])
  {
    var v :- Lookup(spec, key);
    AsStopStr(v)
  }

  /** `spec[key]` used as a list of verification strings. */
  function StringsAt(spec: map<string, Value>, key: string): (r: Result<seq<string>, Fault>)
    ensures key !in spec ==> r == Failure(KeyError)
    ensures key in spec ==> r == AsStrings(spec[key])
  {
    var v :- Lookup(spec, key);
    AsStrings(v)
  }

  // ---------------------------------------------------------------------------
  // Test-specification merge (`parseTestspec` in both platform wrappers)

  /** A dictionary the source updates in place: the module's default test
      specification, which `parseTestspec` merges the user's entries into and
      then hands out as the wrapper's own test specification. */
  class SpecTable {
    var entries: map<string, Value>

    constructor (entries: map<string, Value>)
      ensures this.entries == entries
    {
      this.entries := entries;
    }

    /** `dict.update`: the argument's entries replace those with equal keys. */
    method Update(m: map<string, Value>)
      modifies this
      ensures entries == Merged(old(entries), m)
    {
      entries := entries + m;
    }
  }

  /** The defaults overridden by the user's entries. */
  function Merged(defaults: map<string, Value>, user: map<string, Value>): (r: map<string, Value>)
    ensures r.Keys == defaults.Keys + user.Keys
    ensures forall k :: k in user ==> r[k] == user[k]
    ensures forall k :: k in defaults && k !in user ==> r[k] == defaults[k]
  {
    defaults + user
  }

  /** Reject a specification without "name" or "commands" (exit status 1);
      otherwise merge it into the defaults, in place. */
  method ParseTestspec(defaults: SpecTable, testspec: map<string, Value>) returns (fault: Option<Fault>)
    modifies defaults
    ensures fault.Some? <==> "name" !in testspec || "commands" !in testspec
    ensures fault.Some? ==> fault.value == Exit(1) && defaults.entries == old(defaults.entries)
    ensures fault.None? ==> defaults.entries == Merged(old(defaults.entries), testspec)
  {
    if "name" !in testspec || "commands" !in testspec {
      return Some(Exit(1));
    }
    defaults.Update(testspec);
    fault := None;
  }

  // ---------------------------------------------------------------------------
  // Watchers built from a specification

  /** The type tag `addCommand` takes for a step kind. */
  function TagOf(k: Kind): (tag: string)
    ensures KindOf(tag) == Some(k)
  {
    match k
    case Read => "r"
    case Write => "w"
  }

  /** One entry of "commands": a (type, text) pair. An unknown type exits with
      status 1, as `addCommand` does. */
  function StepOf(item: Value): (r: Result<Command, Fault>)
    ensures r.Success? ==> Unpack2(item).Success?
    ensures r.Success? ==> var (tag, text) := Unpack2(item).value;
      tag.Str? && KindOf(tag.s) == Some(r.value.kind) && text == Str(r.value.text)
    ensures Unpack2(item).Success? && !(Unpack2(item).value.0.Str? && KindOf(Unpack2(item).value.0.s).Some?)
      ==> r == Failure(Exit(1))
    ensures Unpack2(item).Failure? ==> r == Failure(Unpack2(item).error)
    ensures Unpack2(item).Success? && Unpack2(item).value.0.Str? && KindOf(Unpack2(item).value.0.s).Some? ==>
      r == (if Unpack2(item).value.1.Str?
            then Success(Command(KindOf(Unpack2(item).value.0.s).value, Unpack2(item).value.1.s))
            else Failure(TypeError))
  {
    var (tag, text) :- Unpack2(item);
    if !tag.Str? || KindOf(tag.s).None? then Failure(Exit(1))
    else
      var t :- AsStr(text);
      Success(Command(KindOf(tag.s).value, t))
  }

  /** The steps of all entries, in order; the first bad entry aborts. */
  function StepsOf(items: seq<Value>): (r: Result<seq<Command>, Fault>)
    ensures r.Success? <==> forall i :: 0 <= i < |items| ==> StepOf(items[i]).Success?
    ensures r.Success? ==> |r.value| == |items| && forall i :: 0 <= i < |items| ==> r.value[i] == StepOf(items[i]).value
  {
    if items == [] then Success([])
    else
      var c :- StepOf(items[0]);
      var rest :- StepsOf(items[1..]);
      Success([c] + rest)
  }

  /** The first bad entry decides the fault. */
  lemma {:induction false} StepsOfFirstFault(items: seq<Value>, k: nat)
    requires k < |items| && StepOf(items[k]).Failure?
    requires forall i :: 0 <= i < k ==> StepOf(items[i]).Success?
    ensures StepsOf(items) == Failure(StepOf(items[k]).error)
    decreases k
  {
    if k > 0 {
      StepsOfFirstFault(items[1..], k - 1);
    }
  }

  lemma StepsOfSnoc(items: seq<Value>, item: Value)
    requires StepsOf(items).Success? && StepOf(item).Success?
    ensures StepsOf(items + [item]) == Success(StepsOf(items).value + [StepOf(item).value])
  {
    var r := StepsOf(items + [item]);
    assert forall i :: 0 <= i < |items| ==> (items + [item])[i] == items[i];
    assert (items + [item])[|items|] == item;
    assert r.Success?;
    assert r.value == StepsOf(items).value + [StepOf(item).value];
  }

  lemma StepsOfStops(items: seq<Value>, item: Value)
    requires StepsOf(items).Success? && StepOf(item).Failure?
    ensures StepsOf(items + [item]) == Failure(StepOf(item).error)
  {
    assert forall i :: 0 <= i < |items| ==> (items + [item])[i] == items[i];
    assert (items + [item])[|items|] == item;
    StepsOfFirstFault(items + [item], |items|);
  }

  /** The login sequence queued on a host terminal before the test's own steps:
      wait for the login prompt, type the user name, wait for the shell prompt. */
  function LoginSteps(loginPrompt: string, user: string, shellPrompt: string): seq<Command>
  {
    [Command(Read, loginPrompt), Command(Write, user), Command(Read, shellPrompt)]
  }

  /** The first `i` items are valid steps and follow `before` in pop order. */
  ghost predicate QueuedSoFar(before: seq<Command>, queue: seq<Command>, items: seq<Value>, i: nat)
  {
    && i <= |items|
    && StepsOf(items[..i]).Success?
    && PopOrder(queue) == PopOrder(before) + StepsOf(items[..i]).value
  }

  /** Queuing one more valid step extends the queued prefix. */
  lemma QueuedStep(before: seq<Command>, queue: seq<Command>, next: seq<Command>, items: seq<Value>, i: nat)
    requires QueuedSoFar(before, queue, items, i) && i < |items| && StepOf(items[i]).Success?
    requires PopOrder(next) == PopOrder(queue) + [StepOf(items[i]).value]
    ensures QueuedSoFar(before, next, items, i + 1)
  {
    assert items[..i + 1] == items[..i] + [items[i]];
    StepsOfSnoc(items[..i], items[i]);
  }

  /** A bad item after valid ones is the fault of the whole list. */
  lemma QueuedStops(before: seq<Command>, queue: seq<Command>, items: seq<Value>, i: nat)
    requires QueuedSoFar(before, queue, items, i) && i < |items| && StepOf(items[i]).Failure?
    ensures StepsOf(items) == Failure(StepOf(items[i]).error)
  {
    forall j | 0 <= j < i ensures StepOf(items[j]).Success? {
      assert items[..i][j] == items[j];
    }
    StepsOfFirstFault(items, i);
  }

  /** Queue the test's steps on `w` in order; the first bad entry aborts with
      the queue holding the steps before it. */
  method QueueSteps(w: TelnetWatcher, items: seq<Value>) returns (fault: Option<Fault>)
    modifies w
    ensures fault.None? <==> StepsOf(items).Success?
    ensures fault.Some? ==> StepsOf(items) == Failure(fault.value)
    ensures fault.None? ==> PopOrder(w.commandQueue) == PopOrder(old(w.commandQueue)) + StepsOf(items).value
  {
    assert items[..0] == [];
    for i := 0 to |items|
      invariant QueuedSoFar(old(w.commandQueue), w.commandQueue, items, i)
    {
      var step := StepOf(items[i]);
      if step.Failure? {
        QueuedStops(old(w.commandQueue), w.commandQueue, items, i);
        return Some(step.error);
      }
      ghost var queue := w.commandQueue;
      var ok := w.AddCommand(TagOf(step.value.kind), step.value.text);
      QueuedStep(old(w.commandQueue), queue, w.commandQueue, items, i);
    }
    assert items[..|items|] == items;
    fault := None;
  }

  /** Queue the login sequence on a host terminal: three steps that are always accepted. */
  method QueueLogin(w: TelnetWatcher, loginPrompt: string, user: string, shellPrompt: string)
    modifies w
    ensures PopOrder(w.commandQueue) == PopOrder(old(w.commandQueue)) + LoginSteps(loginPrompt, user, shellPrompt)
  {
    var ok := w.AddCommand("r", loginPrompt);
    ok := w.AddCommand("w", user);
    ok := w.AddCommand("r", shellPrompt);
  }

  /** What a platform constructor gives a watcher. */
  datatype WatcherPlan = WatcherPlan(name: string, termfile: string, stopStr: Option<string>,
                                     verificationStrs: seq<string>, fvpUart: Option<string>,
                                     port: Option<int>, steps: seq<Command>)

  /** `w` is the watcher `p` describes, with `sysStopStr` as its system stop string
      and its queued steps popping in the planned order. */
  predicate Built(w: TelnetWatcher, p: WatcherPlan, sysStopStr: string)
    reads w
  {
    && w.name == p.name + "_watcher" && w.termfile == p.termfile && w.stopStr == p.stopStr
    && w.sysStopStr == sysStopStr && w.verificationStrs == p.verificationStrs
    && w.fvpUart == p.fvpUart && w.port == p.port && PopOrder(w.commandQueue) == p.steps
  }

  /** The model parameter a planned watcher contributes, as `getParameters` gives it. */
  function PlanParameters(p: WatcherPlan): map<string, string>
  {
    if p.fvpUart.Some? then map[p.fvpUart.value := p.termfile] else map[]
  }

  /** A built watcher contributes its plan's parameter. */
  lemma BuiltParameters(w: TelnetWatcher, p: WatcherPlan, sysStopStr: string)
    requires Built(w, p, sysStopStr)
    ensures w.GetParameters() == PlanParameters(p)
  {
  }

  /** Build a watcher that queues no steps. */
  method NewWatcher(p: WatcherPlan, sysStopStr: string) returns (w: TelnetWatcher)
    requires p.steps == []
    ensures fresh(w) && Built(w, p, sysStopStr)
  {
    w := new TelnetWatcher(p.name, p.termfile, p.stopStr, sysStopStr, p.verificationStrs, p.fvpUart, p.port);
  }

  /** Build a host terminal's watcher: the login sequence, then the test's
      steps, queued one `addCommand` at a time. */
  method NewHost(p: WatcherPlan, sysStopStr: string, loginPrompt: string, user: string, shellPrompt: string,
                 items: seq<Value>) returns (w: TelnetWatcher)
    requires StepsOf(items).Success?
    requires p.steps == LoginSteps(loginPrompt, user, shellPrompt) + StepsOf(items).value
    ensures fresh(w) && Built(w, p, sysStopStr)
  {
    w := new TelnetWatcher(p.name, p.termfile, p.stopStr, sysStopStr, p.verificationStrs, p.fvpUart, p.port);
    QueueLogin(w, loginPrompt, user, shellPrompt);
    var fault := QueueSteps(w, items);
  }
}
