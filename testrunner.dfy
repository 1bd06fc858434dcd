/** The platform-independent test runner: the run-mode check on the command
    line, the registry of test specifications, and running one test or all of
    them, each in a process of its own whose exit status is given. */
module TestRunner {
  import opened Wrappers
  import opened Testspec

  /** The options every platform's runner accepts. */
  datatype Args = Args(usermode: bool, timeout: int, fvp: Option<string>,
                       list: bool, runTest: Option<string>, runAll: bool)

  /** Why the mode check rejects a command line: help is shown, or the modes
      are reported as mutually exclusive. */
  datatype Rejection = ShowHelp | MutuallyExclusive

  /** `arg is not None`. */
  function Booleanize(arg: Option<string>): (b: bool)
    ensures b <==> arg.Some?
  {
    if arg.Some? then true else false
  }

  /** `reduce(lambda x, y: x ^ y, bs)`: exclusive or folded from the left. */
  function XorReduce(bs: seq<bool>): bool
    requires |bs| >= 1
  {
    if |bs| == 1 then bs[0] else XorReduce(bs[..|bs| - 1]) != bs[|bs| - 1]
  }

  /** How many of `bs` hold. */
  function CountTrue(bs: seq<bool>): (n: nat)
    ensures n <= |bs|
  {
    if bs == [] then 0 else CountTrue(bs[..|bs| - 1]) + (if bs[|bs| - 1] then 1 else 0)
  }

  /** Folding exclusive or over a list is its parity: true iff an odd number hold. */
  lemma {:induction false} XorReduceIsParity(bs: seq<bool>)
    requires |bs| >= 1
    ensures XorReduce(bs) <==> CountTrue(bs) % 2 == 1
    decreases |bs|
  {
    if |bs| > 1 {
      XorReduceIsParity(bs[..|bs| - 1]);
    } else {
      assert bs[..0] == [];
    }
  }

  /** The three run modes selected on the command line. */
  function Modes(args: Args): seq<bool>
  {
    [args.list, args.runAll, Booleanize(args.runTest)]
  }

  /** The fold and the count over the three modes, written out. */
  lemma ModesUnfold(args: Args)
    ensures XorReduce(Modes(args)) == ((args.list != args.runAll) != Booleanize(args.runTest))
    ensures CountTrue(Modes(args))
         == (if args.list then 1 else 0) + (if args.runAll then 1 else 0) + (if args.runTest.Some? then 1 else 0)
  {
    var m := Modes(args);
    var a, b := m[..2][..1], m[..2];
    assert a == [args.list] && a[..0] == [];
    assert CountTrue(a) == (if args.list then 1 else 0);
    assert b == [args.list, args.runAll] && b[..1] == a;
    assert CountTrue(b) == CountTrue(a) + (if args.runAll then 1 else 0);
    assert XorReduce(b) == (args.list != args.runAll);
    assert m[..2] == b;
  }

  /** The mode check of `parseArguments`: no rejection when the exclusive or of
      the three modes holds; otherwise help, or the exclusivity message when all
      three are given. */
  function ModeCheck(args: Args): (r: Option<Rejection>)
    ensures r.None? <==> XorReduce(Modes(args))
  {
    if XorReduce(Modes(args)) then None
    else if !(args.list && args.runAll && Booleanize(args.runTest)) then Some(ShowHelp)
    else Some(MutuallyExclusive)
  }

  /** The check accepts exactly the command lines selecting one mode or all
      three; zero or two modes show help. */
  lemma ModeCheckParity(args: Args)
    ensures ModeCheck(args).None? <==> CountTrue(Modes(args)) == 1 || CountTrue(Modes(args)) == 3
    ensures ModeCheck(args).Some? <==> CountTrue(Modes(args)) == 0 || CountTrue(Modes(args)) == 2
  {
    XorReduceIsParity(Modes(args));
  }

  /** All three modes together pass the check, so the exclusivity message is
      never given: every rejection shows help. */
  lemma ExclusivityMessageUnreachable(args: Args)
    ensures ModeCheck(args) != Some(MutuallyExclusive)
    ensures args.list && args.runAll && args.runTest.Some? ==> ModeCheck(args).None?
  {
    ModesUnfold(args);
  }

  /** Exactly one mode selected always passes. */
  lemma SingleModeAccepted(args: Args)
    requires CountTrue(Modes(args)) == 1
    ensures ModeCheck(args).None?
  {
    XorReduceIsParity(Modes(args));
  }

  /** Registered tests are keyed by their own "name" and have a "description". */
  ghost predicate WellKeyed(tests: map<Value, map<string, Value>>)
  {
    forall n :: n in tests ==> "name" in tests[n] && "description" in tests[n] && tests[n]["name"] == n
  }

  /** A Python dictionary key: lists and dictionaries cannot be hashed. */
  predicate Hashable(v: Value)
  {
    !v.List? && !v.Dict?
  }

  class TestRunner {
    /** The registry, from test name to its specification. */
    var tests: map<Value, map<string, Value>>
    /** Named arguments handed to the platform wrapper's constructor. */
    var fvpWrapperArgs: map<string, Value>
    var list: bool
    var runAll: bool
    var runSingle: Option<string>

    ghost predicate Valid()
      reads this
    {
      WellKeyed(tests)
    }

    constructor ()
      ensures Valid()
      ensures tests == map[] && fvpWrapperArgs == map[]
      ensures !list && !runAll && runSingle.None?
    {
      tests := map[];
      fvpWrapperArgs := map[];
      list := false;
      runAll := false;
      runSingle := None;
    }

    /** Copy the shared options into the wrapper arguments, record the run
        modes, then check that the modes exclude each other. */
    method ParseArguments(args: Args) returns (rejected: Option<Rejection>)
      modifies this
      ensures fvpWrapperArgs == old(fvpWrapperArgs)["usermode" := Bool(args.usermode)]
                                ["fvp_timeout" := Int(args.timeout)]
                                ["fvp_path" := if args.fvp.Some? then Str(args.fvp.value) else Null]
      ensures list == args.list && runAll == args.runAll && runSingle == args.runTest
      ensures tests == old(tests)
      ensures rejected == ModeCheck(args)
      ensures rejected.Some? ==> rejected == Some(ShowHelp)
    {
      fvpWrapperArgs := fvpWrapperArgs["usermode" := Bool(args.usermode)];
      fvpWrapperArgs := fvpWrapperArgs["fvp_timeout" := Int(args.timeout)];
      fvpWrapperArgs := fvpWrapperArgs["fvp_path" := if args.fvp.Some? then Str(args.fvp.value) else Null];
      list := args.list;
      runAll := args.runAll;
      runSingle := args.runTest;
      ExclusivityMessageUnreachable(args);
      rejected := ModeCheck(args);
    }

    /** Store a specification under its name, replacing any earlier one with
        that name; one without "name" or "description" exits with status 1. */
    method RegisterTest(test: map<string, Value>) returns (fault: Option<Fault>)
      requires Valid()
      modifies this
      ensures Valid()
      ensures fault.None? <==> "name" in test && "description" in test && Hashable(test["name"])
      ensures ("name" !in test || "description" !in test) ==> fault == Some(Exit(1))
      ensures "name" in test && "description" in test && !Hashable(test["name"]) ==> fault == Some(TypeError)
      ensures fault.None? ==> tests == old(tests)[test["name"] := test]
      ensures fault.Some? ==> tests == old(tests)
      ensures fvpWrapperArgs == old(fvpWrapperArgs)
    {
      if "name" !in test || "description" !in test {
        return Some(Exit(1));
      }
      if !Hashable(test["name"]) {
        return Some(TypeError);
      }
      tests := tests[test["name"] := test];
      fault := None;
    }

    /** The listing: one entry per registered test, its name to its description. */
    method GetTests() returns (descriptions: map<Value, Value>)
      requires Valid()
      ensures descriptions.Keys == tests.Keys
      ensures forall n :: n in tests ==> descriptions[n] == tests[n]["description"]
    {
      descriptions := map[];
      var remaining := tests.Keys;
      while remaining != {}
        invariant remaining <= tests.Keys
        invariant descriptions.Keys == tests.Keys - remaining
        invariant forall n :: n in descriptions ==> descriptions[n] == tests[n]["description"]
        decreases |remaining|
      {
        var n :| n in remaining;
        var test := tests[n];
        descriptions := descriptions[test["name"] := test["description"]];
        remaining := remaining - {n};
      }
    }

    /** The named arguments a test is launched with: its specification under
        "testspec", then the wrapper arguments, which win on a clash. */
    function LaunchArgs(testname: Value): (kwargs: map<string, Value>)
      requires testname in tests
      reads this
      ensures kwargs.Keys == {"testspec"} + fvpWrapperArgs.Keys
      ensures forall k :: k in fvpWrapperArgs ==> kwargs[k] == fvpWrapperArgs[k]
      ensures "testspec" !in fvpWrapperArgs ==> kwargs["testspec"] == Dict(tests[testname])
    {
      map["testspec" := Dict(tests[testname])] + fvpWrapperArgs
    }

    /** Run one test in its own process; `status` gives the exit status of a
        process launched with the given arguments. An unknown name exits with
        status 1 before anything is launched; a failed test ends the runner with
        the test's status. `halt` is the runner's own exit, if any. */
    method RunTest(testname: Value, status: map<string, Value> -> int) returns (halt: Option<int>)
      ensures testname !in tests ==> halt == Some(1)
      ensures testname in tests ==>
        (halt.None? <==> status(LaunchArgs(testname)) == 0) &&
        (halt.Some? ==> halt.value == status(LaunchArgs(testname)))
    {
      if testname !in tests {
        return Some(1);
      }
      var kwargs := LaunchArgs(testname);
      var code := status(kwargs);
      if code != 0 {
        return Some(code);
      }
      halt := None;
    }

    /** The exit status of a registered test's process. */
    function Status(testname: Value, status: map<string, Value> -> int): int
      requires testname in tests
      reads this
    {
      status(LaunchArgs(testname))
    }

    /** The tests in `ran` were started in that order, each once and each a
        registered one, and `remaining` holds the rest of the registry. */
    ghost predicate Started(ran: seq<Value>, remaining: set<Value>)
      reads this
    {
      && remaining <= tests.Keys
      && (forall n :: n in tests ==> (n in remaining <==> n !in ran))
      && (forall i :: 0 <= i < |ran| ==> ran[i] in tests)
      && (forall i, j :: 0 <= i < j < |ran| ==> ran[i] != ran[j])
    }

    /** Every test in `ran` passed. */
    ghost predicate Passed(ran: seq<Value>, status: map<string, Value> -> int)
      reads this
    {
      forall i :: 0 <= i < |ran| ==> ran[i] in tests && Status(ran[i], status) == 0
    }

    /** Starting a test that has not run yet keeps the bookkeeping. */
    lemma StartedStep(ran: seq<Value>, remaining: set<Value>, n: Value)
      requires Started(ran, remaining) && n in remaining
      ensures Started(ran + [n], remaining - {n})
    {
      forall i, j | 0 <= i < j < |ran + [n]| ensures (ran + [n])[i] != (ran + [n])[j] {
        if j == |ran| {
          assert ran[i] in ran;
        }
      }
    }

    /** A passing test extends the passed prefix. */
    lemma PassedStep(ran: seq<Value>, n: Value, status: map<string, Value> -> int)
      requires Passed(ran, status) && n in tests && Status(n, status) == 0
      ensures Passed(ran + [n], status)
    {
    }

    /** Run the registered tests one after another, in the registry's own
        order, stopping at the first failure with its status. `ran` is the
        order the tests were started in. */
    method RunAllTests(status: map<string, Value> -> int) returns (halt: Option<int>, ran: seq<Value>)
      ensures forall i :: 0 <= i < |ran| ==> ran[i] in tests
      ensures forall i, j :: 0 <= i < j < |ran| ==> ran[i] != ran[j]
      ensures halt.None? ==> (forall n :: n in tests <==> n in ran)
      ensures halt.None? ==> forall i :: 0 <= i < |ran| ==> Status(ran[i], status) == 0
      ensures halt.Some? ==> |ran| > 0 && halt.value == Status(ran[|ran| - 1], status) && halt.value != 0
      ensures halt.Some? ==> forall i :: 0 <= i < |ran| - 1 ==> Status(ran[i], status) == 0
    {
      var remaining := tests.Keys;
      ran := [];
      while remaining != {}
        invariant Started(ran, remaining)
        invariant Passed(ran, status)
        decreases |remaining|
      {
        var n :| n in remaining;
        halt := RunTest(n, status);
        StartedStep(ran, remaining, n);
        if halt.Some? {
          assert (ran + [n])[..|ran|] == ran;
          ran := ran + [n];
          return;
        }
        PassedStep(ran, n, status);
        ran := ran + [n];
        remaining := remaining - {n};
      }
      halt := None;
    }
  }
}
