# Arm FVP test harness — a Dafny model

These scripts drive an Arm Fixed Virtual Platform (FVP) model through an
automated test. A platform wrapper (Corstone-700 or Corstone-500) takes a
test specification and builds one *telnet watcher* per UART of the model.
It merges the platform's image parameters with the watchers' UART log
parameters into the model's command line, then starts the model. One
thread per watcher then runs the *watcher loop*. The loop replays the
queued steps: it writes each write step, then reads until a line ends, the
pending read step's text shows up, or the shared stop flag is raised. It
then classifies the line: the stop flag wins, then the test's own stop
string (the test completed), then the model's own "simulation stopped"
message (the run failed). The wrapper waits for a watcher to finish, for
the stop flag or for a timeout. It then shuts the model down, checks each
watcher's log for its verification strings, and returns 0 or 1. A test
runner registers test specifications, accepts a command line that selects an
odd number of the three run modes (an exclusive-or reduction, which also lets
all three through), and runs one test or all of them, each in a process of
its own. A small utility centres titles in 80-column banners.

The model has one module per source file, plus two shared ones:

- `Wrappers`: Option and Result.
- `Text`: substring search, Python slicing, `str()` of a natural number.

The other modules map to the source as follows:

| module | source file |
|---|---|
| `Utils` | `utils.py` |
| `Watcher` | the `TelnetWatcher` class, and the pure step functions of the watcher loop in `fvp_wrapper.py` |
| `FvpWrapper` | the rest of `fvp_wrapper.py`: the shared run flags (`RunState`), parameter merging and the command line, the waits and polls, and the `FvpWrapper` class |
| `Testspec` | the dynamic values of a test specification, their merge with a platform's defaults, and turning "commands" into queued steps |
| `TestRunner` | `testrunner.py` |
| `Corstone700`, `Corstone500` | the two platform wrappers |

Each watcher loop is modelled twice.

- `Watcher.Run` is a pure function over a queue and a finite sequence of
  read events. The properties are proved about it.
- `FvpWrapper.FvpWrapper.WatcherLoop` is the imperative loop over the
  watcher's queue and the shared `RunState`. It is proved to produce
  exactly what `Run` gives.

Exits of the process (`sys.exit`, an uncaught exception) are results:

- `Testspec.Fault` during construction;
- `Option<int>` in the test runner;
- the returned status of `ExecuteTest`.

## Model

| member | source | states |
|---|---|---|
| Utils.Header1 | iot/scripts/test/utils.py:12-16 | the line is the left pad of `=` (the floor count, none if negative), a space, the title, a space and the right pad of `=` (the ceiling count, none if negative); a title of at most 78 characters gives an 80-character line, a longer one only the title framed by single spaces |
| Utils.PadsBalanced | iot/scripts/test/utils.py:13-15 | the left pad is the floor and the right pad the ceiling of half the free width: they differ by at most one, they are equal exactly for even title lengths, and pads plus spaces plus title make 80 |
| Utils.Header0 | iot/scripts/test/utils.py:18-21 | three lines: an 80-character rule of `=`, the `printHeader1` line, and the same rule again |
| Watcher.KindOf | iot/scripts/test/fvp_wrapper.py:203-206 | only the tags "r" and "w" name a step kind; "r" is a read and "w" a write |
| Watcher.InsertFrontPopsLast | iot/scripts/test/fvp_wrapper.py:207 | inserting at index 0 and popping from the end is first-in first-out: the new step is popped after every step already queued |
| Watcher.TelnetWatcher.constructor | iot/scripts/test/fvp_wrapper.py:101-144 | the name gets the "_watcher" suffix, the host is "localhost", the queue starts empty, and every other setting is stored as given |
| Watcher.TelnetWatcher.AddCommand | iot/scripts/test/fvp_wrapper.py:202-207 | an unknown tag is refused (the process exits) and leaves the queue unchanged; otherwise the step goes to the front and is popped after all earlier steps |
| Watcher.TelnetWatcher.Verify | iot/scripts/test/fvp_wrapper.py:181-200 | every verification string is checked, none skipped; the result holds iff each one occurs in the log, and always when there are none |
| Watcher.TelnetWatcher.GetParameters | iot/scripts/test/fvp_wrapper.py:209-212 | no parameter without a UART; otherwise the single entry from the UART parameter to the log file |
| Watcher.Replay | iot/scripts/test/fvp_wrapper.py:361-371 | popping never grows the queue; a step left pending is a read step taken off the queue |
| Watcher.ReplayTakesLeadingWrites | iot/scripts/test/fvp_wrapper.py:361-371 | replay pops the leading write steps in pop order, writing each text plus a newline, and stops at the first read step (left pending) or at an empty queue (nothing pending); what is left is a prefix of the queue |
| Watcher.ReplaySentIsWriteLines | iot/scripts/test/fvp_wrapper.py:361-371 | the lines written are exactly the write lines of the steps popped, in pop order |
| Watcher.Accumulate | iot/scripts/test/fvp_wrapper.py:375-382 | reading uses at most the events given; with none used the line and flag are unchanged; reading that runs out of input still wants more |
| Watcher.AccumulateReceived | iot/scripts/test/fvp_wrapper.py:375-382 | the line read is the start line followed by all text received over the events used, and the stop flag is set iff it was set or some event used raised it |
| Watcher.AccumulateEnds | iot/scripts/test/fvp_wrapper.py:376-381 | reading ends where a newline, the stop flag or the pending read's text appears, or where the input ends |
| Watcher.AccumulateStopsAtFirstMatch | iot/scripts/test/fvp_wrapper.py:376-381 | before the point where reading ends, no prefix of the input had a newline, the stop flag or the read text, so reading stops at the first such point |
| Watcher.Classify | iot/scripts/test/fvp_wrapper.py:389-408 | the verdict on a line read, checking the stop flag, then the test's stop string, then the system stop string, and otherwise going on (past the pending read step only when its text is in the line); its consequences for the run are stated by `Watcher.RunFlags`, `Watcher.StopFlagBeatsStopStrings`, `Watcher.EndStringBeatsSystemStop` and `Watcher.SystemStopFails` |
| Watcher.Run | iot/scripts/test/fvp_wrapper.py:352-411 | the reference definition of one watcher loop over a queue and a sequence of read events; its properties are stated by `Watcher.RunWritesInPopOrder` and `Watcher.RunFlags`, and `FvpWrapper.FvpWrapper.WatcherLoop` is proved equal to it |
| Watcher.RunWritesInPopOrder | iot/scripts/test/fvp_wrapper.py:359-371 | over a whole run, the watcher writes exactly the write steps of the steps it popped, in the order they were queued, and leaves a prefix of the queue |
| Watcher.RunFlags | iot/scripts/test/fvp_wrapper.py:389-408 | the loop returns with the stop flag set unless its input runs out; it sets `test_complete` only on the test's stop string and clears `success` only on the system stop string; if the flag is already up, it returns with nothing changed |
| Watcher.StopFlagBeatsStopStrings | iot/scripts/test/fvp_wrapper.py:389-390 | a line that ends with the stop flag up makes the loop return without touching `test_complete` or `success`, whatever the line holds |
| Watcher.EndStringBeatsSystemStop | iot/scripts/test/fvp_wrapper.py:396-401 | a line holding the test's stop string completes the test and stops all threads even if it also holds the system stop string; `success` is kept |
| Watcher.SystemStopFails | iot/scripts/test/fvp_wrapper.py:404-408 | a line with the system stop string and not the test's stop string clears `success` and stops all threads |
| FvpWrapper.WaitIrisServer | iot/scripts/test/fvp_wrapper.py:75-97 | succeeds at the first check that matches the reason (port open when waiting for readiness, closed otherwise) and fails after exactly `max_wait_time` checks that do not |
| FvpWrapper.RunState.Stop | iot/scripts/test/fvp_wrapper.py:458-460 | sets the stop flag and changes nothing else, so a second call changes nothing |
| FvpWrapper.FirstFinished | iot/scripts/test/fvp_wrapper.py:474-480 | the thread found dead is the first in thread order that is not alive |
| FvpWrapper.Wait | iot/scripts/test/fvp_wrapper.py:470-499 | the reference definition of `blocking_wait` over per-tick observations; its properties are stated by `FvpWrapper.WaitOutcomes`, and `FvpWrapper.FvpWrapper.BlockingWait` is proved equal to it |
| FvpWrapper.WaitOutcomes | iot/scripts/test/fvp_wrapper.py:470-492 | the wait leaves its loop only with the stop flag set; it never clears the flag, never sets `success` and never clears `test_complete`; a timeout changes only the stop flag |
| FvpWrapper.MergeAll | iot/scripts/test/fvp_wrapper.py:297-301 | the reference definition of successive `dict.update` calls; which map a key's value comes from is stated by `FvpWrapper.MergeAllLookup` |
| FvpWrapper.MergeAllLookup | iot/scripts/test/fvp_wrapper.py:297-301 | a merged key comes from the last watcher map that has it, or else from the model parameters |
| FvpWrapper.ParamsOf | iot/scripts/test/fvp_wrapper.py:300-301 | one parameter map per watcher, in watcher order, each its `getParameters` |
| FvpWrapper.MergeWatcherParams | iot/scripts/test/fvp_wrapper.py:300-301 | updating with each watcher's parameters in order gives the merge in which later watchers win |
| FvpWrapper.CmdPairs | iot/scripts/test/fvp_wrapper.py:311-313 | the reference definition of the "-C key=value" arguments for keys in a given order; their shape is stated by `FvpWrapper.CmdPairsShape` |
| FvpWrapper.CmdPairsShape | iot/scripts/test/fvp_wrapper.py:311-313 | each parameter contributes "-C" followed by "key=value", in iteration order, two arguments per key |
| FvpWrapper.AppendParams | iot/scripts/test/fvp_wrapper.py:311-313 | every merged parameter is appended exactly once, as "-C" and "key=value", after the existing command line |
| FvpWrapper.SplitDataImageRoundTrip | iot/scripts/test/fvp_wrapper.py:334-337 | slicing "path@address" with a 10-character address gives back the path and the address |
| FvpWrapper.Threaded | iot/scripts/test/fvp_wrapper.py:444-446 | the reference definition of the watchers that get a thread; that they are exactly those with a port, in order, is stated by `FvpWrapper.ThreadedKeepsPorted` |
| FvpWrapper.StartThreads | iot/scripts/test/fvp_wrapper.py:444-446 | the threads list grows by exactly the watchers that have a port, in watcher order |
| FvpWrapper.ThreadedKeepsPorted | iot/scripts/test/fvp_wrapper.py:444-446 | a watcher gets a thread iff it has a port |
| FvpWrapper.FvpWrapper.constructor | iot/scripts/test/fvp_wrapper.py:229-279 | the logs directory is "logs" under the work directory; no watchers, threads, parameters or data yet; the flags start cleared with `success` set; the command line is the executable slot and "-I" |
| FvpWrapper.FvpWrapper.LoadFvp | iot/scripts/test/fvp_wrapper.py:294-343 | the parameters are the old ones updated by the platform's and then by each watcher's; the data are updated by the platform's; the command line gets the executable, then one "-C key=value" pair per parameter; readiness is the outcome of the poll |
| FvpWrapper.FvpWrapper.Start | iot/scripts/test/fvp_wrapper.py:439-456 | loads the model and, once it is ready, gives a thread to exactly the watchers with a port |
| FvpWrapper.FvpWrapper.Stop | iot/scripts/test/fvp_wrapper.py:458-460 | sets the shared stop flag and nothing else |
| FvpWrapper.FvpWrapper.WatcherLoop | iot/scripts/test/fvp_wrapper.py:352-411 | the imperative loop writes the lines, takes the exit and leaves the flags and queue that the pure `Watcher.Run` gives for the same queue and input |
| FvpWrapper.FvpWrapper.Pass | iot/scripts/test/fvp_wrapper.py:359-408 | one pass replays the queue as `ReplayFrom` does, reads the line `Accumulate` reads, and leaves the verdict and flags `Classify` gives |
| FvpWrapper.FvpWrapper.Judge | iot/scripts/test/fvp_wrapper.py:389-408 | the verdict on a line is the pure classification, and the flags change exactly as that verdict says |
| FvpWrapper.FvpWrapper.PopSteps | iot/scripts/test/fvp_wrapper.py:361-371 | the pops write and leave pending exactly what `Replay` computes for the old queue |
| FvpWrapper.FvpWrapper.ReadLine | iot/scripts/test/fvp_wrapper.py:375-382 | the line read, the stop flag and the events used are those of `Accumulate`; the other flags are untouched |
| FvpWrapper.FvpWrapper.BlockingWait | iot/scripts/test/fvp_wrapper.py:470-499 | the flags and exit after waiting are those of the pure `Wait` over the observed ticks |
| FvpWrapper.FvpWrapper.Test | iot/scripts/test/fvp_wrapper.py:462-467 | `success` stays set iff it was set and every watcher's log holds all its verification strings |
| FvpWrapper.FvpWrapper.ExecuteTest | iot/scripts/test/fvp_wrapper.py:508-564 | returns 0 or 1, and 0 iff there are watchers, the model came up, no watcher saw the system stop, the model shut down and every verification string was found |
| Testspec.Lookup | iot/scripts/platforms/corstone700/corstone700_fvp.py:88 | a key of the specification gives its value, a missing one a key error |
| Testspec.IndexAt | iot/scripts/platforms/corstone700/corstone700_fvp.py:151-154 | indexing a list or string succeeds iff the index is in range (else an index error); a dictionary, whose keys are strings, gives a key error; anything else is a type error |
| Testspec.Iterate | iot/scripts/platforms/corstone700/corstone700_fvp.py:113 | a list iterates over its items and a string over its characters; anything else is a type error |
| Testspec.Unpack2 | iot/scripts/platforms/corstone700/corstone700_fvp.py:113 | unpacking into two names needs exactly two items (else a value error) and a sequence (else a type error); a two-item list gives its items and a two-character string its characters |
| Testspec.AsStr | iot/scripts/platforms/corstone700/corstone700_fvp.py:100 | only a string can be joined to a string; anything else is a type error |
| Testspec.SpecTable.Update | iot/scripts/platforms/corstone700/corstone700_fvp.py:183 | `dict.update`: the table becomes the merge of its old entries with the argument |
| Testspec.Merged | iot/scripts/platforms/corstone700/corstone700_fvp.py:181-184 | the merge has every default key and every user key; user values override defaults and other defaults are kept |
| Testspec.ParseTestspec | iot/scripts/platforms/corstone700/corstone700_fvp.py:174-184 | a specification without "name" or "commands" exits with status 1 and leaves the defaults untouched; otherwise the defaults table is updated in place with it |
| Testspec.StepOf | iot/scripts/platforms/corstone700/corstone700_fvp.py:113-114 | an entry that cannot be unpacked into two gives the unpacking fault; a tag other than "r" or "w" exits with status 1 as `addCommand` does; otherwise a string text gives the step of that kind and text, and any other text a type error |
| Testspec.StepsOf | iot/scripts/platforms/corstone700/corstone700_fvp.py:113-114 | all entries are steps iff each one is, and then the steps are the entries' steps in their given order |
| Testspec.StepsOfFirstFault | iot/scripts/platforms/corstone700/corstone700_fvp.py:113-114 | the first bad entry decides the fault |
| Testspec.QueueSteps | iot/scripts/platforms/corstone700/corstone700_fvp.py:113-114 | queuing the entries one `addCommand` at a time makes them pop after the steps already queued, in their given order; a bad entry gives the fault `StepsOf` names |
| Testspec.QueueLogin | iot/scripts/platforms/corstone700/corstone700_fvp.py:109-111 | the login prompt read, the user write and the shell prompt read pop in that order after anything already queued |
| Testspec.BuiltParameters | iot/scripts/test/fvp_wrapper.py:209-212 | a watcher built from a plan contributes the plan's UART-to-log-file parameter |
| Testspec.NewWatcher | iot/scripts/platforms/corstone700/corstone700_fvp.py:118-127 | a fresh watcher with the planned settings, the platform's system stop string and an empty queue |
| Testspec.NewHost | iot/scripts/platforms/corstone700/corstone700_fvp.py:98-115 | a fresh host watcher whose queue pops the login sequence and then the test's steps, in order |
| TestRunner.Booleanize | iot/scripts/test/testrunner.py:168-169 | true iff an argument was given |
| TestRunner.XorReduceIsParity | iot/scripts/test/testrunner.py:177 | folding exclusive or over the modes gives true iff an odd number of them are selected |
| TestRunner.ModeCheck | iot/scripts/test/testrunner.py:177-183 | the command line passes iff the exclusive or of the three modes holds |
| TestRunner.ModeCheckParity | iot/scripts/test/testrunner.py:177-183 | one or three selected modes pass; zero or two are rejected |
| TestRunner.ExclusivityMessageUnreachable | iot/scripts/test/testrunner.py:177-182 | all three modes together pass the check, so the "mutually exclusive" message is never printed and every rejection shows help |
| TestRunner.SingleModeAccepted | iot/scripts/test/testrunner.py:177 | exactly one selected mode always passes |
| TestRunner.TestRunner.constructor | iot/scripts/test/testrunner.py:43-50 | no tests registered and no wrapper arguments yet |
| TestRunner.TestRunner.ParseArguments | iot/scripts/test/testrunner.py:162-183 | "usermode", "fvp_timeout" and "fvp_path" are copied into the wrapper arguments and the modes recorded; the rejection is the mode check's, and it is always the help text |
| TestRunner.TestRunner.RegisterTest | iot/scripts/test/testrunner.py:185-190 | a specification without "name" or "description" exits with status 1 and an unhashable name is a type error, both registering nothing; otherwise it is stored under its name, replacing any earlier one, and the wrapper arguments are untouched |
| TestRunner.TestRunner.GetTests | iot/scripts/test/testrunner.py:192-198 | exactly one entry per registered test, from its name to its description |
| TestRunner.TestRunner.LaunchArgs | iot/scripts/test/testrunner.py:130 | a test is launched with its specification under "testspec" plus every wrapper argument |
| TestRunner.TestRunner.RunTest | iot/scripts/test/testrunner.py:109-144 | an unknown name exits with status 1 before anything is launched; a known one ends the runner iff its process fails, with that process's status |
| TestRunner.TestRunner.RunAllTests | iot/scripts/test/testrunner.py:146-148 | tests run one at a time, each registered one at most once; all run and pass, or the run stops at the first failure with its status, after only passing tests |
| Corstone700.EsPlans | iot/scripts/platforms/corstone700/corstone700_fvp.py:144-156 | the external system watchers from index `i` up to `n` are built iff every index has a usable `es_stop_strs` entry, a telnet port and a usable `es_ver_strs` entry; watcher `k` is then "es<k>" with its own stop string, verification strings, port, UART and "<test>_es<k>.txt" log |
| Corstone700.Plan | iot/scripts/platforms/corstone700/corstone700_fvp.py:96-156 | the reference definition of the watchers the constructor builds, reading the entries in the constructor's order and failing at the first unusable one; its outcome is stated by `Corstone700.PlanReads`, `Corstone700.PlanRead`, `Corstone700.NameMustBeText` and `Corstone700.DefaultsFillIn` |
| Corstone700.PlanReads | iot/scripts/platforms/corstone700/corstone700_fvp.py:96-156 | from usable entries the constructor builds host0, host1, se and es0 from exactly those entries |
| Corstone700.PlanRead | iot/scripts/platforms/corstone700/corstone700_fvp.py:96-156 | a constructor that gets past the watchers has read usable entries, and built the watchers from them |
| Corstone700.WatchersSteps | iot/scripts/platforms/corstone700/corstone700_fvp.py:107-127 | host0 queues the login read, the "root" write and the shell read, then the test's commands in order; host1 has no stop string and nothing to verify; the others queue nothing |
| Corstone700.WatchersLayout | iot/scripts/platforms/corstone700/corstone700_fvp.py:97-156 | the watchers are host0, host1, se and es0 on the distinct ports 5000 to 5003, each logging to "<test>_<watcher>.txt" and mirroring its own UART |
| Corstone700.DefaultsFillIn | iot/scripts/platforms/corstone700/corstone700_fvp.py:65-77 | a specification giving only a name and commands builds host0, se and es0 with no stop string and nothing to verify |
| Corstone700.NameMustBeText | iot/scripts/platforms/corstone700/corstone700_fvp.py:100 | a name that is not a string makes the constructor fail with a type error |
| Corstone700.ModelParameters | iot/scripts/platforms/corstone700/corstone700_fvp.py:158-167 | exactly three flash loader entries, each a file under the image directory |
| Corstone700.ImagesSurviveWatchers | iot/scripts/platforms/corstone700/corstone700_fvp.py:158-167 | no watcher parameter names a flash loader, so every image survives the merge with the watchers' parameters |
| Corstone700.Corstone700Fvp.GetModelParameters | iot/scripts/platforms/corstone700/corstone700_fvp.py:158-167 | the three images: the secure enclave ROM, the board flash and external system 0's flash |
| Corstone700.Corstone700Fvp.GetModelData | iot/scripts/platforms/corstone700/corstone700_fvp.py:169-172 | no data images |
| Corstone700.Create | iot/scripts/platforms/corstone700/corstone700_fvp.py:80-156 | a missing name is a key error and a missing name or commands leaves the defaults untouched; otherwise the defaults are merged in place and the constructor fails with the first unusable entry, or gives a wrapper for the platform with the four planned watchers and the platform's system stop string |
| Corstone700.BuildWatchers | iot/scripts/platforms/corstone700/corstone700_fvp.py:96-156 | the planned watchers, freshly built in order, or the first fault of the plan |
| Corstone700.BuildAll | iot/scripts/platforms/corstone700/corstone700_fvp.py:96-156 | host0 with its queued steps, then host1, se and es0, each fresh and as planned |
| Corstone500.Plan | iot/scripts/platforms/corstone500/corstone500_fvp.py:85-104 | the reference definition of the watcher the constructor builds, reading the entries in the constructor's order and failing at the first unusable one; its outcome is stated by `Corstone500.PlanReads`, `Corstone500.PlanRead` and `Corstone500.DefaultsFillIn` |
| Corstone500.PlanReads | iot/scripts/platforms/corstone500/corstone500_fvp.py:85-104 | from usable entries the constructor builds host0 from exactly those entries |
| Corstone500.PlanRead | iot/scripts/platforms/corstone500/corstone500_fvp.py:85-104 | a constructor that gets past the watcher has read usable entries, and built it from them |
| Corstone500.WatchersShape | iot/scripts/platforms/corstone500/corstone500_fvp.py:87-104 | one watcher, host0 on port 5000, logging to "<test>_host0.txt" and mirroring UART 0; it queues the login read, the "root" write and the shell read, then the test's commands in order |
| Corstone500.DefaultsFillIn | iot/scripts/platforms/corstone500/corstone500_fvp.py:60-66 | a specification giving only a name and commands builds host0 with no stop string and nothing to verify |
| Corstone500.ModelParameters | iot/scripts/platforms/corstone500/corstone500_fvp.py:107-112 | the single entry from the board ROM loader to "bl1.bin" in the image directory |
| Corstone500.ModelData | iot/scripts/platforms/corstone500/corstone500_fvp.py:114-119 | the single data image for the host processor, which the loader's slicing splits back into the image path and the address "0x80000000" |
| Corstone500.ImageSurvivesWatcher | iot/scripts/platforms/corstone500/corstone500_fvp.py:107-112 | the watcher's parameter does not name the ROM loader, so the image survives the merge |
| Corstone500.A5dsFvp.GetModelParameters | iot/scripts/platforms/corstone500/corstone500_fvp.py:107-112 | the boot ROM image entry |
| Corstone500.A5dsFvp.GetModelData | iot/scripts/platforms/corstone500/corstone500_fvp.py:114-119 | the data image entry, "path@0x80000000" for the host processor |
| Corstone500.Create | iot/scripts/platforms/corstone500/corstone500_fvp.py:69-104 | a missing name is a key error and a missing name or commands leaves the defaults untouched; otherwise the defaults are merged in place and the constructor fails with the first unusable entry, or gives a wrapper for the platform with host0 as planned |
| Corstone500.BuildWatchers | iot/scripts/platforms/corstone500/corstone500_fvp.py:85-104 | host0 freshly built with its queued steps, or the first fault of the plan |

## Left out

- Threads, the monitor queue and the races on the shared flags are not modelled. Each watcher loop runs sequentially over a given sequence of read events. `StopRaised` stands for a read during which another thread raised the stop flag. The wait loop runs over observed ticks: a watcher's signal, each thread's liveness, a timeout and a user interrupt.
- Telnet, `Popen`, the netstat poll, the iris connection and writing images into memory are all left out. Their outcomes are parameters: events, observed port states, and the lines written.
- Log files, `clearFile`, the xterm mirror and the user-mode prompt are left out. Verification takes each watcher's log text as a parameter.
- Wall-clock time and `sleep` are left out. A timeout is one boolean per tick.
- `argparse`, `Process` and `print` are left out. A test process's exit status is a given function of its launch arguments. It is not tied to the platform constructor's faults (status 1 for `sys.exit(1)` or an uncaught exception) nor to `ExecuteTest`'s result. `getTests` returns the map that the source renders with `json.dumps`.
- `os.path.join` is `dir + "/" + file`, and `os.path.abspath` is the identity. The work directory is a parameter; the source uses the directory of the platform script.
- Python's dictionary iteration order is left open. The command line, the listing and the run-all loop are proved for whatever order the dictionary gives.
- Input in the model is finite, whereas the source would keep polling. When the events run out, the watcher loop ends with `InputExhausted`. When the ticks run out, the wait ends with `NoMoreTicks`. In both cases the flags are left as they are.
- `g_fvp_cmd` is module-global in the source; here it is a field of the wrapper. Each test runs in a process of its own, so the two agree.
- `FvpWrapper.FvpWrapper.LoadFvp`: the exception path (the model not ready, which shows the details and exits with status 1) is a `false` result, which `ExecuteTest` turns into status 1.
- `FvpWrapper.WaitIrisServer`: with `max_wait_time` below 1 the source polls forever. The model requires at least one check.
- `FvpWrapper.FvpWrapper.ExecuteTest`: a timeout is reported as an error by the wait (iot/scripts/test/fvp_wrapper.py:484-487), yet the result is decided only on `success` (iot/scripts/test/fvp_wrapper.py:536, 551) and `test_complete` is never consulted. The model follows the code: a run that times out without the system stop string and with all its verification strings found returns 0.
- The shared `success` flag starts set in the model's constructors (`FvpWrapper.RunState.constructor`, `FvpWrapper.FvpWrapper.constructor`). The source first assigns it in `executeTest` (iot/scripts/test/fvp_wrapper.py:510), which the model does too, so nothing observes the difference.
- The watcher's own `success` field and the unused `telnet_host` setting are left out. The watcher's host is always "localhost".
- Exceptions raised inside a watcher thread end only that thread in the source. They are not modelled.
- `Testspec.StepOf`: a command text that is not a string is refused when the watchers are built (a type error). In the source it fails only when the watcher thread writes it.
- Stop strings must be strings or `None`. Verification strings must be a list of strings, or a string, which is read as its one-character strings as iterating it does. Other values are refused when the watchers are built. The source would fail later, in a watcher thread or in `verify`.
- Iterating or unpacking a dictionary (which Python does over its keys) is refused. A test specification's "commands" is always a list in the platforms' test tables.
- `TestRunner.TestRunner.RegisterTest`: Python's equality of `True` and `1` as dictionary keys is not modelled. A name that is a list or a dictionary is refused as unhashable. `Testspec.Value`'s lists also stand for tuples (the test tables write commands as tuples), so a tuple name, which Python accepts, is refused too.
- `Corstone700.EsPlans` is general in the number of external systems. The constructor uses one, as the source does.
- The platform's default test specification is the module-level dictionary that `parseTestspec` updates in place. It is modelled as a `SpecTable` object that the caller passes in, and the platform wrapper keeps a reference to it. This aliasing is exactly what lets an earlier test's keys leak into a later one in the same process.
