# workbunny/process: the `Runtime` state machine in Dafny

`WorkBunny\Process\Runtime` (`src/Runtime.php`) is the one object through which a
PHP process forks children, gives each child an ordinal, records the parent's
ordinal => pid registry and reaps the children. Its state is four fields: `_id`
(0 for the root, the ordinal for a child), `_pid`, `_number` (the next ordinal,
starting at 1) and `_pidMap` (the registry, in insertion order). After a fork the
parent and the child each continue with their own copy of the object. The model
follows one process's copy: the value that `pcntl_fork` returns selects the side.

The project has three modules:

- `PidMaps` (`pid_map.dfy`): the registry type. A PHP array with integer keys is
  a sequence of `(key, value)` entries in insertion order, with no key twice
  (`PidMap`). `Put` is the assignment `$m[$k] = $v`. `Keys` and `Values` list
  the keys and the pids in iteration order, and `Increasing` says the keys
  ascend.
- `RuntimeSpec` (`runtime_spec.dfy`): one process's view of the object as a
  datatype `State`, and each operation as a function from the old view and the
  operating system's answers to the new view and how the call ends (`Outcome`:
  returns, exits with a status, or throws `InvalidArgumentException`). It also
  holds the invariants — `Valid`: `1 <= number` and `0 <= id < number`;
  `Tracked`: a child's registry is empty, the root's ordinals increase in
  insertion order and lie in `1 .. number - 1` — and the lemmas about the
  functions.
- `Process` (`runtime.dfy`): the class `Runtime` with the same fields, updated
  in place. `IsChild()` is `id != 0`. `Number`, `SetPriority`, `Fork` and `Run`
  change the fields, with a `while` loop in `Run`. `Wait` is a `for` loop over
  the registry. Each method's `ensures` ties `Snapshot()` (the fields as a
  `State`) to the matching `RuntimeSpec` function.

The operating system's answers are inputs. These are: the result of
`pcntl_fork`, the pid from `posix_getpid`, whether `pcntl_setpriority` succeeds,
whether `pcntl_getpriority` succeeds (`answered`), and the `(pid, status)`
answer of each `pcntl_waitpid` call. The first three are bundled per fork in
`ForkInput`. `wait` calls `pcntl_waitpid` once per registry entry, so it takes
one `WaitReply` per entry, in registry order. The process's scheduling priority
is the field `priority`. Handlers are opaque. A child handler returns, throws
(caught, then exit 250), or calls `exit` with a status (`Handler`). For the
parent handler and the `wait` callbacks, the model records only whether they
are called. `wait` returns the pids it waits for and the callbacks it invokes,
in order, as `Success(status)` / `Error(status)` events.

`fork` takes a handler and a priority; it has no ordinal argument and kills no
replaced registry entry. The class has no `listen` and no `terminateIfChild`.
`wait` takes two callbacks, `$success` and `$error`, and each receives
`($this, $status)`. `exit()` prints a message and exits the process.

## Model

| member | source | states |
|---|---|---|
| PidMaps.Put | src/Runtime.php:228 | a new key is appended as the last entry; an existing key keeps its position and only its value changes; keys stay distinct |
| RuntimeSpec.Initial | src/Runtime.php:23-32 | a new Runtime is the root, with counter 1 and an empty registry, and satisfies both invariants |
| RuntimeSpec.Number | src/Runtime.php:111-127 | on the root: returns the counter and advances it by one exactly when `increment`; on a child: returns 0 and changes nothing; on a valid view the result is 0 iff the caller is a child; a root's allocated ordinal is not yet in the registry; both invariants are kept |
| RuntimeSpec.SetPriority | src/Runtime.php:260-265 | only the priority can change, only when the given id is the caller's own, and then to the given value if the call succeeds; a call for another id or a refused call leaves the view unchanged |
| RuntimeSpec.GetPriority | src/Runtime.php:272-278 | returns a value iff the given id is the caller's own and the call succeeds, and that value is the current priority; null otherwise |
| RuntimeSpec.PriorityRoundTrip | src/Runtime.php:260-278 | reading one's own priority after setting it to a nice value in -20 .. 19 gives the value set; for another id, setting changes nothing and reading gives null |
| RuntimeSpec.PriorityFor | src/Runtime.php:224-238 | the priority a fork applies is `config['priority'][ordinal]` when that key is set, and the given default otherwise |
| RuntimeSpec.HandlerOutcome | src/Runtime.php:241-249 | the child's `fork` returns normally iff its handler returns; a throw ends in exit 250; an `exit(status)` in the handler ends in exit with that status; it never throws `InvalidArgumentException` |
| RuntimeSpec.Fork | src/Runtime.php:207-252 | on a child: a complete no-op; on the root the counter rises by one, and then: parent branch keeps id 0, records the pid and puts `ordinal => pid` into the registry (an append on a tracked root), priority `config['priority'][0]` else 0; child branch adopts the ordinal as id, empties the registry, priority `config['priority'][ordinal]` else the argument, ends as the handler does (a throw exits 250); failure branch exits 250 with the registry unchanged; both invariants are kept |
| RuntimeSpec.AppendFreshOrdinal | src/Runtime.php:219-229 | an ordinal above all tracked ones is new, is appended, and keeps the ordinals increasing |
| RuntimeSpec.ForkLoop | src/Runtime.php:156-158 | the fork loop returns or exits, never throws, and keeps both invariants |
| RuntimeSpec.Run | src/Runtime.php:150-161 | a count below 1 throws with nothing changed; otherwise it throws no `InvalidArgumentException`; the parent handler is called only on the root after a normal return; both invariants are kept |
| RuntimeSpec.ForkLoopOnChild | src/Runtime.php:209 | on a child every iteration of the fork loop is a no-op |
| RuntimeSpec.ForkLoopAllParents | src/Runtime.php:219-229 | on the root, iterations that all take the parent branch append one entry each with consecutive ordinals from the counter, and the counter rises by their number |
| RuntimeSpec.ForkLoopChildAt | src/Runtime.php:231-242 | after parent-branch iterations `i .. k-1`, a child branch at iteration `k` leaves the child with ordinal `number + (k - i)`, an empty registry and its handler's outcome |
| RuntimeSpec.RunOnChild | src/Runtime.php:150-161 | `run` on a child changes nothing, returns normally and does not call the parent handler |
| RuntimeSpec.RunAllParents | src/Runtime.php:150-161 | `run` on the root whose forks all take the parent branch appends `(number + k, pid of fork k + 1)` for each fork, leaves the counter `forkCount` higher, and calls the parent handler iff one is given |
| RuntimeSpec.RunChildAt | src/Runtime.php:150-161 | the child made by iteration `k` of `run` on the root holds ordinal `number + k - 1`, tracks nobody, ends as its handler does, and never calls the parent handler |
| RuntimeSpec.RunFromInitial | src/Runtime.php:29-161 | on a new Runtime, `run(n)` with all parent branches leaves registry keys exactly 1..n and counter n + 1; the child made by iteration k has ordinal k |
| RuntimeSpec.Classify | src/Runtime.php:173-184 | an answer with pid <= 0 invokes nothing; status 0 invokes the success callback (status 0), any other status the error callback with that status, each only if given |
| RuntimeSpec.WaitEvents | src/Runtime.php:172-185 | at most one callback per `pcntl_waitpid` answer; every success carries status 0, every error a nonzero status, and only given callbacks are invoked |
| RuntimeSpec.WaitEventsConcat | src/Runtime.php:172 | answers are handled in call order: the callbacks for a run of answers are those for its front part followed by those for the rest |
| RuntimeSpec.WaitAfterReap | src/Runtime.php:173-174 | when every `pcntl_waitpid` call answers a pid <= 0 (nothing left to reap), `wait` invokes no callback |
| RuntimeSpec.ReapedAnswerIgnored | src/Runtime.php:173-174 | a `pcntl_waitpid` answer with pid <= 0, at any position among the answers, adds no callback |
| RuntimeSpec.RepeatedPidReapedOnce | src/Runtime.php:172-174 | a pid tracked by two registry entries is waited for at both positions; when the second call finds it already reaped, the callbacks are those of the other answers alone |
| RuntimeSpec.WaitAllSucceed | src/Runtime.php:172-183 | when every `pcntl_waitpid` call reports a child that exited 0, `wait` invokes the success callback once per call |
| RuntimeSpec.RunThenWaitAllSucceed | src/Runtime.php:150-187 | after `run(n)` on a new Runtime with all parent branches, the registry's pids are those of forks 1 .. n in order, and a `wait` on that registry (one answer per entry) where every child exits 0 invokes the success callback n times |
| Process.Runtime.IsChild | src/Runtime.php:111-114 | a process is a child iff its view is a child's in `RuntimeSpec`, i.e. its ordinal is not 0 |
| Process.Runtime.constructor | src/Runtime.php:47-50 | the new object's view is the initial view and it stores the configuration |
| Process.Runtime.SetConfig | src/Runtime.php:57-60 | replaces the configuration and nothing else |
| Process.Runtime.SetPidMap | src/Runtime.php:93-96 | replaces the registry and nothing else; keeps `Valid` |
| Process.Runtime.Number | src/Runtime.php:121-127 | updates the counter in place as `RuntimeSpec.Number` specifies and returns its ordinal |
| Process.Runtime.SetPriority | src/Runtime.php:260-265 | updates the priority in place as `RuntimeSpec.SetPriority` specifies |
| Process.Runtime.GetPriority | src/Runtime.php:272-278 | returns what `RuntimeSpec.GetPriority` gives for the current view |
| Process.Runtime.Parent | src/Runtime.php:194-199 | the parent handler is called iff the caller is the root and a handler is given |
| Process.Runtime.Fork | src/Runtime.php:207-252 | the fields end as `RuntimeSpec.Fork` computes from the old fields, and the call ends as it says; the configuration is unchanged |
| Process.Runtime.Run | src/Runtime.php:150-161 | the fields, the outcome and the parent-handler call are those of `RuntimeSpec.Run` |
| Process.Runtime.Wait | src/Runtime.php:169-187 | a child waits for nothing and invokes nothing; the root calls `pcntl_waitpid` for each registry pid in insertion order and invokes exactly the callbacks `RuntimeSpec.WaitEvents` lists for the answers |

## Left out

- The operating-system calls `pcntl_fork`, `posix_getpid`, `pcntl_waitpid`, `pcntl_setpriority` and `pcntl_getpriority` are not modelled. Their answers are inputs. Blocking in `pcntl_waitpid` and the `WUNTRACED` flag are not modelled.
- `gc_collect_cycles` under `pre_gc` is left out. It only reclaims memory and changes no state of the model. `Config.preGc` is carried but never read.
- The real duplication of the process and concurrency between parent and child are left out. Each call is seen from one side, chosen by the fork result.
- The output of `echo` (the exception message before `exit(250)`) is left out. So is the `exit()` method (lines 134-139), which prints a message and exits. Process exit is modelled only as the terminal `Outcome` `Exit(status)`.
- What handlers and callbacks do is left out. In particular, a handler that calls back into the same Runtime (for example a parent handler that forks again) is not modelled. The model records only how a child handler ends and whether the parent handler and the `wait` callbacks are called.
- The `(int)` casts of configuration values and non-integer keys or values in `setPidMap`/`setConfig` arrays are left out. Priorities and registry entries are integers.
- `getId`, `getPid`, `getConfig` and `getPidMap` are reads of the class's fields and have no members of their own.
- `_number` is a typed `int` property, so incrementing it at `PHP_INT_MAX` throws a `TypeError`. That error is not modelled: integers are unbounded.
- The priority the process starts with is a constructor argument, because it belongs to the operating system and not to the PHP object.
- Process.Runtime.SetPidMap: does not keep `Tracked`, because the PHP setter accepts any array. After it, the registry guarantees stated under `Tracked` (appending, increasing ordinals) need not hold. The model still computes the registry exactly (`Put` overwrites an existing key in place).
- RuntimeSpec.SetPriority: the operating system clamps a nice value to -20 .. 19, and this clamping is not modelled. An accepted call stores the requested value unchanged. Process.Runtime.SetPriority does the same. So `PriorityRoundTrip` is stated only for values in -20 .. 19.
- PHP default arguments become explicit parameters: `__construct(array $config = [])` takes `config`, `number($increment = true)` takes `increment`, `fork($handler, $priority = 0)` takes `priority`, `run($child, $parent = null, $forkCount = 1)` takes `hasParent` and `forkCount`, and a null `wait` callback or `parent` handler is a `false` flag.
- RuntimeSpec.Run: the parent handler that `run` passes to `parent` is taken to return. A parent handler that throws or calls `exit` would end `run` that way; the model returns `Normal` and records only that the handler was called. Process.Runtime.Run does the same.
