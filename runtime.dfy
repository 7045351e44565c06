/**
 * `WorkBunny\Process\Runtime`: one object per process that hands out ordinals,
 * forks children, tracks the parent's ordinal => pid registry and reaps the
 * children. Each method changes the fields in place as the PHP class does and is
 * proved to move the object from `old(Snapshot())` to the view that the matching
 * function of `RuntimeSpec` computes.
 */
module Process {
  import opened PidMaps
  import S = RuntimeSpec

  class Runtime {
    /** `_id`: the ordinal of this process in its tree; 0 is the root. */
    var id: int
    /** `_pid`: the operating-system pid, recorded on both sides of a fork. */
    var pid: int
    /** `_number`: the next ordinal the root hands out. */
    var number: int
    /** `_pidMap`: ordinal => pid of the direct children, in creation order. */
    var pidMap: PidMap
    /** `_config`. */
    var config: S.Config
    /** The scheduling priority the operating system holds for this process. */
    var priority: int

    /** This process's view of the object, as `RuntimeSpec` states it. */
    function Snapshot(): S.State
      reads this
    {
      S.State(id, pid, number, pidMap, priority)
    }

    /** `isChild()`. */
    predicate IsChild()
      reads this
      ensures IsChild() <==> S.IsChild(Snapshot())
    {
      id != 0
    }

    /** `new Runtime($config)`, in a process whose current priority is `initialPriority`. */
    constructor (config: S.Config, initialPriority: int)
      ensures Snapshot() == S.Initial(initialPriority) && this.config == config
      ensures S.Valid(Snapshot()) && S.Tracked(Snapshot())
    {
      id := 0;
      pid := 0;
      number := 1;
      pidMap := [];
      this.config := config;
      priority := initialPriority;
    }

    /** `setConfig($config)`. */
    method SetConfig(config: S.Config)
      modifies this`config
      ensures this.config == config
    {
      this.config := config;
    }

    /**
     * `setPidMap($pidMap)`: replaces the registry wholesale. It keeps `Valid`
     * but may break `Tracked`, so the guarantees that rest on `Tracked` then
     * no longer apply.
     */
    method SetPidMap(m: PidMap)
      modifies this`pidMap
      ensures pidMap == m
      ensures S.Valid(old(Snapshot())) ==> S.Valid(Snapshot())
    {
      pidMap := m;
    }

    /** `number($increment)`. */
    method Number(increment: bool) returns (n: int)
      modifies this`number
      ensures (Snapshot(), n) == S.Number(old(Snapshot()), increment)
    {
      if !IsChild() {
        n := number;
        if increment {
          number := number + 1;
        }
        return;
      }
      n := 0;
    }

    /** `setPriority($id, $priority)`; `accepted` is whether `pcntl_setpriority` succeeds. */
    method SetPriority(forId: int, value: int, accepted: bool)
      modifies this`priority
      ensures Snapshot() == S.SetPriority(old(Snapshot()), forId, value, accepted)
    {
      if id == forId && accepted {
        priority := value;
      }
    }

    /** `getPriority($id)`; `answered` is whether `pcntl_getpriority` succeeds. */
    method GetPriority(forId: int, answered: bool) returns (p: S.Option<int>)
      ensures p == S.GetPriority(Snapshot(), forId, answered)
    {
      if id == forId {
        p := if answered then S.Some(priority) else S.None;
        return;
      }
      p := S.None;
    }

    /** `parent($handler)`: whether the handler (if one is given) is called. */
    method Parent(hasHandler: bool) returns (called: bool)
      ensures called <==> !S.IsChild(Snapshot()) && hasHandler
    {
      called := !IsChild() && hasHandler;
    }

    /** `fork($handler, $priority)`, where `input` holds the answers of the operating system and the handler. */
    method Fork(input: S.ForkInput, priority: int) returns (o: S.Outcome)
      modifies this
      ensures (Snapshot(), o) == S.Fork(old(Snapshot()), config, input, priority)
      ensures config == old(config)
    {
      var ordinal := Number(true);
      if ordinal == 0 {
        return S.Normal;
      }
      // `pre_gc` only asks the garbage collector to run: no state of the model changes.
      if input.forkResult > 0 {
        id := 0;
        pid := input.ownPid;
        SetPriority(0, S.PriorityFor(config, 0, 0), input.priorityAccepted);
        pidMap := Put(pidMap, ordinal, input.forkResult);
        o := S.Normal;
      } else if input.forkResult == 0 {
        id := ordinal;
        pid := input.ownPid;
        SetPriority(ordinal, S.PriorityFor(config, ordinal, priority), input.priorityAccepted);
        pidMap := [];
        o := S.HandlerOutcome(input.child);
      } else {
        o := S.Exit(S.FORK_FAILURE_STATUS);
      }
    }

    /**
     * `run($child, $parent, $forkCount)`: `inputs(i)` holds the answers for the
     * i-th fork; `parentCalled` is whether the parent handler is called.
     */
    method Run(inputs: int -> S.ForkInput, hasParent: bool, forkCount: int) returns (o: S.Outcome, parentCalled: bool)
      modifies this
      ensures (Snapshot(), o, parentCalled) == S.Run(old(Snapshot()), config, inputs, hasParent, forkCount)
      ensures config == old(config)
    {
      if forkCount < 1 {
        return S.InvalidArgument, false;
      }
      ghost var start := Snapshot();
      var i := 1;
      while i <= forkCount
        invariant 1 <= i <= forkCount + 1
        invariant config == old(config)
        invariant S.ForkLoop(Snapshot(), config, i, forkCount, inputs) == S.ForkLoop(start, config, 1, forkCount, inputs)
      {
        o := Fork(inputs(i), 0);
        if o.Exit? {
          return o, false;
        }
        i := i + 1;
      }
      parentCalled := Parent(hasParent);
      o := S.Normal;
    }

    /**
     * `wait($success, $error)`: `replies[i]` is the answer of `pcntl_waitpid`
     * for the i-th registry entry; `waited` lists the pids it is asked for and
     * `events` the callbacks invoked, both in order.
     */
    method Wait(onSuccess: bool, onError: bool, replies: seq<S.WaitReply>) returns (waited: seq<int>, events: seq<S.Event>)
      requires |replies| == |pidMap|
      ensures waited == if IsChild() then [] else Values(pidMap)
      ensures events == if IsChild() then [] else S.WaitEvents(replies, onSuccess, onError)
    {
      waited, events := [], [];
      if !IsChild() {
        for i := 0 to |pidMap|
          invariant waited == Values(pidMap[..i])
          invariant events == S.WaitEvents(replies[..i], onSuccess, onError)
        {
          waited := waited + [pidMap[i].1];
          var reply := replies[i];
          if reply.pid > 0 {
            if reply.status != 0 {
              if onError {
                events := events + [S.Error(reply.status)];
              }
            } else if onSuccess {
              events := events + [S.Success(reply.status)];
            }
          }
          S.WaitEventsStep(replies, i, onSuccess, onError);
          ValuesStep(pidMap, i);
        }
        assert replies[..|replies|] == replies;
        assert pidMap[..|pidMap|] == pidMap;
      }
    }
  }
}
