/** The POSIX-thread scheduler backend: fixed module and task tables whose
    slots are occupied when they carry a magic tag, the write-once base
    period, the task lifecycle (new, start, stop, delete, pause, resume,
    set_period) and the deadline bookkeeping of the periodic wait.

    Threads, the start-up barrier and pthread_join are sequential here: the
    outcome of each fallible OS call is a parameter, and the child thread's
    initialisation runs to completion inside TaskStart. The thread-local
    "current task" is the explicit index `self`. */
module LinuxRtapi {
  import opened Common
  import opened RtTime
  import opened RtThread

  const MODULE_MAGIC: int := 30812
  const TASK_MAGIC: int := 21979
  const MAX_TASKS: nat := 64
  const MAX_MODULES: nat := 64
  const MODULE_OFFSET: int := 32768
  const MIN_STACK_SIZE: nat := 16384
  /** sizeof(task_data.name), that is RTAPI_NAME_LEN + 1 with RTAPI_NAME_LEN = 31. */
  const TASK_NAME_SIZE: nat := 32

  /** Message levels of rtapi_print_msg that the deadline logic chooses between. */
  datatype MsgLevel = MsgNone | MsgErr | MsgWarn

  /** One entry of task_array. `entry` and `arg` stand for the task function
      pointer and its argument; `hasStack` for a non-NULL stackaddr. */
  datatype Task = Task(
    magic: int,
    owner: int,
    entry: int,
    arg: int,
    stackSize: nat,
    hasStack: bool,
    destroyed: bool,
    deleted: bool,
    prio: int,
    usesFp: bool,
    cpu: int,
    name: string,
    period: nat,
    ratio: nat,
    nextTime: TimeSpec,
    failures: nat,
    deadlineScheduling: bool,
    minfaultBase: nat,
    majfaultBase: nat)

  /** A zero-initialised static task_data. */
  const ZERO_TASK: Task :=
    Task(0, 0, 0, 0, 0, false, false, false, 0, false, 0, "", 0, 0, TimeSpec(0, 0), 0, false, 0, 0)

  /** What one call of the wait primitive does: end the thread
      (pthread_exit) or return 0 after choosing a message level. */
  datatype WaitOutcome = ThreadExit | Returned(level: MsgLevel)

  // ---------------------------------------------------------------------
  // Priorities
  // ---------------------------------------------------------------------

  /** rtapi_prio_next_higher, with the SCHED_FIFO range [lowest, highest]
      that the OS reports given as arguments. */
  function PrioNextHigher(prio: int, lowest: int, highest: int): (r: int)
    requires lowest <= highest
    ensures lowest <= r <= highest
    ensures lowest <= prio < highest ==> r == prio + 1
    ensures prio >= highest ==> r == highest
    ensures prio < lowest ==> r == lowest
  {
    if prio >= highest then highest
    else if prio < lowest then lowest
    else prio + 1
  }

  /** rtapi_prio_next_lower. */
  function PrioNextLower(prio: int, lowest: int, highest: int): (r: int)
    requires lowest <= highest
    ensures lowest <= r <= highest
    ensures lowest < prio <= highest ==> r == prio - 1
    ensures prio <= lowest ==> r == lowest
    ensures prio > highest ==> r == highest
  {
    if prio <= lowest then lowest
    else if prio > highest then highest
    else prio - 1
  }

  /** Stepping up then down (or down then up) inside the range returns the
      original priority. */
  lemma PrioStepsInverse(prio: int, lowest: int, highest: int)
    requires lowest <= prio < highest
    ensures PrioNextLower(PrioNextHigher(prio, lowest, highest), lowest, highest) == prio
    ensures PrioNextHigher(PrioNextLower(prio + 1, lowest, highest), lowest, highest) == prio + 1
  {
  }

  /** `n` successive calls of rtapi_prio_next_higher. */
  function ClimbPrio(prio: int, n: nat, lowest: int, highest: int): int
    requires lowest <= highest
  {
    if n == 0 then prio else PrioNextHigher(ClimbPrio(prio, n - 1, lowest, highest), lowest, highest)
  }

  /** From any valid priority, n steps up reach min(prio + n, highest): the
      walk climbs one level per call and then stays at the top. */
  lemma {:induction false} ClimbSaturates(prio: int, n: nat, lowest: int, highest: int)
    requires lowest <= prio <= highest
    ensures ClimbPrio(prio, n, lowest, highest) == if prio + n <= highest then prio + n else highest
  {
    if n > 0 {
      ClimbSaturates(prio, n - 1, lowest, highest);
    }
  }

  // ---------------------------------------------------------------------
  // Page faults and time
  // ---------------------------------------------------------------------

  /** rtapi_get_pagefault_count: minor plus major faults since the task's
      baseline, given the process counters getrusage reports; 0 when a
      counter is below its baseline. */
  function PagefaultCount(t: Task, minflt: nat, majflt: nat): (r: nat)
    ensures minflt < t.minfaultBase || majflt < t.majfaultBase ==> r == 0
    ensures minflt >= t.minfaultBase && majflt >= t.majfaultBase ==>
              r + t.minfaultBase + t.majfaultBase == minflt + majflt
  {
    if minflt < t.minfaultBase || majflt < t.majfaultBase then 0
    else (minflt - t.minfaultBase) + (majflt - t.majfaultBase)
  }

  /** rtapi_reset_pagefault_count: take the current counters as baseline. */
  function ResetPagefaults(t: Task, minflt: nat, majflt: nat): Task {
    t.(minfaultBase := minflt, majfaultBase := majflt)
  }

  /** After a reset, the count is exactly the faults that happened since. */
  lemma PagefaultsSinceReset(t: Task, minflt: nat, majflt: nat, laterMin: nat, laterMaj: nat)
    requires minflt <= laterMin && majflt <= laterMaj
    ensures PagefaultCount(ResetPagefaults(t, minflt, majflt), laterMin, laterMaj)
            == (laterMin - minflt) + (laterMaj - majflt)
    ensures PagefaultCount(ResetPagefaults(t, minflt, majflt), minflt, majflt) == 0
  {
  }

  /** rtapi_get_time: the monotonic clock reading in nanoseconds. The
      reading `now` is a parameter; clocks report normalised timespecs. */
  function GetTime(now: TimeSpec): (r: nat)
    requires Normalized(now)
    ensures r / NSEC_PER_SEC == now.sec && r % NSEC_PER_SEC == now.nsec
  {
    now.sec * 1_000_000_000 + now.nsec
  }

  // ---------------------------------------------------------------------
  // Deadline messages
  // ---------------------------------------------------------------------

  /** The message level rtapi_wait picks for the `failures`-th miss. */
  function MissLevel(failures: nat): (l: MsgLevel)
    requires failures >= 1
    ensures l == MsgErr <==> failures == 1
    ensures l == MsgWarn <==> 1 < failures < 10
    ensures l == MsgNone <==> failures >= 10
  {
    if failures == 1 then MsgErr
    else if failures < 10 then MsgWarn
    else MsgNone
  }

  /** The levels chosen for the first k misses of a task. */
  function MissLevels(k: nat): seq<MsgLevel> {
    if k == 0 then [] else MissLevels(k - 1) + [MissLevel(k)]
  }

  function CountReports(levels: seq<MsgLevel>): nat {
    if levels == [] then 0
    else CountReports(levels[..|levels| - 1]) + (if levels[|levels| - 1] != MsgNone then 1 else 0)
  }

  /** Rate limiting: whatever the number of misses, only the first is an
      error report and at most nine are reported at all. */
  lemma {:induction false} MissReportsBounded(k: nat)
    ensures |MissLevels(k)| == k
    ensures CountReports(MissLevels(k)) == if k <= 9 then k else 9
    ensures forall i :: 0 <= i < k ==> (MissLevels(k)[i] == MsgErr <==> i == 0)
  {
    if k > 0 {
      MissReportsBounded(k - 1);
      assert MissLevels(k)[..k - 1] == MissLevels(k - 1);
    }
  }

  // ---------------------------------------------------------------------
  // Slot tables
  // ---------------------------------------------------------------------

  /** The index of the first entry of `s` that is not `tag`, or |s|. */
  function FirstUntagged(s: seq<int>, tag: int): (n: nat)
    ensures n <= |s|
    ensures n < |s| ==> s[n] != tag
    ensures forall j :: 0 <= j < n ==> s[j] == tag
  {
    if s == [] then 0
    else if s[0] != tag then 0
    else 1 + FirstUntagged(s[1..], tag)
  }

  /** The indices of `s` that carry `tag`. */
  function Tagged(s: seq<int>, tag: int): set<int> {
    set i | 0 <= i < |s| && s[i] == tag
  }

  function Magics(ts: seq<Task>): seq<int> {
    seq(|ts|, i requires 0 <= i < |ts| => ts[i].magic)
  }

  /** A handle names a live task: in range and tagged. */
  predicate IsLiveTask(ts: seq<Task>, id: int) {
    0 <= id < |ts| && ts[id].magic == TASK_MAGIC
  }

  /** Tagging the first free slot adds exactly that slot to the occupied
      set; clearing a tag removes exactly that slot. */
  lemma TagUpdate(s: seq<int>, tag: int, n: nat, v: int)
    requires n < |s|
    ensures v == tag ==> Tagged(s[n := v], tag) == Tagged(s, tag) + {n}
    ensures v != tag ==> Tagged(s[n := v], tag) == Tagged(s, tag) - {n}
  {
  }

  /** A freed slot below which every slot is occupied is the one the next
      allocation returns: after delete, the same index is handed out again. */
  lemma FreedSlotIsReused(s: seq<int>, tag: int, n: nat)
    requires n < |s| && tag != 0
    requires forall j :: 0 <= j < n ==> s[j] == tag
    ensures FirstUntagged(s[n := 0], tag) == n
  {
    FirstUntaggedIs(s[n := 0], tag, n);
  }

  /** The task record rtapi_task_new writes into the slot it tagged. Fields
      it does not assign (deleted, period, ratio, next_time, failures, the
      page-fault baselines) keep the values of the slot's previous task. */
  function NewTask(old_: Task, entry: int, arg: int, prio: int, owner: int, stackSize: nat,
                   usesFp: bool, name: string, cpu: int): (t: Task)
    ensures t.magic == TASK_MAGIC && t.hasStack && !t.destroyed
    ensures t.stackSize >= MIN_STACK_SIZE && t.stackSize >= stackSize
    ensures t.stackSize == stackSize || t.stackSize == MIN_STACK_SIZE
    ensures |t.name| < TASK_NAME_SIZE && |t.name| <= |name| && t.name == name[..|t.name|]
    ensures |name| >= TASK_NAME_SIZE ==> |t.name| == TASK_NAME_SIZE - 1
    ensures t.owner == owner && t.entry == entry && t.arg == arg && t.prio == prio
    ensures t.usesFp == usesFp && t.cpu == cpu
    ensures t.deleted == old_.deleted && t.failures == old_.failures && t.period == old_.period
    ensures t.ratio == old_.ratio && t.nextTime == old_.nextTime
    ensures t.deadlineScheduling == old_.deadlineScheduling
    ensures t.minfaultBase == old_.minfaultBase && t.majfaultBase == old_.majfaultBase
  {
    old_.(magic := TASK_MAGIC, owner := owner, arg := arg,
          stackSize := if stackSize > MIN_STACK_SIZE then stackSize else MIN_STACK_SIZE,
          hasStack := true, destroyed := false, entry := entry, prio := prio,
          usesFp := usesFp, cpu := cpu, name := Truncate(name, TASK_NAME_SIZE - 1))
  }

  class Rtapi {
    /** The magic field of each module_array entry. */
    var moduleMagic: array<int>
    var tasks: array<Task>
    /** The process-wide base period in nanoseconds; 0 until set. */
    var period: nat

    ghost predicate Valid()
      reads this
    {
      moduleMagic.Length == MAX_MODULES && tasks.Length == MAX_TASKS
    }

    constructor ()
      ensures Valid() && fresh(moduleMagic) && fresh(tasks)
      ensures period == 0
      ensures forall n :: 0 <= n < MAX_MODULES ==> moduleMagic[n] == 0
      ensures forall n :: 0 <= n < MAX_TASKS ==> tasks[n] == ZERO_TASK
    {
      moduleMagic := new int[MAX_MODULES](_ => 0);
      tasks := new Task[MAX_TASKS](_ => ZERO_TASK);
      period := 0;
    }

    /** rtapi_init: tag the first slot without MODULE_MAGIC and return its
      index plus MODULE_OFFSET, or -ENOMEM when every slot is tagged. The
      module name is not stored by this backend. */
    method Init() returns (r: int)
      requires Valid()
      modifies moduleMagic
      ensures Valid()
      ensures var n := FirstUntagged(old(moduleMagic[..]), MODULE_MAGIC);
        if n < MAX_MODULES then
          r == n + MODULE_OFFSET && moduleMagic[..] == old(moduleMagic[..])[n := MODULE_MAGIC]
        else
          r == -ENOMEM && moduleMagic[..] == old(moduleMagic[..])
      ensures r >= 0 ==> r - MODULE_OFFSET !in old(Tagged(moduleMagic[..], MODULE_MAGIC))
      ensures Tagged(moduleMagic[..], MODULE_MAGIC)
              == old(Tagged(moduleMagic[..], MODULE_MAGIC)) + (if r >= 0 then {r - MODULE_OFFSET} else {})
    {
      r := -ENOMEM;
      for n := 0 to MAX_MODULES
        invariant forall j :: 0 <= j < n ==> moduleMagic[j] == MODULE_MAGIC
        invariant moduleMagic[..] == old(moduleMagic[..])
      {
        if moduleMagic[n] != MODULE_MAGIC {
          r := n + MODULE_OFFSET;
          moduleMagic[n] := MODULE_MAGIC;
          TagUpdate(old(moduleMagic[..]), MODULE_MAGIC, n, MODULE_MAGIC);
          return;
        }
      }
    }

    /** rtapi_exit: for a handle in range, clear that slot's tag and return
      0, whether or not the slot was occupied; otherwise -1. */
    method Exit(id: int) returns (r: int)
      requires Valid()
      modifies moduleMagic
      ensures Valid()
      ensures 0 <= id - MODULE_OFFSET < MAX_MODULES ==>
                r == 0 && moduleMagic[..] == old(moduleMagic[..])[id - MODULE_OFFSET := 0]
      ensures !(0 <= id - MODULE_OFFSET < MAX_MODULES) ==>
                r == -1 && moduleMagic[..] == old(moduleMagic[..])
      ensures Tagged(moduleMagic[..], MODULE_MAGIC)
              == old(Tagged(moduleMagic[..], MODULE_MAGIC)) - (if r == 0 then {id - MODULE_OFFSET} else {})
    {
      var n := id - MODULE_OFFSET;
      if n < 0 || n >= MAX_MODULES {
        return -1;
      }
      TagUpdate(moduleMagic[..], MODULE_MAGIC, n, 0);
      moduleMagic[n] := 0;
      r := 0;
    }

    /** rtapi_clock_set_period with the clock resolution `res` as argument:
      0 queries the current period; a second nonzero call fails with
      -EINVAL and keeps the first value; the first nonzero call stores the
      request rounded down to a multiple of the resolution (at least one
      resolution step) and returns it. */
    method ClockSetPeriod(nsecs: nat, res: nat) returns (r: int)
      requires Valid() && res > 0
      modifies this`period
      ensures Valid()
      ensures nsecs == 0 ==> r == old(period) && period == old(period)
      ensures nsecs != 0 && old(period) != 0 ==> r == -EINVAL && period == old(period)
      ensures nsecs != 0 && old(period) == 0 ==> period == QuantizedPeriod(nsecs, res) && r == period
    {
      if nsecs == 0 {
        return period;
      }
      if period != 0 {
        return -EINVAL;
      }
      period := QuantizedPeriod(nsecs, res);
      r := period;
    }

    /** The free-slot scan of rtapi_task_new. */
    method FindFreeTask() returns (n: nat)
      requires Valid()
      ensures n == FirstUntagged(Magics(tasks[..]), TASK_MAGIC)
      ensures n <= MAX_TASKS
      ensures n < MAX_TASKS ==> tasks[n].magic != TASK_MAGIC
      ensures forall j :: 0 <= j < n ==> tasks[j].magic == TASK_MAGIC
    {
      n := 0;
      while n < MAX_TASKS && tasks[n].magic == TASK_MAGIC
        invariant n <= MAX_TASKS
        invariant forall j :: 0 <= j < n ==> tasks[j].magic == TASK_MAGIC
      {
        n := n + 1;
      }
      FirstUntaggedIs(Magics(tasks[..]), TASK_MAGIC, n);
    }

    /** rtapi_task_new: `allocOk` is the outcome of malloc for the stack and
      [lowest, highest] the SCHED_FIFO priority range. The free slot is
      tagged before the priority is checked, so an invalid priority returns
      -EINVAL and leaves that slot tagged. */
    method TaskNew(entry: int, arg: int, prio: int, owner: int, stackSize: nat, usesFp: bool,
                   name: string, cpu: int, lowest: int, highest: int, allocOk: bool) returns (r: int)
      requires Valid()
      modifies tasks
      ensures Valid()
      ensures var n := FirstUntagged(Magics(old(tasks[..])), TASK_MAGIC);
        if !allocOk || n == MAX_TASKS then
          r == -ENOMEM && tasks[..] == old(tasks[..])
        else if prio < lowest || prio > highest then
          r == -EINVAL && tasks[..] == old(tasks[..])[n := old(tasks[n]).(magic := TASK_MAGIC)]
        else
          r == n && tasks[..] == old(tasks[..])[n := NewTask(old(tasks[n]), entry, arg, prio, owner,
                                                              stackSize, usesFp, name, cpu)]
    {
      if !allocOk {
        return -ENOMEM;
      }
      var n := FindFreeTask();
      if n == MAX_TASKS {
        return -ENOMEM;
      }
      tasks[n] := tasks[n].(magic := TASK_MAGIC);
      if prio < lowest || prio > highest {
        return -EINVAL;
      }
      tasks[n] := NewTask(tasks[n], entry, arg, prio, owner, stackSize, usesFp, name, cpu);
      r := n;
    }

    /** The allocation with the priority checked before a slot is tagged:
      an invalid priority changes nothing. */
    method TaskNewChecked(entry: int, arg: int, prio: int, owner: int, stackSize: nat, usesFp: bool,
                          name: string, cpu: int, lowest: int, highest: int, allocOk: bool) returns (r: int)
      requires Valid()
      modifies tasks
      ensures Valid()
      ensures var n := FirstUntagged(Magics(old(tasks[..])), TASK_MAGIC);
        if prio < lowest || prio > highest then
          r == -EINVAL && tasks[..] == old(tasks[..])
        else if !allocOk || n == MAX_TASKS then
          r == -ENOMEM && tasks[..] == old(tasks[..])
        else
          r == n && tasks[..] == old(tasks[..])[n := NewTask(old(tasks[n]), entry, arg, prio, owner,
                                                              stackSize, usesFp, name, cpu)]
      ensures r < 0 ==> Tagged(Magics(tasks[..]), TASK_MAGIC) == old(Tagged(Magics(tasks[..]), TASK_MAGIC))
    {
      if prio < lowest || prio > highest {
        return -EINVAL;
      }
      r := TaskNew(entry, arg, prio, owner, stackSize, usesFp, name, cpu, lowest, highest, allocOk);
    }

    /** rtapi_task_delete: for a live handle, mark the task deleted, join its
      thread only if it was not already marked, free the stack, clear the
      tag and return 0; otherwise -EINVAL. `joined` says whether
      pthread_join was called. */
    method TaskDelete(id: int) returns (r: int, joined: bool)
      requires Valid()
      modifies tasks
      ensures Valid()
      ensures !IsLiveTask(old(tasks[..]), id) ==> r == -EINVAL && !joined && tasks[..] == old(tasks[..])
      ensures IsLiveTask(old(tasks[..]), id) ==>
                r == 0 && joined == !old(tasks[id].deleted) &&
                tasks[..] == old(tasks[..])[id := old(tasks[id]).(deleted := true, hasStack := false, magic := 0)]
    {
      if id < 0 || id >= MAX_TASKS {
        return -EINVAL, false;
      }
      if tasks[id].magic != TASK_MAGIC {
        return -EINVAL, false;
      }
      joined := false;
      if !tasks[id].deleted {
        tasks[id] := tasks[id].(deleted := true);
        joined := true;
      }
      tasks[id] := tasks[id].(hasStack := false);
      tasks[id] := tasks[id].(magic := 0);
      r := 0;
    }

    /** The child's steps in realtime_thread: reset the page-fault
      baseline, raise the period to the base period again and recompute the
      ratio, pin the CPU, then set the FIFO policy (`setSchedOk`). On failure
      the child marks the task deleted. On success it computes the first
      deadline from the clock reading `now`. */
    method ChildInit(id: int, mask: seq<bool>, setAffinityOk: bool, setSchedOk: bool,
                     minflt: nat, majflt: nat, now: TimeSpec)
      requires Valid() && 0 <= id < MAX_TASKS && |mask| == CPU_SETSIZE && period > 0
      modifies tasks
      ensures Valid()
      ensures var eff := EffectivePeriod(old(tasks[id]).period, period);
        var t := ResetPagefaults(old(tasks[id]), minflt, majflt).(period := eff, ratio := eff / period);
        var affinityOk := setAffinityOk && AffinityAvailable(t.cpu, mask);
        && (forall k :: 0 <= k < MAX_TASKS && k != id ==> tasks[k] == old(tasks[k]))
        && (!affinityOk ==> tasks[id] == t.(deleted := true))
        && (affinityOk && !setSchedOk ==> tasks[id] == t.(deleted := true, deadlineScheduling := false))
        && (affinityOk && setSchedOk ==>
              tasks[id] == t.(deadlineScheduling := false, nextTime := tasks[id].nextTime) &&
              Advanced(now, t.period, tasks[id].nextTime))
    {
      var t := ResetPagefaults(tasks[id], minflt, majflt);
      if t.period < period {
        t := t.(period := period);
      }
      t := t.(ratio := t.period / period);
      var err, _ := SetAffinity(t.cpu, mask, setAffinityOk);
      if err != 0 {
        tasks[id] := t.(deleted := true);
        return;
      }
      t := t.(deadlineScheduling := false);
      if !setSchedOk {
        tasks[id] := t.(deleted := true);
        return;
      }
      var next := AdvanceTime(now, t.period, 0);
      tasks[id] := t.(nextTime := next);
    }

    /** rtapi_task_start: for a live handle, set the period to the request
      raised to the base period and the ratio to their quotient, clear
      `deleted`, spawn the thread (`spawnOk`) and wait for its
      initialisation, whose steps are those of ChildInit. Returns -ENOMEM
      when the spawn fails or the child reported failure through `deleted`. The base period must be set: the
      ratio divides by it. */
    method TaskStart(id: int, periodNsec: nat, spawnOk: bool, mask: seq<bool>, setAffinityOk: bool,
                     setSchedOk: bool, minflt: nat, majflt: nat, now: TimeSpec) returns (r: int)
      requires Valid() && period > 0 && |mask| == CPU_SETSIZE
      modifies tasks
      ensures Valid()
      ensures !IsLiveTask(old(tasks[..]), id) ==> r == -EINVAL && tasks[..] == old(tasks[..])
      ensures IsLiveTask(old(tasks[..]), id) ==>
        var eff := EffectivePeriod(periodNsec, period);
        var childOk := setAffinityOk && AffinityAvailable(old(tasks[id]).cpu, mask) && setSchedOk;
        && (forall k :: 0 <= k < MAX_TASKS && k != id ==> tasks[k] == old(tasks[k]))
        && tasks[id].period == eff && tasks[id].ratio == eff / period
        && tasks[id].magic == TASK_MAGIC
        && (r == 0 || r == -ENOMEM)
        && (r == 0 <==> spawnOk && childOk)
        && (!spawnOk ==> tasks[id] == old(tasks[id]).(period := eff, ratio := eff / period, deleted := false))
        && (spawnOk ==>
              var t := ResetPagefaults(old(tasks[id]), minflt, majflt).(period := eff, ratio := eff / period);
              var affinityOk := setAffinityOk && AffinityAvailable(t.cpu, mask);
              && (!affinityOk ==> tasks[id] == t.(deleted := true))
              && (affinityOk && !setSchedOk ==> tasks[id] == t.(deleted := true, deadlineScheduling := false))
              && (childOk ==> tasks[id] == t.(deleted := false, deadlineScheduling := false,
                                               nextTime := tasks[id].nextTime)))
        && (r == 0 ==> Advanced(now, eff, tasks[id].nextTime))
    {
      if id < 0 || id >= MAX_TASKS {
        return -EINVAL;
      }
      if tasks[id].magic != TASK_MAGIC {
        return -EINVAL;
      }
      var eff := if periodNsec < period then period else periodNsec;
      tasks[id] := tasks[id].(period := eff, ratio := eff / period, deleted := false);
      if !spawnOk {
        return -ENOMEM;
      }
      ChildInit(id, mask, setAffinityOk, setSchedOk, minflt, majflt, now);
      if tasks[id].deleted {
        return -ENOMEM;
      }
      r := 0;
    }

    /** rtapi_task_stop: for a live handle, set `destroyed` and return 0.
      `deleted`, the flag the wait primitive tests, is left as it was. */
    method TaskStop(id: int) returns (r: int)
      requires Valid()
      modifies tasks
      ensures Valid()
      ensures !IsLiveTask(old(tasks[..]), id) ==> r == -EINVAL && tasks[..] == old(tasks[..])
      ensures IsLiveTask(old(tasks[..]), id) ==>
                r == 0 && tasks[..] == old(tasks[..])[id := old(tasks[id]).(destroyed := true)]
      ensures IsLiveTask(old(tasks[..]), id) ==> tasks[id].deleted == old(tasks[id].deleted)
    {
      if id < 0 || id >= MAX_TASKS {
        return -EINVAL;
      }
      if tasks[id].magic != TASK_MAGIC {
        return -EINVAL;
      }
      tasks[id] := tasks[id].(destroyed := true);
      r := 0;
    }

    /** rtapi_task_pause: never supported; -ENOSYS for a live handle. */
    function TaskPause(id: int): (r: int)
      requires Valid()
      reads this, tasks
      ensures r == -ENOSYS || r == -EINVAL
      ensures r == -ENOSYS <==> IsLiveTask(tasks[..], id)
    {
      if id < 0 || id >= MAX_TASKS then -EINVAL
      else if tasks[id].magic != TASK_MAGIC then -EINVAL
      else -ENOSYS
    }

    /** rtapi_task_resume: never supported; -ENOSYS for a live handle. */
    function TaskResume(id: int): (r: int)
      requires Valid()
      reads this, tasks
      ensures r == -ENOSYS || r == -EINVAL
      ensures r == -EINVAL <==> !IsLiveTask(tasks[..], id)
    {
      if id < 0 || id >= MAX_TASKS then -EINVAL
      else if tasks[id].magic != TASK_MAGIC then -EINVAL
      else -ENOSYS
    }

    /** rtapi_task_set_period: for a live handle, store the period as given
      (neither raised to the base period nor reflected in the ratio); it
      takes effect at the task's next wait. */
    method TaskSetPeriod(id: int, periodNsec: nat) returns (r: int)
      requires Valid()
      modifies tasks
      ensures Valid()
      ensures !IsLiveTask(old(tasks[..]), id) ==> r == -EINVAL && tasks[..] == old(tasks[..])
      ensures IsLiveTask(old(tasks[..]), id) ==>
                r == 0 && tasks[..] == old(tasks[..])[id := old(tasks[id]).(period := periodNsec)]
    {
      if id < 0 || id >= MAX_TASKS {
        return -EINVAL;
      }
      if tasks[id].magic != TASK_MAGIC {
        return -EINVAL;
      }
      tasks[id] := tasks[id].(period := periodNsec);
      r := 0;
    }

    /** rtapi_wait for the calling task `self`, woken at clock reading `now`:
      a task marked deleted ends its thread; otherwise the deadline advances
      by exactly one period (with the carry loop as written, which can leave
      the nanosecond field at one full second), a wake-up after the new
      deadline in the lexicographic test counts one more failure, and the
      level of the miss report is chosen. */
    method Wait(self: int, now: TimeSpec) returns (outcome: WaitOutcome)
      requires Valid() && 0 <= self < MAX_TASKS
      modifies tasks
      ensures Valid()
      ensures old(tasks[self].deleted) ==> outcome == ThreadExit && tasks[..] == old(tasks[..])
      ensures !old(tasks[self].deleted) ==>
        var t := old(tasks[self]);
        var next := tasks[self].nextTime;
        var late := IsLate(now, next);
        && Advanced(t.nextTime, t.period, next)
        && (Normalized(now) && Normalized(next) ==> (late <==> TotalNs(now) > TotalNs(next)))
        && tasks[self] == t.(nextTime := next, failures := if late then t.failures + 1 else t.failures)
        && tasks[..] == old(tasks[..])[self := tasks[self]]
        && outcome == Returned(if late then MissLevel(t.failures + 1) else MsgNone)
    {
      if tasks[self].deleted {
        return ThreadExit;
      }
      var next := AdvanceTime(tasks[self].nextTime, tasks[self].period, 0);
      if Normalized(now) && Normalized(next) {
        LateIffLater(now, next);
      }
      tasks[self] := tasks[self].(nextTime := next);
      var level := MsgNone;
      if IsLate(now, next) {
        tasks[self] := tasks[self].(failures := tasks[self].failures + 1);
        level := MissLevel(tasks[self].failures);
      }
      outcome := Returned(level);
    }
  }

  /** The scan's stopping point is the first untagged slot. */
  lemma FirstUntaggedIs(s: seq<int>, tag: int, n: nat)
    requires n <= |s|
    requires forall j :: 0 <= j < n ==> s[j] == tag
    requires n < |s| ==> s[n] != tag
    ensures FirstUntagged(s, tag) == n
  {
  }

  /** The base period rtapi_clock_set_period stores: the request rounded
      down to a multiple of the resolution, or one resolution step when
      that multiple is 0. */
  function QuantizedPeriod(nsecs: nat, res: nat): (p: nat)
    requires res > 0
    ensures p > 0 && p % res == 0
    ensures nsecs >= res ==> p <= nsecs < p + res
    ensures nsecs < res ==> p == res
  {
    var q := (nsecs / res) * res;
    RoundDown(nsecs, res);
    if q < 1 then res else q
  }

  lemma RoundDown(n: nat, res: nat)
    requires res > 0
    ensures (n / res) * res <= n < (n / res) * res + res
    ensures ((n / res) * res) % res == 0
    ensures n >= res ==> (n / res) * res >= res
  {
    var q := n / res;
    assert n == q * res + n % res;
    if q > 0 {
      MulStep(0, q, res);
    }
    ModOfMultiple(q, res);
  }

  lemma ModOfMultiple(q: nat, res: nat)
    requires res > 0
    ensures (q * res) % res == 0
  {
    DivExact(q, res);
    assert q * res == ((q * res) / res) * res + (q * res) % res;
  }

  /** The start of a fresh process: base period 1 ms, then a task at the
      highest priority that asks for 0.5 ms starts and runs at 1 ms. */
  method StartBelowBasePeriod(mask: seq<bool>) returns (id: int, started: int, effective: nat)
    requires |mask| == CPU_SETSIZE && mask[0]
    ensures id == 0 && started == 0 && effective == 1_000_000
  {
    var rt := new Rtapi();
    var p := rt.ClockSetPeriod(1_000_000, 1);
    assert rt.period == 1_000_000;
    FirstUntaggedIs(Magics(rt.tasks[..]), TASK_MAGIC, 0);
    id := rt.TaskNewChecked(0, 0, 99, MODULE_OFFSET, 0, false, "task", -1, 1, 99, true);
    assert id == 0 && rt.tasks[0].magic == TASK_MAGIC && rt.tasks[0].cpu == -1;
    assert IsLiveTask(rt.tasks[..], id);
    started, effective := StartAtHalfBasePeriod(rt, id, mask);
  }

  /** Helper: a live task on any CPU that asks for half the 1 ms base
      period starts and runs at 1 ms. */
  method StartAtHalfBasePeriod(rt: Rtapi, id: int, mask: seq<bool>) returns (started: int, effective: nat)
    requires rt.Valid() && rt.period == 1_000_000 && |mask| == CPU_SETSIZE && mask[0]
    requires IsLiveTask(rt.tasks[..], id) && rt.tasks[id].cpu == -1
    modifies rt.tasks
    ensures started == 0 && effective == 1_000_000
  {
    assert AffinityAvailable(-1, mask);
    assert EffectivePeriod(500_000, rt.period) == 1_000_000;
    started := rt.TaskStart(id, 500_000, true, mask, true, true, 0, 0, TimeSpec(0, 0));
    effective := rt.tasks[id].period;
  }

  /** Stop, delete, new: when every slot below a live task is occupied,
      the next allocation after deleting it returns the same handle. */
  method SlotReusedAfterDelete(rt: Rtapi, id: int, prio: int, lowest: int, highest: int)
      returns (again: int)
    requires rt.Valid() && IsLiveTask(rt.tasks[..], id)
    requires forall j :: 0 <= j < id ==> rt.tasks[j].magic == TASK_MAGIC
    requires lowest <= prio <= highest
    modifies rt.tasks
    ensures again == id
  {
    var stopped := rt.TaskStop(id);
    var deleted, joined := rt.TaskDelete(id);
    FirstUntaggedIs(Magics(rt.tasks[..]), TASK_MAGIC, id);
    again := rt.TaskNewChecked(0, 0, prio, MODULE_OFFSET, 0, false, "task", -1, lowest, highest, true);
  }

  /** Deleting a task twice: the second call finds the tag cleared and
      reports -EINVAL without joining. */
  method DeleteTwice(rt: Rtapi, id: int) returns (first: int, second: int, joinedAgain: bool)
    requires rt.Valid()
    modifies rt.tasks
    ensures second == -EINVAL && !joinedAgain
    ensures first == 0 <==> old(IsLiveTask(rt.tasks[..], id))
  {
    var j;
    first, j := rt.TaskDelete(id);
    second, joinedAgain := rt.TaskDelete(id);
  }

  /** Stopping a running task does not make its next wait end the thread:
      the wait tests `deleted`, which stop leaves clear. */
  method StopThenWait(rt: Rtapi, id: int, now: TimeSpec) returns (stopped: int, outcome: WaitOutcome)
    requires rt.Valid() && 0 <= id < MAX_TASKS
    requires IsLiveTask(rt.tasks[..], id) && !rt.tasks[id].deleted
    modifies rt.tasks
    ensures stopped == 0 && outcome != ThreadExit
  {
    stopped := rt.TaskStop(id);
    outcome := rt.Wait(id, now);
  }

  /** A task whose deadline is (0 s, 0 ns) with a one-second period gets
      the deadline (0 s, 1e9 ns) from the carry loop as written; a wake-up
      at (1 s, 0 ns), which is exactly on time, is judged late and counted
      as a failure. */
  method OnTimeWakeCountedLate(rt: Rtapi, id: int) returns (outcome: WaitOutcome)
    requires rt.Valid() && 0 <= id < MAX_TASKS
    requires rt.tasks[id].nextTime == TimeSpec(0, 0) && rt.tasks[id].period == NSEC_PER_SEC
    requires !rt.tasks[id].deleted && rt.tasks[id].failures == 0
    modifies rt.tasks
    ensures rt.tasks[id].nextTime == TimeSpec(0, NSEC_PER_SEC)
    ensures TotalNs(rt.tasks[id].nextTime) == TotalNs(TimeSpec(1, 0))
    ensures rt.tasks[id].failures == 1 && outcome == Returned(MissLevel(1))
  {
    outcome := rt.Wait(id, TimeSpec(1, 0));
    AdvancedUnique(TimeSpec(0, 0), NSEC_PER_SEC, rt.tasks[id].nextTime, TimeSpec(0, NSEC_PER_SEC));
  }

  /** After a carry the deadline can also end on a full second: from
      (0 s, 0.5e9 ns) a 1.5 s period gives (1 s, 1e9 ns), the instant
      (2 s, 0 ns), and a wake-up at exactly that instant is counted as a
      failure. */
  method CarriedDeadlineCountedLate(rt: Rtapi, id: int) returns (outcome: WaitOutcome)
    requires rt.Valid() && 0 <= id < MAX_TASKS
    requires rt.tasks[id].nextTime == TimeSpec(0, 500_000_000) && rt.tasks[id].period == 1_500_000_000
    requires !rt.tasks[id].deleted && rt.tasks[id].failures == 0
    modifies rt.tasks
    ensures rt.tasks[id].nextTime == TimeSpec(1, NSEC_PER_SEC)
    ensures TotalNs(rt.tasks[id].nextTime) == TotalNs(TimeSpec(2, 0))
    ensures rt.tasks[id].failures == 1 && outcome == Returned(MissLevel(1))
  {
    outcome := rt.Wait(id, TimeSpec(2, 0));
    AdvancedUnique(TimeSpec(0, 500_000_000), 1_500_000_000, rt.tasks[id].nextTime, TimeSpec(1, NSEC_PER_SEC));
  }

  /** On a fresh table, a request with an invalid priority fails with
      -EINVAL, yet as written it leaves slot 0 tagged, so the next valid
      request gets handle 1; the corrected allocation leaves slot 0 free. */
  method InvalidPriorityLeaksSlot() returns (refused: int, next: int, refusedFixed: int, nextFixed: int)
    ensures refused == -EINVAL && next == 1
    ensures refusedFixed == -EINVAL && nextFixed == 0
  {
    var rt := new Rtapi();
    FirstUntaggedIs(Magics(rt.tasks[..]), TASK_MAGIC, 0);
    refused := rt.TaskNew(0, 0, 0, MODULE_OFFSET, 0, false, "bad", -1, 1, 99, true);
    assert rt.tasks[0].magic == TASK_MAGIC && rt.tasks[1].magic == 0;
    FirstUntaggedIs(Magics(rt.tasks[..]), TASK_MAGIC, 1);
    next := rt.TaskNew(0, 0, 50, MODULE_OFFSET, 0, false, "good", -1, 1, 99, true);

    var fixed := new Rtapi();
    FirstUntaggedIs(Magics(fixed.tasks[..]), TASK_MAGIC, 0);
    refusedFixed := fixed.TaskNewChecked(0, 0, 0, MODULE_OFFSET, 0, false, "bad", -1, 1, 99, true);
    FirstUntaggedIs(Magics(fixed.tasks[..]), TASK_MAGIC, 0);
    nextFixed := fixed.TaskNewChecked(0, 0, 50, MODULE_OFFSET, 0, false, "good", -1, 1, 99, true);
  }
}
