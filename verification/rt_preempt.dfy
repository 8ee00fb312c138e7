/** The RT_PREEMPT backend: a module table whose slots 1..RTAPI_MAX_MODULES
    are occupied when their state is not NoModule, the per-task extra data
    (deleted and destroyed flags, next deadline, thread handle, stack), the
    per-thread statistics and the hooks the generic task layer calls.

    The generic task record (period, ratio, cpu) lives outside this file;
    the part of it the hooks read and write is the `params` table. Thread
    creation, the barrier and pthread_join are sequential, with outcomes as
    parameters; pthread_self() is the parameter `selfThread` and the
    thread-local task pointer is the index `id`. */
module RtPreempt {
  import opened Common
  import opened RtTime
  import opened RtThread

  const RTAPI_MAX_MODULES: nat := 64
  const RTAPI_MAX_TASKS: nat := 64
  const RTAPI_NAME_LEN: nat := 31
  const MODULE_OFFSET: int := 32768

  datatype ModuleState = NoModule | Realtime | Userspace

  datatype ModuleSlot = ModuleSlot(state: ModuleState, name: string)

  /** extra_task_data_t, without the fields this backend never touches.
      `thread` is the pthread_t handle; `hasStack` a non-NULL stackaddr. */
  datatype ExtraTask = ExtraTask(
    deleted: bool,
    destroyed: bool,
    nextTime: TimeSpec,
    thread: int,
    hasStack: bool,
    tid: int)

  /** The fields of the generic task record that the hooks use. */
  datatype TaskParams = TaskParams(period: nat, ratio: nat, cpu: int)

  /** The getrusage fields the statistics hook copies. */
  datatype Rusage = Rusage(
    utimeSec: nat, utimeUsec: nat, stimeSec: nat, stimeUsec: nat,
    minflt: nat, majflt: nat, nsignals: nat, nivcsw: nat)

  /** One thread_status entry. */
  datatype ThreadStatus = ThreadStatus(numUpdates: nat, waitErrors: nat, usage: Rusage)

  datatype ExceptionCode = DeadlineMissed

  /** One call of the installed exception handler: the code, the task id in
      the detail record, and the thread status it is handed. */
  datatype HandlerCall = HandlerCall(code: ExceptionCode, taskId: int, status: ThreadStatus)

  datatype WaitOutcome = ThreadExit | Returned

  const ZERO_RUSAGE: Rusage := Rusage(0, 0, 0, 0, 0, 0, 0, 0)

  // ---------------------------------------------------------------------
  // Module names
  // ---------------------------------------------------------------------

  predicate IsDecimal(s: string) {
    forall i :: 0 <= i < |s| ==> '0' <= s[i] <= '9'
  }

  function DigitChar(d: nat): (c: char)
    requires d < 10
    ensures '0' <= c <= '9' && c as int - '0' as int == d
  {
    ('0' as int + d) as char
  }

  /** The decimal representation of n, as "%d" prints it. */
  function DecimalDigits(n: nat): (s: string)
    ensures |s| >= 1 && IsDecimal(s)
  {
    if n < 10 then [DigitChar(n)] else DecimalDigits(n / 10) + [DigitChar(n % 10)]
  }

  /** The value of a string of decimal digits; the partner of DecimalDigits. */
  function ParseDecimal(s: string): nat
    requires IsDecimal(s)
  {
    if s == [] then 0
    else ParseDecimal(s[..|s| - 1]) * 10 + (s[|s| - 1] as int - '0' as int)
  }

  lemma {:induction false} DecimalRoundTrip(n: nat)
    ensures ParseDecimal(DecimalDigits(n)) == n
  {
    if n >= 10 {
      var s := DecimalDigits(n);
      assert s[..|s| - 1] == DecimalDigits(n / 10);
      DecimalRoundTrip(n / 10);
    }
  }

  function Pow10(k: nat): (p: nat)
    ensures p >= 1
  {
    if k == 0 then 1 else 10 * Pow10(k - 1)
  }

  lemma {:induction false} DigitsLength(n: nat, k: nat)
    requires k >= 1 && n < Pow10(k)
    ensures |DecimalDigits(n)| <= k
  {
    if n >= 10 {
      assert k >= 2;
      DigitsLength(n / 10, k - 1);
    }
  }

  function Zeros(k: nat): (z: string)
    ensures |z| == k && IsDecimal(z)
  {
    seq(k, _ => '0')
  }

  /** "%03d": the digits left-padded with zeros to width 3. */
  function Format03(n: nat): (s: string)
    ensures IsDecimal(s) && |s| >= 3
    ensures |DecimalDigits(n)| >= 3 ==> s == DecimalDigits(n)
  {
    var d := DecimalDigits(n);
    if |d| >= 3 then d else Zeros(3 - |d|) + d
  }

  /** Leading zeros do not change a decimal value. */
  lemma {:induction false} LeadingZeros(k: nat, s: string)
    requires IsDecimal(s)
    ensures ParseDecimal(Zeros(k) + s) == ParseDecimal(s)
    decreases |s|, k
  {
    if s == [] {
      assert Zeros(k) + s == Zeros(k);
      if k > 0 {
        assert Zeros(k)[..k - 1] == Zeros(k - 1);
        LeadingZeros(k - 1, []);
        assert Zeros(k - 1) + [] == Zeros(k - 1);
      }
    } else {
      var t := Zeros(k) + s;
      assert t[..|t| - 1] == Zeros(k) + s[..|s| - 1];
      LeadingZeros(k, s[..|s| - 1]);
    }
  }

  lemma Format03RoundTrip(n: nat)
    ensures ParseDecimal(Format03(n)) == n
  {
    DecimalRoundTrip(n);
    if |DecimalDigits(n)| < 3 {
      LeadingZeros(3 - |DecimalDigits(n)|, DecimalDigits(n));
    }
  }

  /** The name _rtapi_init stores: the caller's name, or "ULMOD" and the
      module id printed with %03d, truncated by snprintf to
      RTAPI_NAME_LEN - 1 characters. */
  function ModuleName(modname: Option<string>, moduleId: nat): (name: string)
    ensures |name| < RTAPI_NAME_LEN
    ensures modname.Some? ==> |name| <= |modname.value| && name == modname.value[..|name|]
    ensures modname.Some? && |modname.value| < RTAPI_NAME_LEN ==> name == modname.value
    ensures modname.Some? && |modname.value| >= RTAPI_NAME_LEN ==> |name| == RTAPI_NAME_LEN - 1
    ensures modname.None? ==> |name| >= 8 && name[..5] == "ULMOD" && IsDecimal(name[5..])
  {
    match modname
    case Some(s) => Truncate(s, RTAPI_NAME_LEN - 1)
    case None => Truncate("ULMOD" + Format03(moduleId), RTAPI_NAME_LEN - 1)
  }

  /** A generated name spells the module id after "ULMOD", so two modules
      that got generated names have different names. */
  lemma {:induction false} GeneratedNameEncodesId(moduleId: nat)
    requires moduleId < Pow10(25)
    ensures var name := ModuleName(None, moduleId);
      |name| > 5 && name[..5] == "ULMOD" && IsDecimal(name[5..]) && ParseDecimal(name[5..]) == moduleId
  {
    DigitsLength(moduleId, 25);
    var full := "ULMOD" + Format03(moduleId);
    assert |full| < RTAPI_NAME_LEN;
    assert ModuleName(None, moduleId) == full;
    assert full[5..] == Format03(moduleId);
    Format03RoundTrip(moduleId);
  }

  lemma GeneratedNamesDistinct(a: nat, b: nat)
    requires a < Pow10(25) && b < Pow10(25) && a != b
    ensures ModuleName(None, a) != ModuleName(None, b)
  {
    GeneratedNameEncodesId(a);
    GeneratedNameEncodesId(b);
  }

  // ---------------------------------------------------------------------
  // Handles accepted by exit
  // ---------------------------------------------------------------------

  /** The handles _rtapi_init can return. */
  predicate IsModuleHandle(id: int) {
    1 <= id - MODULE_OFFSET <= RTAPI_MAX_MODULES
  }

  /** The range test of _rtapi_exit as written: slots 0..RTAPI_MAX_MODULES-1. */
  predicate ExitAccepts(id: int) {
    0 <= id - MODULE_OFFSET < RTAPI_MAX_MODULES
  }

  /** The range test matching the allocator: slots 1..RTAPI_MAX_MODULES. */
  predicate ExitAcceptsFixed(id: int) {
    1 <= id - MODULE_OFFSET <= RTAPI_MAX_MODULES
  }

  /** As written, the last handle init can hand out is refused by exit (its
      slot can never be freed) and a handle init never returns is accepted. */
  lemma ExitRangeMismatch()
    ensures IsModuleHandle(MODULE_OFFSET + RTAPI_MAX_MODULES) && !ExitAccepts(MODULE_OFFSET + RTAPI_MAX_MODULES)
    ensures !IsModuleHandle(MODULE_OFFSET) && ExitAccepts(MODULE_OFFSET)
  {
  }

  /** The corrected test accepts exactly the handles init returns. */
  lemma ExitFixedMatchesInit(id: int)
    ensures ExitAcceptsFixed(id) <==> IsModuleHandle(id)
  {
  }

  // ---------------------------------------------------------------------
  // Self lookup and statistics
  // ---------------------------------------------------------------------

  /** The smallest n in from..RTAPI_MAX_TASKS whose stored thread is
      `self`, or -EINVAL. */
  function SelfIdFrom(ex: seq<ExtraTask>, self: int, from: nat): (r: int)
    requires |ex| == RTAPI_MAX_TASKS + 1
    ensures r == -EINVAL || from <= r <= RTAPI_MAX_TASKS
    ensures r != -EINVAL ==> ex[r].thread == self
    ensures r != -EINVAL ==> forall k :: from <= k < r ==> ex[k].thread != self
    ensures r == -EINVAL ==> forall k :: from <= k <= RTAPI_MAX_TASKS ==> ex[k].thread != self
    decreases RTAPI_MAX_TASKS + 1 - from
  {
    if from > RTAPI_MAX_TASKS then -EINVAL
    else if ex[from].thread == self then from
    else SelfIdFrom(ex, self, from + 1)
  }

  /** The id _rtapi_task_self_hook finds for thread `self`. */
  function SelfId(ex: seq<ExtraTask>, self: int): (r: int)
    requires |ex| == RTAPI_MAX_TASKS + 1
    ensures r == -EINVAL || 1 <= r <= RTAPI_MAX_TASKS
  {
    SelfIdFrom(ex, self, 1)
  }

  /** The statistics table after one _rtapi_task_update_stats_hook for task
      `taskId` with getrusage outcome `ruOk` and values `ru`. */
  function StatsAfterUpdate(st: seq<ThreadStatus>, taskId: int, ruOk: bool, ru: Rusage): (r: seq<ThreadStatus>)
    requires |st| == RTAPI_MAX_TASKS + 1
    ensures |r| == |st|
    ensures forall k :: 0 <= k < |st| && k != taskId ==> r[k] == st[k]
    ensures 0 <= taskId <= RTAPI_MAX_TASKS && ruOk ==>
              r[taskId].numUpdates == st[taskId].numUpdates + 1 &&
              r[taskId].waitErrors == st[taskId].waitErrors && r[taskId].usage == ru
    ensures !(0 <= taskId <= RTAPI_MAX_TASKS && ruOk) ==> r == st
  {
    if taskId < 0 || taskId > RTAPI_MAX_TASKS || !ruOk then st
    else st[taskId := st[taskId].(usage := ru, numUpdates := st[taskId].numUpdates + 1)]
  }

  class Preempt {
    var modules: array<ModuleSlot>
    var ulModuleCount: nat
    var params: array<TaskParams>
    var extra: array<ExtraTask>
    var status: array<ThreadStatus>
    /** The base period of the generic layer; the ratio divides by it. */
    var basePeriod: nat
    var handlerInstalled: bool
    /** The calls made so far to the installed exception handler. */
    var handlerCalls: seq<HandlerCall>

    ghost predicate Valid()
      reads this
    {
      modules.Length == RTAPI_MAX_MODULES + 1 &&
      params.Length == RTAPI_MAX_TASKS + 1 &&
      extra.Length == RTAPI_MAX_TASKS + 1 &&
      status.Length == RTAPI_MAX_TASKS + 1
    }

    constructor (basePeriod: nat, handlerInstalled: bool)
      ensures Valid() && fresh(modules) && fresh(params) && fresh(extra) && fresh(status)
      ensures this.basePeriod == basePeriod && this.handlerInstalled == handlerInstalled
      ensures ulModuleCount == 0 && handlerCalls == []
      ensures forall n :: 0 <= n <= RTAPI_MAX_MODULES ==> modules[n].state == NoModule
    {
      modules := new ModuleSlot[RTAPI_MAX_MODULES + 1](_ => ModuleSlot(NoModule, ""));
      params := new TaskParams[RTAPI_MAX_TASKS + 1](_ => TaskParams(0, 0, -1));
      extra := new ExtraTask[RTAPI_MAX_TASKS + 1](_ => ExtraTask(false, false, TimeSpec(0, 0), 0, false, 0));
      status := new ThreadStatus[RTAPI_MAX_TASKS + 1](_ => ThreadStatus(0, 0, ZERO_RUSAGE));
      ulModuleCount := 0;
      this.basePeriod := basePeriod;
      this.handlerInstalled := handlerInstalled;
      handlerCalls := [];
    }

    /** _rtapi_init: take the smallest free slot in 1..RTAPI_MAX_MODULES,
      mark it REALTIME, name it, count the module and return the slot plus
      MODULE_OFFSET; -EMFILE with no change when every slot is taken. */
    method Init(modname: Option<string>) returns (r: int)
      requires Valid()
      modifies modules, this`ulModuleCount
      ensures Valid()
      ensures r == -EMFILE || IsModuleHandle(r)
      ensures r == -EMFILE <==> forall k :: 1 <= k <= RTAPI_MAX_MODULES ==> old(modules[k].state) != NoModule
      ensures r == -EMFILE ==> modules[..] == old(modules[..]) && ulModuleCount == old(ulModuleCount)
      ensures r != -EMFILE ==>
        var n := r - MODULE_OFFSET;
        && old(modules[n].state) == NoModule
        && (forall k :: 1 <= k < n ==> old(modules[k].state) != NoModule)
        && modules[..] == old(modules[..])[n := ModuleSlot(Realtime, ModuleName(modname, r))]
        && ulModuleCount == old(ulModuleCount) + 1
    {
      var n := 1;
      while n <= RTAPI_MAX_MODULES && modules[n].state != NoModule
        invariant 1 <= n <= RTAPI_MAX_MODULES + 1
        invariant forall k :: 1 <= k < n ==> modules[k].state != NoModule
      {
        n := n + 1;
      }
      if n > RTAPI_MAX_MODULES {
        return -EMFILE;
      }
      r := n + MODULE_OFFSET;
      modules[n] := ModuleSlot(Realtime, ModuleName(modname, r));
      ulModuleCount := ulModuleCount + 1;
    }

    /** _rtapi_exit as written: for a handle whose slot lies in
      0..RTAPI_MAX_MODULES-1, set that slot to NO_MODULE (its name stays)
      and return 0; otherwise -1. The module count is not decremented. */
    method Exit(id: int) returns (r: int)
      requires Valid()
      modifies modules
      ensures Valid()
      ensures !ExitAccepts(id) ==> r == -1 && modules[..] == old(modules[..])
      ensures ExitAccepts(id) ==>
                r == 0 &&
                modules[..] == old(modules[..])[id - MODULE_OFFSET := old(modules[id - MODULE_OFFSET]).(state := NoModule)]
    {
      var n := id - MODULE_OFFSET;
      if n < 0 || n >= RTAPI_MAX_MODULES {
        return -1;
      }
      modules[n] := modules[n].(state := NoModule);
      r := 0;
    }

    /** Exit with the range test of the allocator: every handle init returns
      can be freed, and exit then makes init able to reuse that slot. */
    method ExitFixed(id: int) returns (r: int)
      requires Valid()
      modifies modules
      ensures Valid()
      ensures !IsModuleHandle(id) ==> r == -1 && modules[..] == old(modules[..])
      ensures IsModuleHandle(id) ==>
                r == 0 && modules[id - MODULE_OFFSET].state == NoModule &&
                modules[..] == old(modules[..])[id - MODULE_OFFSET := old(modules[id - MODULE_OFFSET]).(state := NoModule)]
    {
      var n := id - MODULE_OFFSET;
      if !ExitAcceptsFixed(id) {
        return -1;
      }
      modules[n] := modules[n].(state := NoModule);
      r := 0;
    }

    /** _rtapi_task_self_hook: linear search of slots 1..RTAPI_MAX_TASKS
      for the caller's thread handle. */
    method TaskSelf(selfThread: int) returns (r: int)
      requires Valid()
      ensures r == SelfId(extra[..], selfThread)
      ensures r == -EINVAL <==> forall k :: 1 <= k <= RTAPI_MAX_TASKS ==> extra[k].thread != selfThread
      ensures r != -EINVAL ==>
                1 <= r <= RTAPI_MAX_TASKS && extra[r].thread == selfThread &&
                forall k :: 1 <= k < r ==> extra[k].thread != selfThread
    {
      var n := 1;
      while n <= RTAPI_MAX_TASKS
        invariant 1 <= n <= RTAPI_MAX_TASKS + 1
        invariant forall k :: 1 <= k < n ==> extra[k].thread != selfThread
        invariant SelfId(extra[..], selfThread) == SelfIdFrom(extra[..], selfThread, n)
      {
        if extra[n].thread == selfThread {
          return n;
        }
        n := n + 1;
      }
      r := -EINVAL;
    }

    /** _rtapi_task_update_stats_hook for the calling thread: -ENOENT when
      the self lookup gives an id outside 0..RTAPI_MAX_TASKS; the getrusage
      error number `errno` when `ruOk` is false; otherwise the copied usage
      and one more update are recorded and the id is returned. */
    method UpdateStatsHook(selfThread: int, ruOk: bool, ru: Rusage, errno: int) returns (r: int)
      requires Valid()
      modifies status
      ensures Valid()
      ensures var id := SelfId(extra[..], selfThread);
        r == (if id < 0 || id > RTAPI_MAX_TASKS then -ENOENT else if !ruOk then errno else id)
      ensures status[..] == StatsAfterUpdate(old(status[..]), SelfId(extra[..], selfThread), ruOk, ru)
    {
      var id := TaskSelf(selfThread);
      if id < 0 || id > RTAPI_MAX_TASKS {
        return -ENOENT;
      }
      if !ruOk {
        return errno;
      }
      status[id] := status[id].(usage := ru, numUpdates := status[id].numUpdates + 1);
      r := id;
    }

    /** _rtapi_task_new_hook: allocate the stack (`allocOk`), clear
      `destroyed` and return the id; -ENOMEM with no change otherwise. */
    method NewHook(id: nat, allocOk: bool) returns (r: int)
      requires Valid() && id <= RTAPI_MAX_TASKS
      modifies extra
      ensures Valid()
      ensures !allocOk ==> r == -ENOMEM && extra[..] == old(extra[..])
      ensures allocOk ==> r == id && extra[..] == old(extra[..])[id := old(extra[id]).(hasStack := true, destroyed := false)]
    {
      if !allocOk {
        return -ENOMEM;
      }
      extra[id] := extra[id].(hasStack := true, destroyed := false);
      r := id;
    }

    /** _rtapi_task_delete_hook: join the thread only if it was not marked
      deleted; afterwards it is marked deleted and has no stack. */
    method DeleteHook(id: nat) returns (joined: bool)
      requires Valid() && id <= RTAPI_MAX_TASKS
      modifies extra
      ensures Valid()
      ensures joined == !old(extra[id].deleted)
      ensures extra[..] == old(extra[..])[id := old(extra[id]).(deleted := true, hasStack := false)]
    {
      joined := false;
      if !extra[id].deleted {
        extra[id] := extra[id].(deleted := true);
        joined := true;
      }
      extra[id] := extra[id].(hasStack := false);
    }

    /** _rtapi_task_stop_hook: set `destroyed` only. */
    method StopHook(id: nat)
      requires Valid() && id <= RTAPI_MAX_TASKS
      modifies extra
      ensures Valid()
      ensures extra[..] == old(extra[..])[id := old(extra[id]).(destroyed := true)]
    {
      extra[id] := extra[id].(destroyed := true);
    }

    /** The child's steps in realtime_thread: raise the period to the base
      period and compute the ratio, record the kernel thread id `tid`, pin
      the CPU, set the FIFO policy (`setSchedOk`); on failure mark the task
      deleted, on success compute the first deadline from `now`. */
    method ChildInit(id: nat, tid: int, mask: seq<bool>, setAffinityOk: bool, setSchedOk: bool, now: TimeSpec)
      requires Valid() && id <= RTAPI_MAX_TASKS && basePeriod > 0 && |mask| == CPU_SETSIZE
      modifies extra, params
      ensures Valid()
      ensures var eff := EffectivePeriod(old(params[id].period), basePeriod);
        var childOk := setAffinityOk && AffinityAvailable(old(params[id].cpu), mask) && setSchedOk;
        && params[..] == old(params[..])[id := old(params[id]).(period := eff, ratio := eff / basePeriod)]
        && (forall k :: 0 <= k <= RTAPI_MAX_TASKS && k != id ==> extra[k] == old(extra[k]))
        && (!childOk ==> extra[id] == old(extra[id]).(tid := tid, deleted := true))
        && (childOk ==> extra[id] == old(extra[id]).(tid := tid, nextTime := extra[id].nextTime) &&
                        Advanced(now, eff, extra[id].nextTime))
    {
      if params[id].period < basePeriod {
        params[id] := params[id].(period := basePeriod);
      }
      params[id] := params[id].(ratio := params[id].period / basePeriod);
      extra[id] := extra[id].(tid := tid);
      var err, _ := SetAffinity(params[id].cpu, mask, setAffinityOk);
      if err != 0 || !setSchedOk {
        extra[id] := extra[id].(deleted := true);
        return;
      }
      var next := AdvanceTime(now, params[id].period, 0);
      extra[id] := extra[id].(nextTime := next);
    }

    /** _rtapi_task_start_hook: clear `deleted`, create the thread
      (`spawnOk`, storing handle `thread`) and wait for its initialisation;
      -ENOMEM exactly when creation fails or the child reported failure. */
    method StartHook(id: nat, spawnOk: bool, thread: int, tid: int, mask: seq<bool>,
                     setAffinityOk: bool, setSchedOk: bool, now: TimeSpec) returns (r: int)
      requires Valid() && id <= RTAPI_MAX_TASKS && basePeriod > 0 && |mask| == CPU_SETSIZE
      modifies extra, params
      ensures Valid()
      ensures var childOk := setAffinityOk && AffinityAvailable(old(params[id].cpu), mask) && setSchedOk;
        && (r == 0 || r == -ENOMEM)
        && (r == 0 <==> spawnOk && childOk)
        && (forall k :: 0 <= k <= RTAPI_MAX_TASKS && k != id ==> extra[k] == old(extra[k]) && params[k] == old(params[k]))
        && (!spawnOk ==> extra[id] == old(extra[id]).(deleted := false) && params[id] == old(params[id]))
        && (spawnOk ==>
              var eff := EffectivePeriod(old(params[id].period), basePeriod);
              && params[id] == old(params[id]).(period := eff, ratio := eff / basePeriod)
              && (!childOk ==> extra[id] == old(extra[id]).(thread := thread, tid := tid, deleted := true))
              && (childOk ==> extra[id] == old(extra[id]).(thread := thread, tid := tid, deleted := false,
                                                           nextTime := extra[id].nextTime)))
        && (r == 0 ==> Advanced(now, params[id].period, extra[id].nextTime))
    {
      extra[id] := extra[id].(deleted := false);
      if !spawnOk {
        return -ENOMEM;
      }
      extra[id] := extra[id].(thread := thread);
      ChildInit(id, tid, mask, setAffinityOk, setSchedOk, now);
      if extra[id].deleted {
        return -ENOMEM;
      }
      r := 0;
    }

    /** _rtapi_wait_hook for task `id` running on thread `selfThread`, woken
      at `now`: a task marked deleted ends its thread; otherwise the
      deadline advances by one period (carry loop as written), and a wake-up
      after the new deadline updates the statistics, counts one more wait
      error for the task and, when a handler is installed, calls it with
      DeadlineMissed, the task id and the task's status. */
    method WaitHook(id: nat, selfThread: int, now: TimeSpec, ruOk: bool, ru: Rusage, errno: int)
      returns (outcome: WaitOutcome)
      requires Valid() && id <= RTAPI_MAX_TASKS
      modifies extra, status, this`handlerCalls
      ensures Valid()
      ensures old(extra[id].deleted) ==>
                outcome == ThreadExit && extra[..] == old(extra[..]) &&
                status[..] == old(status[..]) && handlerCalls == old(handlerCalls)
      ensures !old(extra[id].deleted) ==>
        var next := extra[id].nextTime;
        var st := StatsAfterUpdate(old(status[..]), SelfId(extra[..], selfThread), ruOk, ru);
        && outcome == Returned
        && Advanced(old(extra[id].nextTime), params[id].period, next)
        && (Normalized(now) && Normalized(next) ==> (IsLate(now, next) <==> TotalNs(now) > TotalNs(next)))
        && extra[..] == old(extra[..])[id := old(extra[id]).(nextTime := next)]
        && (!IsLate(now, next) ==> status[..] == old(status[..]) && handlerCalls == old(handlerCalls))
        && (IsLate(now, next) ==>
              status[..] == st[id := st[id].(waitErrors := st[id].waitErrors + 1)] &&
              handlerCalls == old(handlerCalls) +
                (if handlerInstalled then [HandlerCall(DeadlineMissed, id, status[id])] else []))
    {
      if extra[id].deleted {
        return ThreadExit;
      }
      var next := AdvanceTime(extra[id].nextTime, params[id].period, 0);
      assert extra[id].nextTime.nsec + params[id].period <= NSEC_PER_SEC ==>
        next == TimeSpec(extra[id].nextTime.sec, extra[id].nextTime.nsec + params[id].period);
      if Normalized(now) && Normalized(next) {
        LateIffLater(now, next);
      }
      extra[id] := extra[id].(nextTime := next);
      if IsLate(now, next) {
        ReportMiss(id, selfThread, ruOk, ru, errno);
      }
      outcome := Returned;
    }

    /** The miss branch of the wait hook: update the statistics, count one
      more wait error for task `id` and call the installed handler. */
    method ReportMiss(id: nat, selfThread: int, ruOk: bool, ru: Rusage, errno: int)
      requires Valid() && id <= RTAPI_MAX_TASKS
      modifies status, this`handlerCalls
      ensures Valid()
      ensures var st := StatsAfterUpdate(old(status[..]), SelfId(extra[..], selfThread), ruOk, ru);
        && status[..] == st[id := st[id].(waitErrors := st[id].waitErrors + 1)]
        && handlerCalls == old(handlerCalls) +
             (if handlerInstalled then [HandlerCall(DeadlineMissed, id, status[id])] else [])
    {
      var _ := UpdateStatsHook(selfThread, ruOk, ru, errno);
      status[id] := status[id].(waitErrors := status[id].waitErrors + 1);
      if handlerInstalled {
        handlerCalls := handlerCalls + [HandlerCall(DeadlineMissed, id, status[id])];
      }
    }
  }

  /** A wait that misses its deadline adds exactly one wait error to the
      task, whatever the statistics update did. */
  lemma MissCountsOneError(st: seq<ThreadStatus>, id: nat, taskId: int, ruOk: bool, ru: Rusage)
    requires |st| == RTAPI_MAX_TASKS + 1 && id <= RTAPI_MAX_TASKS
    ensures var s := StatsAfterUpdate(st, taskId, ruOk, ru);
      s[id := s[id].(waitErrors := s[id].waitErrors + 1)][id].waitErrors == st[id].waitErrors + 1
  {
  }

  /** Filling the table: after RTAPI_MAX_MODULES inits on a fresh backend
      the slots 1..RTAPI_MAX_MODULES are taken; as written, exit refuses the
      last handle, while the corrected exit frees it. */
  method LastModuleCannotExit() returns (last: int, asWritten: int, fixed: int)
    ensures last == MODULE_OFFSET + RTAPI_MAX_MODULES
    ensures asWritten == -1 && fixed == 0
  {
    var p := new Preempt(1, false);
    last := FillModules(p);
    asWritten := p.Exit(last);
    fixed := p.ExitFixed(last);
  }

  /** RTAPI_MAX_MODULES inits on an empty table take every slot; the last
      returns the highest handle. */
  method FillModules(p: Preempt) returns (last: int)
    requires p.Valid() && forall k :: 1 <= k <= RTAPI_MAX_MODULES ==> p.modules[k].state == NoModule
    modifies p`ulModuleCount, p.modules
    ensures p.Valid() && last == MODULE_OFFSET + RTAPI_MAX_MODULES
    ensures forall k :: 1 <= k <= RTAPI_MAX_MODULES ==> p.modules[k].state != NoModule
  {
    var i := 0;
    last := -EMFILE;
    while i < RTAPI_MAX_MODULES
      invariant 0 <= i <= RTAPI_MAX_MODULES && p.Valid()
      invariant forall k :: 1 <= k <= i ==> p.modules[k].state != NoModule
      invariant forall k :: i < k <= RTAPI_MAX_MODULES ==> p.modules[k].state == NoModule
      invariant i > 0 ==> last == MODULE_OFFSET + i
    {
      assert p.modules[i + 1].state == NoModule;
      ghost var before := p.modules[..];
      last := p.Init(None);
      assert last == MODULE_OFFSET + i + 1;
      forall k | 1 <= k <= RTAPI_MAX_MODULES
        ensures p.modules[k].state == if k == i + 1 then Realtime else before[k].state
      {
        assert p.modules[k] == p.modules[..][k];
      }
      i := i + 1;
    }
  }
}
