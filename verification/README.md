# MachineKit user-space RTAPI and BeagleBone GPIO driver, modelled in Dafny

This project models three C files of MachineKit:

- `src/rtapi/linux_rtapi.c` is the POSIX-thread scheduler backend of RTAPI, in the module `LinuxRtapi`. It keeps a module table and a task table whose slots are occupied when they carry a magic tag. The base period can be set only once. The file provides the task lifecycle (new, start, stop, delete, pause, resume, set_period), priority stepping, page-fault accounting and the periodic wait with its rate-limited deadline-miss messages.
- `src/rtapi/rt-preempt.c` is the RT_PREEMPT backend, in the module `RtPreempt`. It has a module table with slots 1..RTAPI_MAX_MODULES and names modules, generating a name when none is given. It also keeps the per-task extra data (deleted and destroyed flags, next deadline, thread handle, stack). The hooks the generic task layer calls are new, delete, start, stop, wait, self lookup and the statistics update.
- `src/hal/drivers/hal_bb_gpio.c` is the BeagleBone GPIO HAL driver, in the module `BbGpio`. Its set-up function decodes and claims header pins and user LEDs and exports their HAL pins. It maps GPIO ports once and configures the output-enable and pad registers of each claimed pin. Its write and read functions move HAL bits to and from the GPIO data registers.

The two scheduler backends carry identical copies of the deadline carry loop (`RtTime`) and of the CPU-affinity choice (`RtThread`). Each is defined once here. `Common` holds an option type, the errno codes and bounded string copy.

The model uses imperative Dafny where the C changes state.

- Task and module tables are `array`s of record values, and every operation is a method whose `ensures` gives the whole new table.
- The driver's pin tables, mapped ports and registers are fields of a `Driver` object. The registers are the OE register of each port, the pad configuration map and the log of SETDATAOUT/CLEARDATAOUT writes.
- The HAL port data is a `PortData` object over arrays.

Threads are sequential in the model:

- every fallible OS or HAL call becomes a boolean parameter for its outcome (`spawnOk`, `setAffinityOk`, `setSchedOk`, `allocOk`, `ruOk`, `failAt` for HAL exports);
- the child thread's initialisation runs inside the start operation;
- the thread-local "current task" is an explicit index;
- clock readings, clock resolution, rusage values and the process CPU mask are parameters.

## Model

| member | source | states |
|---|---|---|
| Common.Truncate | src/rtapi/linux_rtapi.c:266-267 | the bounded copy keeps a prefix of the string: all of it when it fits in n characters, exactly n characters otherwise |
| RtTime.AdvanceTime | src/rtapi/linux_rtapi.c:95-105 | as written: the result denotes the input instant plus ns + s seconds; its nanosecond field is at most 1e9; without a carry the fields are simply added |
| RtTime.AdvanceTimeLeavesFullSecond | src/rtapi/linux_rtapi.c:99-103 | the as-written loop advances (0 s, 0 ns) by 1e9 ns to the unnormalised (0 s, 1e9 ns) |
| RtTime.AdvancedUnique | src/rtapi/linux_rtapi.c:95-105 | two results that both satisfy the as-written advance of the same timespec by the same amount are equal, so the deadline clauses of start and wait determine the deadline |
| RtTime.FullSecondDeadlineMisjudged | src/rtapi/linux_rtapi.c:626-628 | (0 s, 1e9 ns) and (1 s, 0 ns) are the same instant, yet the miss test judges (1 s, 0 ns) late against it |
| RtTime.AdvanceTimeNormalized | src/rtapi/rt-preempt.c:175-184 | corrected carry (`>=`): same instant as the input plus the advance, always normalised, seconds never go back |
| RtTime.LateIffLater | src/rtapi/linux_rtapi.c:626-628 | for normalised timespecs the lexicographic miss test holds iff the wake-up is later in time than the deadline |
| RtThread.EffectivePeriod | src/rtapi/linux_rtapi.c:511-514 | the start period is the request raised to the base period: at least both, and equal to one of them |
| RtThread.Quantization | src/rtapi/linux_rtapi.c:464-466 | a request below the base runs at the base with ratio 1; a request of k base periods keeps its period, with ratio k |
| RtThread.LastCpu | src/rtapi/linux_rtapi.c:321-331 | the default CPU is the highest-numbered CPU in the mask, or -1 iff the mask is empty |
| RtThread.SetAffinity | src/rtapi/linux_rtapi.c:306-347 | returns 0 iff setaffinity succeeds and the requested CPU is in the mask (or, with no request, the mask is non-empty); the CPU chosen is in the mask and is the requested one or the highest available |
| LinuxRtapi.PrioNextHigher | src/rtapi/linux_rtapi.c:134-144 | the result is in [lowest, highest]; it is prio+1 inside the range and saturates at either end |
| LinuxRtapi.PrioNextLower | src/rtapi/linux_rtapi.c:146-156 | the result is in [lowest, highest]; it is prio-1 inside the range and saturates at either end |
| LinuxRtapi.PrioStepsInverse | src/rtapi/linux_rtapi.c:134-156 | inside the range, one step up then down (and down then up) returns the original priority |
| LinuxRtapi.ClimbSaturates | src/rtapi/linux_rtapi.c:134-144 | n steps up from a valid priority reach min(prio + n, highest) |
| LinuxRtapi.PagefaultCount | src/rtapi/linux_rtapi.c:62-79 | 0 when a counter is below its baseline, otherwise the faults since the baselines |
| LinuxRtapi.PagefaultsSinceReset | src/rtapi/linux_rtapi.c:81-93 | after a reset the count is exactly the faults that happened since, and 0 immediately |
| LinuxRtapi.GetTime | src/rtapi/linux_rtapi.c:679-684 | the nanosecond reading divides back into the clock's seconds and nanoseconds |
| LinuxRtapi.MissLevel | src/rtapi/linux_rtapi.c:629-636 | ERR iff first miss, WARN iff misses 2..9, no message iff 10 or more |
| LinuxRtapi.MissReportsBounded | src/rtapi/linux_rtapi.c:626-648 | over k misses, min(k, 9) are reported and only the first as an error |
| LinuxRtapi.FirstUntagged | src/rtapi/linux_rtapi.c:229-231 | the scan stops at the first untagged slot: every slot before it is tagged |
| LinuxRtapi.TagUpdate | src/rtapi/linux_rtapi.c:163-166 | tagging a slot adds exactly it to the occupied set; clearing removes exactly it |
| LinuxRtapi.FreedSlotIsReused | src/rtapi/linux_rtapi.c:299-301 | a freed slot below which all are occupied is the next one the scan returns |
| LinuxRtapi.NewTask | src/rtapi/linux_rtapi.c:218-267 | the new record is tagged, not destroyed, and has a stack of max(request, 16384) bytes; owner, entry, arg, priority, FP use and CPU are the arguments; the name is the caller's truncated to 31 characters; deleted, period, ratio, next deadline, failures, deadline scheduling and the fault baselines keep the slot's previous values |
| LinuxRtapi.QuantizedPeriod | src/rtapi/linux_rtapi.c:199-202 | the base period is a positive multiple of the resolution, the request rounded down, or one step when the request is below it |
| LinuxRtapi.Rtapi.Init | src/rtapi/linux_rtapi.c:158-173 | tags the first untagged module slot and returns it plus MODULE_OFFSET, else -ENOMEM with no change; the occupied set grows by exactly the returned slot |
| LinuxRtapi.Rtapi.Exit | src/rtapi/linux_rtapi.c:175-187 | clears the tag of any in-range slot and returns 0, else -1 with no change; the occupied set loses exactly that slot |
| LinuxRtapi.Rtapi.ClockSetPeriod | src/rtapi/linux_rtapi.c:189-208 | 0 queries; a second set is -EINVAL and keeps the first; the first set stores and returns the quantised period |
| LinuxRtapi.Rtapi.FindFreeTask | src/rtapi/linux_rtapi.c:227-236 | returns the first slot without TASK_MAGIC, or MAX_TASKS |
| LinuxRtapi.Rtapi.TaskNew | src/rtapi/linux_rtapi.c:210-272 | as written: -ENOMEM with no change when the stack allocation fails or the table is full; -EINVAL with the free slot left tagged for an invalid priority; otherwise the first free slot holds NewTask and its index is returned |
| LinuxRtapi.Rtapi.TaskNewChecked | src/rtapi/linux_rtapi.c:241-251 | corrected: an invalid priority returns -EINVAL and leaves the table and its occupied set unchanged |
| LinuxRtapi.Rtapi.TaskDelete | src/rtapi/linux_rtapi.c:274-304 | -EINVAL for a dead handle; otherwise joins iff not yet deleted, marks deleted, frees the stack and clears the tag |
| LinuxRtapi.Rtapi.ChildInit | src/rtapi/linux_rtapi.c:453-494 | resets the fault baselines, clamps the period and recomputes the ratio; marks the task deleted on an affinity failure, and also clears deadline scheduling on a policy failure; otherwise clears deadline scheduling and sets the first deadline to exactly the as-written advance (Advanced: the instant plus the period, the fields simply added when there is no carry, otherwise a nanosecond field in (0, 1e9]), which AdvancedUnique shows is a single timespec, starting from `now`; other tasks are unchanged |
| LinuxRtapi.Rtapi.TaskStart | src/rtapi/linux_rtapi.c:496-542 | -EINVAL for a dead handle; otherwise sets the clamped period and ratio and clears `deleted`; returns -ENOMEM with only that change when the spawn fails; after a spawn the record is exactly the one ChildInit leaves (fault baselines reset, deadline scheduling cleared, every other field kept); returns 0 iff the spawn and the child's initialisation succeed, and then the first deadline is exactly the as-written advance (Advanced: the instant plus the period, the fields simply added when there is no carry, otherwise a nanosecond field in (0, 1e9]), which AdvancedUnique shows is a single timespec, starting from `now`; other tasks are unchanged |
| LinuxRtapi.Rtapi.TaskStop | src/rtapi/linux_rtapi.c:544-560 | sets only `destroyed` of a live task (not `deleted`), else -EINVAL |
| LinuxRtapi.Rtapi.TaskPause | src/rtapi/linux_rtapi.c:562-576 | -ENOSYS iff the handle is live, else -EINVAL |
| LinuxRtapi.Rtapi.TaskResume | src/rtapi/linux_rtapi.c:578-592 | -EINVAL iff the handle is not live, else -ENOSYS |
| LinuxRtapi.Rtapi.TaskSetPeriod | src/rtapi/linux_rtapi.c:594-610 | stores the period unclamped for a live task, else -EINVAL with no change |
| LinuxRtapi.Rtapi.Wait | src/rtapi/linux_rtapi.c:612-652 | a deleted task exits its thread; otherwise the new deadline is exactly the as-written advance (Advanced: the instant plus the period, the fields simply added when there is no carry, otherwise a nanosecond field in (0, 1e9]), which AdvancedUnique shows is a single timespec, starting from the old deadline; the lexicographic miss test against it adds one failure and picks MissLevel of the new count; for normalised timespecs that test means "later in time"; nothing else changes |
| LinuxRtapi.StartBelowBasePeriod | src/rtapi/linux_rtapi.c:511-514 | a task asking for 0.5 ms under a 1 ms base gets handle 0, starts, and runs at 1 ms |
| LinuxRtapi.SlotReusedAfterDelete | src/rtapi/linux_rtapi.c:227-238 | stop, delete, new hands the deleted task's handle out again |
| LinuxRtapi.DeleteTwice | src/rtapi/linux_rtapi.c:280-286 | the second delete of a handle is -EINVAL without a join |
| LinuxRtapi.StopThenWait | src/rtapi/linux_rtapi.c:617-618 | after stop, the task's next wait returns instead of ending the thread |
| LinuxRtapi.OnTimeWakeCountedLate | src/rtapi/linux_rtapi.c:617-628 | a task with deadline (0 s, 0 ns) and a 1 s period gets the deadline (0 s, 1e9 ns); a wake-up at (1 s, 0 ns), the same instant, is counted as a failure and reported as an error |
| LinuxRtapi.CarriedDeadlineCountedLate | src/rtapi/linux_rtapi.c:617-628 | after a carry the deadline can still end on a full second: (0 s, 0.5e9 ns) plus 1.5 s gives (1 s, 1e9 ns), and a wake-up at (2 s, 0 ns), the same instant, is counted as a failure and reported as an error |
| LinuxRtapi.InvalidPriorityLeaksSlot | src/rtapi/linux_rtapi.c:237-251 | as written, a refused priority costs slot 0 and the next task gets handle 1; corrected, it gets 0 |
| RtPreempt.DigitChar | src/rtapi/rt-preempt.c:101 | a digit character with the given value |
| RtPreempt.DecimalDigits | src/rtapi/rt-preempt.c:101 | `%d` output is a non-empty string of digits |
| RtPreempt.DecimalRoundTrip | src/rtapi/rt-preempt.c:101 | parsing the printed digits of n gives n |
| RtPreempt.Format03 | src/rtapi/rt-preempt.c:101 | `%03d` output is digits, at least 3 long, and unpadded when n has 3 or more digits |
| RtPreempt.Format03RoundTrip | src/rtapi/rt-preempt.c:101 | parsing the zero-padded digits of n gives n |
| RtPreempt.ModuleName | src/rtapi/rt-preempt.c:96-102 | the stored name is shorter than RTAPI_NAME_LEN; a caller's name is kept whole when it fits and cut to exactly RTAPI_NAME_LEN - 1 characters otherwise; a generated name starts with "ULMOD" followed by at least 3 digits |
| RtPreempt.GeneratedNameEncodesId | src/rtapi/rt-preempt.c:101 | a generated name is "ULMOD" followed by digits that parse back to the module id |
| RtPreempt.GeneratedNamesDistinct | src/rtapi/rt-preempt.c:101 | two modules with generated names have different names |
| RtPreempt.ExitRangeMismatch | src/rtapi/rt-preempt.c:113 | as written, exit refuses handle OFFSET+64, which init can return, and accepts OFFSET+0, which init never returns |
| RtPreempt.ExitFixedMatchesInit | src/rtapi/rt-preempt.c:80-92 | the corrected range accepts exactly the handles init returns |
| RtPreempt.SelfIdFrom | src/rtapi/rt-preempt.c:480-488 | the first slot from `from` whose thread is the caller, or -EINVAL iff there is none |
| RtPreempt.SelfId | src/rtapi/rt-preempt.c:473-489 | the self lookup gives -EINVAL or an id in 1..RTAPI_MAX_TASKS |
| RtPreempt.StatsAfterUpdate | src/rtapi/rt-preempt.c:139-171 | for an in-range id with rusage available, that entry gets the usage and one more update; nothing else changes |
| RtPreempt.Preempt.Init | src/rtapi/rt-preempt.c:70-108 | takes the smallest free slot in 1..64, marks it REALTIME with its name and counts the module; -EMFILE with no change iff all are taken |
| RtPreempt.Preempt.Exit | src/rtapi/rt-preempt.c:110-124 | as written: for slots 0..63 sets NO_MODULE (name kept) and returns 0, else -1 |
| RtPreempt.Preempt.ExitFixed | src/rtapi/rt-preempt.c:110-124 | corrected: frees exactly the handles init returns |
| RtPreempt.Preempt.TaskSelf | src/rtapi/rt-preempt.c:473-489 | returns the first slot in 1..64 whose thread is the caller, or -EINVAL iff none is |
| RtPreempt.Preempt.UpdateStatsHook | src/rtapi/rt-preempt.c:134-172 | -ENOENT for an out-of-range self id, errno when getrusage fails, otherwise the id; the statistics table becomes StatsAfterUpdate |
| RtPreempt.Preempt.NewHook | src/rtapi/rt-preempt.c:212-225 | on allocation success records the stack, clears `destroyed` and returns the id; -ENOMEM with no change otherwise |
| RtPreempt.Preempt.DeleteHook | src/rtapi/rt-preempt.c:228-243 | joins iff not yet deleted; afterwards deleted and without stack |
| RtPreempt.Preempt.StopHook | src/rtapi/rt-preempt.c:422-424 | sets only `destroyed` |
| RtPreempt.Preempt.ChildInit | src/rtapi/rt-preempt.c:314-344 | clamps the period and recomputes the ratio, records the tid; marks the task deleted on an affinity or policy failure; otherwise the first deadline is exactly the as-written advance (Advanced: the instant plus the period, the fields simply added when there is no carry, otherwise a nanosecond field in (0, 1e9]), which AdvancedUnique shows is a single timespec, starting from `now`; nothing else changes |
| RtPreempt.Preempt.StartHook | src/rtapi/rt-preempt.c:384-420 | clears `deleted`; returns -ENOMEM with only that change when creation fails; after creation the task keeps all its fields except the thread handle, tid, `deleted` (set iff the child failed) and, on success, the first deadline, which is exactly the as-written advance (Advanced: the instant plus the period, the fields simply added when there is no carry, otherwise a nanosecond field in (0, 1e9]), which AdvancedUnique shows is a single timespec, starting from `now`; its parameters get the clamped period and the ratio; returns 0 iff creation and initialisation succeed; other tasks are unchanged |
| RtPreempt.Preempt.WaitHook | src/rtapi/rt-preempt.c:426-461 | a deleted task exits; otherwise the new deadline is exactly the as-written advance (Advanced: the instant plus the period, the fields simply added when there is no carry, otherwise a nanosecond field in (0, 1e9]), which AdvancedUnique shows is a single timespec, starting from the old deadline; a miss in the lexicographic test updates the statistics, adds one wait error and calls the installed handler with DEADLINE_MISSED, the task id and its status |
| RtPreempt.Preempt.ReportMiss | src/rtapi/rt-preempt.c:442-458 | the statistics become StatsAfterUpdate with one more wait error for the task; the handler, when installed, gets exactly one DEADLINE_MISSED call with the task id and its status |
| RtPreempt.MissCountsOneError | src/rtapi/rt-preempt.c:445-450 | a missed wait adds exactly one wait error to the task whatever the statistics update did |
| RtPreempt.LastModuleCannotExit | src/rtapi/rt-preempt.c:80-114 | after 64 inits the last handle is OFFSET+64; as written exit refuses it (-1), corrected exit frees it (0) |
| RtPreempt.FillModules | src/rtapi/rt-preempt.c:80-92 | RTAPI_MAX_MODULES inits on an empty table take every slot, and the last returns OFFSET + RTAPI_MAX_MODULES |
| BbGpio.DecodePin | src/hal/drivers/hal_bb_gpio.c:190-204 | a number is accepted iff it is in 101..146 or 201..246, and decodes to the header pin it encodes |
| BbGpio.EncodeDecode | src/hal/drivers/hal_bb_gpio.c:196-204 | decoding the "P8 add 100, P9 add 200" number of a header pin gives that pin |
| BbGpio.FlatIndex | src/hal/drivers/hal_bb_gpio.c:215 | as written: P8 pins are stored at 1..46 and P9 pins at 47..92 |
| BbGpio.FlatIndexMisreads | src/hal/drivers/hal_bb_gpio.c:364-372 | as written, the index P8.46 is stored under is looked up as P9.0, and P9.46 is stored at index 92 of a 92-entry array |
| BbGpio.SlotIndex | src/hal/drivers/hal_bb_gpio.c:215 | corrected: every header pin has a slot in 0..91, one below the written index |
| BbGpio.SlotPin | src/hal/drivers/hal_bb_gpio.c:369-372 | corrected lookup: the pin of each slot is a header pin stored in that slot |
| BbGpio.SlotRoundTrip | src/hal/drivers/hal_bb_gpio.c:364-372 | looking up a pin's slot gives back that pin |
| BbGpio.SlotsDistinct | src/hal/drivers/hal_bb_gpio.c:215 | distinct header pins have distinct slots |
| BbGpio.StartAddrForPort | src/hal/drivers/hal_bb_gpio.c:409-427 | ports 0..3 have a page-aligned base address, any other port -1 |
| BbGpio.PortBasesDistinct | src/hal/drivers/hal_bb_gpio.c:409-427 | the four ports have distinct, increasing register blocks |
| BbGpio.OeAfter | src/hal/drivers/hal_bb_gpio.c:433-452 | mode 'O' clears the pin's OE bit, 'I'/'U'/'D' set it, any other mode leaves the register |
| BbGpio.OeAfterKeepsOtherBits | src/hal/drivers/hal_bb_gpio.c:435-447 | configuring a pin changes no other OE bit |
| BbGpio.PadConfig | src/hal/drivers/hal_bb_gpio.c:434-449 | every GPIO mode selects mux mode 7; receive is enabled iff input; pull is enabled iff 'U'/'D', and up iff 'U' |
| BbGpio.DriveWriteSetsLevel | src/hal/drivers/hal_bb_gpio.c:357-360 | a SETDATAOUT/CLEARDATAOUT write leaves the pin's output bit at the driven level |
| BbGpio.DriveWriteKeepsOtherBits | src/hal/drivers/hal_bb_gpio.c:357-360 | such a write leaves every other output bit of the port |
| BbGpio.ClearBitKeeps | src/hal/drivers/hal_bb_gpio.c:435 | clearing one bit of a register with AND-NOT keeps every other bit |
| BbGpio.SetBitKeeps | src/hal/drivers/hal_bb_gpio.c:439 | setting one bit of a register with OR keeps every other bit |
| BbGpio.EntryWrites | src/hal/drivers/hal_bb_gpio.c:351-360 | one write iff a HAL bit is exported and the pin is claimed 'O', to the pin's port and bit, SET iff bit XOR invert |
| BbGpio.EntryRead | src/hal/drivers/hal_bb_gpio.c:390-403 | an exported bit of a pin claimed as an input becomes the DATAIN bit XOR invert; otherwise it is left as it was |
| BbGpio.HeaderPinInfo | src/hal/drivers/hal_bb_gpio.c:196-204 | a header pin's record names one of the four GPIO ports |
| BbGpio.ClaimTables | src/hal/drivers/hal_bb_gpio.c:432 | after a claim the pin's record carries the mode, and the tables stay well formed |
| BbGpio.ClaimKeepsOtherClaims | src/hal/drivers/hal_bb_gpio.c:206-210 | claiming a free pin leaves every pin claimed before still claimed in its mode |
| BbGpio.ClaimKeepsOthersFree | src/hal/drivers/hal_bb_gpio.c:206-210 | claiming a pin leaves every other number free exactly when it was |
| BbGpio.NoFailingExportSplit | src/hal/drivers/hal_bb_gpio.c:136-331 | m + n export calls have no failing one iff the first m and the next n have none |
| BbGpio.NoFailingExportPair | src/hal/drivers/hal_bb_gpio.c:214-233 | two export calls from `from` have no failing one iff neither `from` nor `from + 1` is the failing call |
| BbGpio.OccursBeforeIn | src/hal/drivers/hal_bb_gpio.c:183-247 | a number occurs among the first n numbers of the list iff it is in the list's first n entries |
| BbGpio.ClaimLedsResult | src/hal/drivers/hal_bb_gpio.c:136-180 | the LED table after the first n passes of the LED loop, or None when one of them fails; a result is again a table of the four LEDs |
| BbGpio.ClaimLedsResultTable | src/hal/drivers/hal_bb_gpio.c:136-180 | after n successful passes each of those LEDs is its old record claimed 'O' and every other LED is unchanged |
| BbGpio.ClaimLedsResultOk | src/hal/drivers/hal_bb_gpio.c:136-180 | the first n passes succeed iff those LED numbers are distinct, every LED is free and none of their 2n export calls fails |
| BbGpio.ClaimLedsResultFails | src/hal/drivers/hal_bb_gpio.c:136-180 | once a pass of the LED loop fails, every longer prefix fails too |
| BbGpio.ClaimLedsResultStep | src/hal/drivers/hal_bb_gpio.c:138-179 | pass n succeeds iff its LED is free in the table the first n passes left and neither of its two export calls fails, and then claims exactly that LED 'O' |
| BbGpio.ClaimPinsResult | src/hal/drivers/hal_bb_gpio.c:183-247 | the P8/P9 tables after the first n passes of the input or output loop, or None when one of them fails; a result is again a pair of well-formed tables |
| BbGpio.ClaimPinsResultTables | src/hal/drivers/hal_bb_gpio.c:183-247 | after n successful passes those pins are claimed in the loop's mode, every other number is free exactly when it was, and every earlier claim is kept |
| BbGpio.ClaimPinsResultOk | src/hal/drivers/hal_bb_gpio.c:183-247 | the first n passes succeed iff those numbers are distinct, each names a free header pin and none of their 2n export calls fails |
| BbGpio.ClaimPinsResultFails | src/hal/drivers/hal_bb_gpio.c:183-247 | once a pass of the input or output loop fails, every longer prefix fails too |
| BbGpio.ClaimPinsResultStep | src/hal/drivers/hal_bb_gpio.c:185-246 | pass n succeeds iff its number names a pin free in the tables the first n passes left and neither of its two export calls fails, and then claims exactly that pin in the loop's mode |
| BbGpio.ConfigureKeepsConfigured | src/hal/drivers/hal_bb_gpio.c:430-448 | configuring one pin leaves the OE bit and pad of any pin with separate registers as they were |
| BbGpio.ClaimConfigureKeepsConfigured | src/hal/drivers/hal_bb_gpio.c:430-448 | when distinct pins have separate registers and every claimed pin is configured, claiming and configuring a header pin keeps every claimed pin configured, the new one included |
| BbGpio.LedConfigureKeepsConfigured | src/hal/drivers/hal_bb_gpio.c:430-448 | the same for claiming and configuring an LED |
| BbGpio.PinAtIndex | src/hal/drivers/hal_bb_gpio.c:369-372 | the entry write_port and read_port use for an index names one of the four GPIO ports |
| BbGpio.FlatIndexLookup | src/hal/drivers/hal_bb_gpio.c:215 | at the index a header pin is stored under, the lookup finds that pin's own entry, except P8.46, for which it finds P9 entry 0 |
| BbGpio.ExportIndex | src/hal/drivers/hal_bb_gpio.c:215 | a requested pin is stored at an index in 1..92; 92 only for 246 (P9.46), 46 only for 146 (P8.46) |
| BbGpio.Store | src/hal/drivers/hal_bb_gpio.c:215-233 | a store sets exactly index i when it is inside the array, and changes nothing at or past the end |
| BbGpio.SlotWritesShape | src/hal/drivers/hal_bb_gpio.c:364-380 | corrected pass: at most one write per slot, each to a GPIO port 0..3 |
| BbGpio.SlotWritesContain | src/hal/drivers/hal_bb_gpio.c:364-380 | corrected pass: every exported output slot whose pin is claimed 'O' contributes the write driving it to value XOR invert |
| BbGpio.OutputWritesContain | src/hal/drivers/hal_bb_gpio.c:364-380 | as written: every index 1..91 with an exported bit whose looked-up entry is claimed 'O' contributes the write driving that entry's pin to value XOR invert |
| BbGpio.OutputWritesIgnoreP8Pin46 | src/hal/drivers/hal_bb_gpio.c:364-372 | as written, the output pass never reads the P8.46 entry: changing it, its claim included, changes no write |
| BbGpio.ClaimedOutputDriven | src/hal/drivers/hal_bb_gpio.c:364-380 | every claimed output other than P8.46 and P9.46 whose bit is exported at its stored index is driven by write_port to value XOR invert |
| BbGpio.P8Pin46NotDriven | src/hal/drivers/hal_bb_gpio.c:364-380 | with only P8.46 claimed and exported as an output, and P9 entry 0 not claimed 'O', the output pass emits no write at all |
| BbGpio.OutputWritesNone | src/hal/drivers/hal_bb_gpio.c:364-380 | the output pass emits nothing when no index it visits has both an exported bit and an entry claimed 'O' |
| BbGpio.PortData.constructor | src/hal/drivers/hal_bb_gpio.c:124-130 | the port data starts with no HAL bit exported |
| BbGpio.Driver.ConfigureGpioPort | src/hal/drivers/hal_bb_gpio.c:86-107 | maps port n once: it becomes mapped and is logged |
| BbGpio.Driver.EnsurePort | src/hal/drivers/hal_bb_gpio.c:238-240 | the port is mapped afterwards; it is logged only when it was not mapped before, so no port is mapped twice |
| BbGpio.Driver.ConfigurePinRegisters | src/hal/drivers/hal_bb_gpio.c:433-452 | the OE register becomes OeAfter; the pad register gets PadConfig for a GPIO mode |
| BbGpio.Driver.ConfigureHeaderPin | src/hal/drivers/hal_bb_gpio.c:430-453 | records the claim in the P8/P9 table; the pin's OE bit becomes OeAfter and its pad PadConfig of a GPIO mode, every other OE word and pad kept; if every claimed pin was configured before, every claimed pin is configured after |
| BbGpio.Driver.ConfigureLedPin | src/hal/drivers/hal_bb_gpio.c:176-178 | records the LED's claim; the LED's OE bit becomes OeAfter and its pad PadConfig of a GPIO mode, every other OE word and pad kept; claimed pins configured before stay configured |
| BbGpio.Driver.Export | src/hal/drivers/hal_bb_gpio.c:150-156 | one HAL export, failing iff it is the designated failing call |
| BbGpio.Driver.ExportFunctions | src/hal/drivers/hal_bb_gpio.c:316-337 | the write then the read function are exported; succeeds iff neither of the two export calls is the failing one; then the component is made ready, otherwise hal_exit is called |
| BbGpio.Driver.ExportBits | src/hal/drivers/hal_bb_gpio.c:214-233 | both exports succeed iff neither is the failing call; a successful bit export stores Some(false) at index i and a successful invert export clears index i, with every other entry of both arrays unchanged; a store at the array's length changes no entry and sets the out-of-range flag |
| BbGpio.Driver.ClaimHeaderPin | src/hal/drivers/hal_bb_gpio.c:185-246 | returns 0 iff the number decodes to a free pin and both exports succeed; then the pin is claimed, its bit and invert are stored at its flat index in the input or output arrays (only 246 sets the out-of-range flag instead), its port is mapped (and logged iff it was not mapped before), its OE bit becomes OeAfter and its pad PadConfig of 'U' or 'O'; only the given pair of arrays (input or output) may change and bits stored before stay stored; the LEDs and the write log are unchanged; any failure calls hal_exit, returns -1 and leaves the claims, the mapped ports, their log, OE and pads unchanged; claimed pins configured before stay configured |
| BbGpio.Driver.ExportHeaderPin | src/hal/drivers/hal_bb_gpio.c:214-244 | for a free pin: 0 iff both exports succeed, and then the bit and invert are stored at its flat index, the port is mapped (logged iff new), the pin is claimed and its OE bit and pad are set for 'U' or 'O'; only the given pair of arrays may change; -1 and hal_exit iff an export fails, with claims, ports, log, OE and pads unchanged; claimed pins configured before stay configured |
| BbGpio.Driver.ConfigureClaimed | src/hal/drivers/hal_bb_gpio.c:236-244 | the pin's port is mapped and logged iff it was not mapped before; the pin is claimed in the mode, its OE bit becomes OeAfter and its pad PadConfig of a GPIO mode; ports mapped before stay mapped; claimed pins configured before stay configured |
| BbGpio.Driver.ConfigureClaimedLed | src/hal/drivers/hal_bb_gpio.c:170-178 | the LED's port is mapped (logged iff new); the LED is claimed 'O', its OE bit becomes OeAfter of 'O' and its pad PadConfig('O'); claimed pins configured before stay configured |
| BbGpio.Driver.ClaimLed | src/hal/drivers/hal_bb_gpio.c:138-179 | returns 0 iff the LED is free and both exports succeed; then it is claimed 'O', exactly its LED bit and invert are stored, its port is mapped (logged iff new), its OE bit cleared and its pad set to PadConfig('O'); on failure hal_exit is called and the LEDs, ports, log, OE and pads are unchanged; LED bits stored before stay stored; header tables, write log and out-of-range flag are unchanged; claimed pins configured before stay configured |
| BbGpio.Driver.ClaimNextLed | src/hal/drivers/hal_bb_gpio.c:138-179 | one pass of the LED loop, after the first j passes left the LED table ClaimLedsResult of j LEDs: succeeds iff ClaimLedsResult of j + 1 LEDs does (the LED is free and neither export fails), and the table is then that result; on failure the table is unchanged and hal_exit is called; LED bits stored before stay stored; header tables, write log and out-of-range flag are unchanged |
| BbGpio.Driver.ClaimLeds | src/hal/drivers/hal_bb_gpio.c:136-180 | returns 0 iff ClaimLedsResult of all the listed LEDs is Some, that is iff the numbers are distinct, every LED is free and none of the 2n exports fails; the LED table is then that result, so every listed LED is claimed 'O' and has its HAL bit exported; on failure hal_exit was called; header tables, write log and out-of-range flag are unchanged; ports mapped before stay mapped; claimed pins configured before stay configured |
| BbGpio.Driver.ClaimPinPasses | src/hal/drivers/hal_bb_gpio.c:183-247 | the passes of the input or output loop up to the first that fails: the first n succeed and leave the tables ClaimPinsResult of n numbers; 0 iff n is the whole list, otherwise ClaimPinsResult fails at pass n + 1 and hal_exit is called; bits exported before stay exported, the LEDs and the write log are unchanged |
| BbGpio.Driver.ClaimHeaderPins | src/hal/drivers/hal_bb_gpio.c:183-247 | returns 0 iff ClaimPinsResult of all the listed numbers is Some, that is iff they are distinct, each names a free header pin and none of the 2n exports fails; the tables are then that result: every listed pin is claimed in the loop's mode and, except 246, has its HAL bit at its flat index, every other pin is free exactly when it was, and the out-of-range flag is set iff 246 was listed; whether or not it succeeds, bits exported before stay exported, every pin claimed before keeps its claim, the LEDs and the write log are unchanged, and claimed pins configured before stay configured |
| BbGpio.Driver.ClaimNextPin | src/hal/drivers/hal_bb_gpio.c:185-246 | one pass of the input or output loop, after the first j passes left the tables ClaimPinsResult of j numbers: succeeds iff ClaimPinsResult of j + 1 numbers does (the number names a free pin and neither export fails), and the tables are then that result, with the pin's bit stored (246 sets the out-of-range flag instead); on failure the tables are unchanged and hal_exit is called; bits exported before stay exported; the LEDs and the write log are unchanged |
| BbGpio.Driver.RtapiAppMain | src/hal/drivers/hal_bb_gpio.c:109-338 | -1 without hal_exit iff hal_init fails; -1 with hal_exit and no claim when hal_malloc fails; returns 0 (and the component is made ready) iff hal_init and hal_malloc succeed, the LED numbers and the pin numbers are each distinct, every LED and pin is free, and none of the exports fails; no data register is written; on success every listed LED is claimed 'O', input 'U', output 'O', each with its HAL bit exported (246 excepted, which sets the out-of-range flag), and, when claimed pins started configured, every listed LED and output ends with OE bit 0 and pad PadConfig('O') and every listed input with OE bit 1 and pad PadConfig('U'); any other failure calls hal_exit |
| BbGpio.Driver.ClaimRequested | src/hal/drivers/hal_bb_gpio.c:136-313 | the LED loop then the input and output loops: returns 0 iff the LED numbers and the pin numbers are each distinct, every LED and pin is free and none of the exports fails; on success every listed LED, input and output is claimed and exported as in rtapi_app_main, with its OE bit and pad set for its mode when claimed pins started configured; no data register is written; hal_exit iff it fails |
| BbGpio.Driver.ClaimHeaderLists | src/hal/drivers/hal_bb_gpio.c:183-313 | the input loop then the output loop: returns 0 iff all listed numbers together are distinct, each names a free header pin and none of the exports fails; on success every listed input is claimed 'U' and every listed output 'O', each with its HAL bit exported except 246; the LEDs and the write log are unchanged; claimed pins configured before stay configured |
| BbGpio.Driver.WritePort | src/hal/drivers/hal_bb_gpio.c:345-381 | emits the LED writes, then the writes of indices 1..91 as written (OutputWrites, looked up as P8 entry i or P9 entry i-46) |
| BbGpio.Driver.WriteLeds | src/hal/drivers/hal_bb_gpio.c:349-361 | appends exactly LedWrites of the four LEDs: one write per exported LED claimed 'O' |
| BbGpio.Driver.WriteOutputs | src/hal/drivers/hal_bb_gpio.c:363-380 | appends exactly OutputWrites of indices 1..91 looked up as written |
| BbGpio.Driver.ReadPort | src/hal/drivers/hal_bb_gpio.c:384-405 | every input entry 1..91 becomes EntryRead of the entry looked up as written and the port's DATAIN register; entry 0 is untouched |
| BbGpio.DuplicatePinRefused | src/hal/drivers/hal_bb_gpio.c:206-210 | a pin requested twice is refused the second time |
| BbGpio.P8Pin46OutputNeverDriven | src/hal/drivers/hal_bb_gpio.c:282-380 | P8.46 claimed as the only exported output is claimed and stored at index 46, yet write_port emits no header write |
| BbGpio.ClaimP8Pin46 | src/hal/drivers/hal_bb_gpio.c:252-282 | claiming 146 as an output on a board with no output exported succeeds: P8.46 is claimed 'O' and its bit stored at index 46 only; P9 entry 0 keeps its claim and no data register is written |

## Left out

- Threads, the start-up barrier, pthread_join, the array mutex and thread-specific keys are not modelled as concurrency. Each OS outcome is a parameter, the child's initialisation runs inside the start operation, and the current task is an explicit index.
- The running task body (the `taskcode` call) and what happens when it returns are not modelled.
- Text of rtapi_print_msg and rtapi_print is not modelled. Only the level chosen for a deadline-miss message is.
- prctl(PR_SET_NAME) in the RT_PREEMPT rtapi_set_task is not modelled.
- In the RT_PREEMPT child thread, the initial statistics update and the recording of the startup rusage after the barrier are not modelled: they come after start has returned.
- SCHED_DEADLINE support is compiled out (ENABLE_SCHED_DEADLINE is 0) and is not modelled. The deadline_exception signal handler is not modelled either. ChildInit records only that `deadline_scheduling` is cleared.
- rtapi_delay_hook (a relative clock_nanosleep), the port I/O functions rtapi_outb/inb/outw/inw and simple_strtol are thin wrappers over the OS and are not modelled.
- The ULAPI variants of init and exit in rt-preempt.c are not modelled.
- The C integer widths are not modelled: the `int` base period set from an `unsigned long` request, the `unsigned int` failure counter and the long long clock reading are unbounded here.
- Header values not shown in the three files are taken as constants: RTAPI_MAX_TASKS = RTAPI_MAX_MODULES = 64, RTAPI_NAME_LEN = 31, the AM335x GPIO base addresses and the pad-register bit layout. The P8/P9/LED pin tables are constructor arguments.
- The pin tables and LED table contents (bb_gpio pin definitions) are not part of this model. Each record is only assumed to name a GPIO port 0..3.
- Parsing of the comma-separated module parameters (strtok, strtol) is not modelled. The lists arrive as numbers.
- The mmap of /dev/mem and the exit(1) when it fails, in configure_gpio_port and configure_control_module, are not modelled. Mapping a port is recorded in a log.
- rtapi_app_exit (a single hal_exit) and the `port` pointer assignments of each pin are not modelled.
- Common.Truncate: each Dafny character stands for one C byte. strncpy and snprintf count bytes, so a multi-byte encoding of a name is not modelled.
- BbGpio.Driver.RtapiAppMain: requires LED numbers 0..3. The driver indexes its LED table with the parsed number unchecked, which is undefined behaviour for other numbers.
- BbGpio.Driver.RtapiAppMain: the OE bit and pad of each listed pin are stated only when the pin tables give distinct pins separate registers and claimed pins start configured (PinsConfigured), because the contents of the pin tables are not part of this model.
- BbGpio.Driver.WritePort: the loop's last iteration, index 92, reads output_pins[92], one past the array. The model stops at index 91, so whatever that read finds in the neighbouring memory is not modelled.
- BbGpio.Driver.ReadPort: stops at index 91 for the same reason; input_pins[92] is not read.
- BbGpio.Driver.ExportBits: a store one past the end of a port-data array (pin 246) is recorded in the out-of-range flag. What it overwrites in the neighbouring fields of port_data_t, or past it, is not modelled.
- BbGpio.SlotWritesContain: states the corrected pass (SlotWrites over SlotPin), not write_port as written. write_port is modelled by OutputWrites; there, OutputWritesContain covers indices 1..91, and OutputWritesIgnoreP8Pin46 shows that P8.46 gets no write of its own.
- LinuxRtapi.Rtapi.ChildInit: requires a nonzero base period, because the code divides by it.
- LinuxRtapi.Rtapi.TaskStart: requires a nonzero base period, because rtapi_task_start itself divides by it when it computes the ratio (and the child divides by it again).
- RtPreempt.Preempt.ChildInit: requires a nonzero base period, because the code divides by it.
- RtPreempt.Preempt.StartHook: requires a nonzero base period, because the child divides by it.
- RtPreempt.Preempt.NewHook, DeleteHook and StopHook require an id in 0..RTAPI_MAX_TASKS, which the generic task layer that calls them guarantees.
- LinuxRtapi.Rtapi.ClockSetPeriod: requires a positive clock resolution, which clock_getres reports on Linux.
- LinuxRtapi.GetTime: requires a normalised clock reading, as clock_gettime reports.
- RtPreempt.GeneratedNameEncodesId: is stated for module ids below 10^25, which covers every `int` id.
- RtPreempt.StatsAfterUpdate: the code copies ru_nivcsw twice and never copies ru_nvcsw. The model therefore has no voluntary context-switch field.

Behaviour of the code a caller may not expect:

- the base period is rounded down to the clock resolution, not up;
- a task period that is not a multiple of the base period is kept as requested;
- rtapi_task_set_period stores the period without clamping it or updating the ratio;
- stop sets `destroyed`, while the wait primitive tests `deleted`, so a stopped task keeps running;
- RT_PREEMPT exit leaves the module count and the module name as they were.

## Findings

| source | as written | input that shows it | evidently intended | confidence | as-written member | corrected member |
|---|---|---|---|---|---|---|
| src/rtapi/linux_rtapi.c:99 (same at src/rtapi/rt-preempt.c:178) | `while (ns > 1000000000)` stops carrying when the nanosecond sum is exactly one second | tv = (0 s, 0 ns), ns = 1000000000 gives (0 s, 1000000000 ns). clock_nanosleep rejects this timespec, and the miss test judges a wake-up at (1 s, 0 ns) late against it | carry while `ns >= 1000000000`, so the deadline is always normalised | not executed | RtTime.AdvanceTimeLeavesFullSecond | RtTime.AdvanceTimeNormalized |
| src/rtapi/rt-preempt.c:113 | exit accepts slots 0..RTAPI_MAX_MODULES-1, while init allocates slots 1..RTAPI_MAX_MODULES | the 64th module gets handle 32768+64, and exit of it returns -1, so its slot is never freed; exit(32768) clears slot 0, which init never uses | accept 1..RTAPI_MAX_MODULES | not executed | RtPreempt.LastModuleCannotExit | RtPreempt.Preempt.ExitFixed |
| src/hal/drivers/hal_bb_gpio.c:215 with :369-372 and :395-397 | pins are stored at `pin + (header-8)*46` (1..92), but looked up as `p8[i]` for i < 46 and `p9[i-46]` otherwise, for i in 1..92 | output pin 146 (P8.46) is stored at index 46 and driven using the record of P9.0; output pin 246 (P9.46) is stored at index 92 of a 92-entry array | slot `pin - 1 + (header-8)*46` (0..91), looked up by the inverse | not executed | BbGpio.OutputWritesIgnoreP8Pin46 | BbGpio.SlotWritesContain |
| src/rtapi/linux_rtapi.c:238-250 | the free task slot is tagged before the priority is checked, and the -EINVAL return leaves it tagged | on an empty table, rtapi_task_new with priority below the lowest returns -EINVAL; the next valid call returns handle 1, and slot 0 stays occupied with no handle to delete it | check the priority before tagging (or clear the tag on that error) | not executed | LinuxRtapi.InvalidPriorityLeaksSlot | LinuxRtapi.Rtapi.TaskNewChecked |
