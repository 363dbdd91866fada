# nysys in Dafny

nysys is a Windows hardware-monitoring library. A background worker collects a static
snapshot of the machine once per session: GPUs, motherboard, CPUs, audio devices and
monitors. On every cycle it also collects a dynamic snapshot: memory, storage, battery and
network. It serializes both into one JSON document and hands the document to the consumer
callbacks that were registered through the C API (`start_monitoring`, `stop_monitoring`,
`set_update_interval`, `set_callback`, `is_monitoring`) or the C++ wrappers in namespace
`nysys`.

This project models the library's core and proves properties of that model:

- the controller (`MonitorContext` and the entry points of `src/nysys.cpp`), as a pure state
  machine with an imperative class proved to follow it;
- the worker loop, one pass at a time and over whole runs;
- the two snapshot containers of `include/nysys/internal.hpp`;
- the leaf logic of every collector: CPU, GPU, memory, storage, network, battery and monitors;
- the JSON assembly of `src/helper/json_structure.cpp`.

Every outcome the code obtains from Windows is an explicit input of the model:

- handles, threads and the wait result;
- WMI objects, DXGI adapter descriptions and the adapter chain;
- the power status, the monitor geometry and display settings, and EDID bytes;
- the serializer's output and whether a callback throws.

| file | module | models |
|---|---|---|
| wrappers.dfy | Wrappers | Option and Result |
| text.dfy | Text | decimal text, ASCII lower-casing, white space, substring search |
| errors.dfy | MonitoringErrors | the error codes, their text, MonitoringException |
| snapshots.dfy | Snapshots | StaticInfo and DynamicInfo |
| lifecycle.dfy | Lifecycle | the controller state machine, worker passes and runs |
| context.dfy | Context | the class MonitorContext |
| worker.dfy | Worker | CollectStaticInfo, CollectDynamicInfo, GenerateJsonSafely, monitoring_thread |
| capi.dfy | CApi | the C entry points |
| cppapi.dfy | CppApi | the nysys:: wrappers |
| wmi.dfy | Wmi | VARIANT values, GetPropertyString, GetSafeStringProperty, _wtoi64 |
| cpu_info.dfy, gpu_info.dfy, memory_info.dfy, storage_info.dfy, network_info.dfy, battery_info.dfy, monitor_info.dfy | Cpu, Gpu, Memory, Storage, Network, Battery, Monitors | the collectors |
| json_structure.dfy | JsonStructure | TrimString, the Append* builders, GenerateSystemInfo |

Three behaviours of the code are easy to misread:

- An interval outside [100, 3600000] ms records only InvalidParameter, never InvalidInterval
  (`MonitorContext::SetUpdateInterval`, src/nysys.cpp:108). See `Lifecycle.SetUpdateIntervalContract`.
- The cycle that first fills the static snapshot already emits: the worker clears `isFirstRun`
  at src/nysys.cpp:270, before the emission condition at line 282. See `Lifecycle.FirstCycleEmits`.
- A stop whose wait times out ends with Success, because the `Reset` at src/nysys.cpp:381
  overwrites ThreadTerminationFailed. See `Lifecycle.StopWhenRunning` and
  `Lifecycle.StopIgnoresWaitResult`.

Other behaviours the code has, kept as written:

- `set_callback` and `nysys::SetCallback` clear only CallbackFailed, a code the worker never
  records; a throwing callback records CallbackExecutionFailed.
- `nysys::StartMonitoring` stores the interval before `start_monitoring` checks whether
  monitoring is already running, so a call on a running controller changes the interval and
  then throws AlreadyRunning.
- `GetMonitorSizeFromEDID` uses the device name only to see whether it is empty: it reads the
  EDID of the first monitor interface it can open, whatever the name.
- `HasBattery`'s condition on flag 1 with an unknown percentage adds nothing to the condition that
  follows it.
- The `Initialize` members of the CPU, GPU, memory, storage and network collectors append to
  their lists without clearing them. `MonitorList::Initialize` clears first.
- In `GPUList::Initialize`, an AdapterDescriptionFailed recorded for one adapter is
  overwritten by the final Success.
- Used physical memory is `ullTotalPhys - ullAvailPhys` in 64-bit unsigned arithmetic, so it
  wraps when the available amount exceeds the total.
- `GetSafeUint32Property` reads the VARIANT's low 32 bits whatever its type tag.

## Model

| member | source | states |
|---|---|---|
| MonitoringErrors.ToStringDistinct | include/nysys/internal.hpp:39-72 | every code has a non-empty name, and two codes with the same name are the same code |
| MonitoringErrors.ToString | include/nysys/internal.hpp:39-72 | the text of each code, as the switch returns it; ToStringDistinct states that every text is non-empty and names one code |
| MonitoringErrors.MonitoringException.GetErrorCode | include/nysys/internal.hpp:85 | the code the exception was built with; ExceptionMessageNamesCode states it for both constructors |
| MonitoringErrors.NewException | include/nysys/internal.hpp:76-78 | the exception keeps its code, and its message is "Monitoring Error: " followed by the code's name; what that message identifies is stated by ExceptionMessageNamesCode and ExceptionMessageDeterminesCode |
| MonitoringErrors.NewExceptionWithDetails | include/nysys/internal.hpp:80-83 | the exception keeps its code, and its message is the prefix, the code's name, " - " and the details; ExceptionMessageNamesCode states that this message starts with the plain message |
| MonitoringErrors.ExceptionMessageNamesCode | include/nysys/internal.hpp:76-85 | both messages start with the prefix and name the code; GetErrorCode returns the code given |
| MonitoringErrors.ExceptionMessageDeterminesCode | include/nysys/internal.hpp:76-78 | two exceptions with the same message carry the same code |
| Snapshots.StaticCompleteness | include/nysys/internal.hpp:106-132 | complete exactly when all five components are present; the completed count is at most 5, is 5 exactly when complete, and is 0 exactly when empty |
| Snapshots.DynamicCompleteness | include/nysys/internal.hpp:167-191 | essential completeness does not depend on the battery; complete means essentially complete plus a battery; the count is at most 4 and is 4 exactly when complete |
| Snapshots.ResetIsIncomplete | include/nysys/internal.hpp:134-198 | a reset static snapshot is incomplete and counts 0 components; a reset dynamic snapshot is neither complete nor essentially complete, and counts 0 components |
| Snapshots.StaticInfo.constructor | include/nysys/internal.hpp:98 | a new static snapshot holds no component |
| Snapshots.StaticInfo.IsComplete | include/nysys/internal.hpp:106 | all five static components are present; StaticCompleteness relates it to the completed count |
| Snapshots.StaticInfo.CompletedComponents | include/nysys/internal.hpp:118-132 | the number of present components, at most 5, and 5 exactly when IsComplete |
| Snapshots.StaticInfo.Reset | include/nysys/internal.hpp:134-140 | every component is released |
| Snapshots.StaticInfo.ResetGPUInfo | include/nysys/internal.hpp:142 | only the GPU list is released |
| Snapshots.StaticInfo.ResetMotherboardInfo | include/nysys/internal.hpp:144 | only the motherboard info is released |
| Snapshots.StaticInfo.ResetCPUInfo | include/nysys/internal.hpp:146 | only the CPU list is released |
| Snapshots.StaticInfo.ResetAudioInfo | include/nysys/internal.hpp:148 | only the audio list is released |
| Snapshots.StaticInfo.ResetMonitorInfo | include/nysys/internal.hpp:150 | only the monitor list is released |
| Snapshots.DynamicInfo.constructor | include/nysys/internal.hpp:159 | a new dynamic snapshot holds no component |
| Snapshots.DynamicInfo.CompletedComponents | include/nysys/internal.hpp:179-191 | the number of present components, at most 4, and 4 exactly when IsComplete |
| Snapshots.DynamicInfo.IsComplete | include/nysys/internal.hpp:167 | all four dynamic components are present; DynamicCompleteness relates it to the count and to IsEssentialComplete |
| Snapshots.DynamicInfo.IsEssentialComplete | include/nysys/internal.hpp:169 | memory, storage and network are present, whatever the battery; stated by DynamicCompleteness |
| Snapshots.DynamicInfo.Reset | include/nysys/internal.hpp:193-198 | every component is released |
| Snapshots.DynamicInfo.ResetMemoryInfo | include/nysys/internal.hpp:200 | only the memory info is released |
| Snapshots.DynamicInfo.ResetStorageInfo | include/nysys/internal.hpp:202 | only the storage list is released |
| Snapshots.DynamicInfo.ResetBatteryInfo | include/nysys/internal.hpp:204 | only the battery info is released |
| Snapshots.DynamicInfo.ResetNetworkInfo | include/nysys/internal.hpp:206 | only the network list is released |
| Lifecycle.StaticStep | src/nysys.cpp:266-274 | changes only the static snapshot, isFirstRun and the error; does nothing once the first run is over; clears isFirstRun exactly on a successful collection, which leaves a complete snapshot |
| Lifecycle.Reset | src/nysys.cpp:90-100 | MonitorContext::Reset on the controller state; Context.MonitorContext.Reset and StopWhenRunning state its effect |
| Lifecycle.SetUpdateInterval | src/nysys.cpp:102-113 | MonitorContext::SetUpdateInterval; its meaning is stated by SetUpdateIntervalContract |
| Lifecycle.InvokeCallbacks | src/nysys.cpp:125-151 | MonitorContext::InvokeCallbacks as the code and callbacks called; its meaning is stated by InvokeCallbacksContract |
| Lifecycle.InitializeSession | src/nysys.cpp:153-158 | MonitorContext::InitializeSession; Context.MonitorContext.InitializeSession states its effect |
| Lifecycle.IncrementCycle | src/nysys.cpp:160-163 | MonitorContext::IncrementCycle; stated by IterationCountsCycle and RunCountsCycles |
| Lifecycle.CollectStatic | src/nysys.cpp:180-212 | CollectStaticInfo as the slots it leaves and its code; stated by StaticStep, IterationFirstRun and Worker.CollectStaticInfo |
| Lifecycle.CollectDynamic | src/nysys.cpp:214-238 | CollectDynamicInfo as the slots it leaves and its code; stated by IterationEmission, IterationErrors and Worker.CollectDynamicInfo |
| Lifecycle.GenerateJsonSafely | src/nysys.cpp:240-257 | GenerateJsonSafely: no text unless both snapshots are complete enough; stated by ReportStep and IterationEmission |
| Lifecycle.ReportStep | src/nysys.cpp:282-299 | changes only the error; hands the serializer's text to InvokeCallbacks exactly when dynamic collection succeeded, the first run is over, both snapshots are complete enough and text was produced; calls the registered callbacks, C first, exactly when that text is non-empty, and records InvalidParameter when it is empty; a dynamic failure records its code |
| Lifecycle.WorkerIteration | src/nysys.cpp:262-310 | a pass continues exactly when running and not signalled; an exiting pass changes nothing; a continuing pass sleeps for the interval and calls no callback unless it delivers |
| Lifecycle.Run | src/nysys.cpp:259-313 | the worker loop over a schedule of pass outcomes; stated by RunCountsCycles, RunFirstRunStaysCleared, RunDynamicAlwaysFailing, RunNoDeliveryBeforeStatic, RunCallbackAlwaysThrowing and Worker.MonitoringThread |
| Lifecycle.StartMonitoring | src/nysys.cpp:315-356 | start_monitoring as the new state and its result; its meaning is stated by StartWhileRunning, StartFromIdle and InvariantPreservedByStart |
| Lifecycle.StopMonitoring | src/nysys.cpp:358-390 | stop_monitoring as the new state; its meaning is stated by StopWhenIdle, StopWhenRunning, StopIdempotent and StopIgnoresWaitResult |
| Lifecycle.SetUpdateIntervalCommand | src/nysys.cpp:392-397 | set_update_interval; stated by SetUpdateIntervalContract and CApi.SetUpdateInterval |
| Lifecycle.SetCCallback | src/nysys.cpp:399-409 | set_callback; stated by SetCallbackClearsOnlyCallbackFailed |
| Lifecycle.CppStartMonitoring | src/nysys.cpp:415-429 | nysys::StartMonitoring as the new state, its result or the exception it throws; stated by CppStartNeverReturnsFalse and CppStartWhileRunningChangesInterval |
| Lifecycle.CppSetUpdateInterval | src/nysys.cpp:433-439 | nysys::SetUpdateInterval; stated by CppApi.SetUpdateInterval |
| Lifecycle.SetCppCallback | src/nysys.cpp:441-451 | nysys::SetCallback; stated by SetCallbackClearsOnlyCallbackFailed |
| Lifecycle.SetUpdateIntervalContract | src/nysys.cpp:102-113 | an interval is accepted exactly in [100, 3600000] and then stored; a rejected one records InvalidParameter and changes nothing else |
| Lifecycle.StartWhileRunning | src/nysys.cpp:316-319 | starting a running controller only records AlreadyRunning and returns false |
| Lifecycle.StartFromIdle | src/nysys.cpp:315-356 | from idle, start succeeds exactly with a valid interval, a created event and a spawned thread, leaving a fresh session; each failure leaves the controller idle with its own code |
| Lifecycle.StopWhenIdle | src/nysys.cpp:358-360 | stopping an idle controller changes nothing |
| Lifecycle.StopWhenRunning | src/nysys.cpp:358-390 | stopping a running controller leaves it idle and reset, with no handles, no callbacks and the code Success, and keeps the interval |
| Lifecycle.StopIdempotent | src/nysys.cpp:358-390 | stopping twice is the same as stopping once |
| Lifecycle.StopIgnoresWaitResult | src/nysys.cpp:368-381 | the state after a stop does not depend on what the wait reported |
| Lifecycle.InvokeCallbacksContract | src/nysys.cpp:125-151 | an empty document calls nothing and records InvalidParameter; otherwise every registered callback is called, the C one first, and the result is CallbackExecutionFailed exactly when one of them threw |
| Lifecycle.SetCallbackClearsOnlyCallbackFailed | src/nysys.cpp:399-409 | both setters install the callback; the error changes exactly when a callback is installed over CallbackFailed; CallbackExecutionFailed is kept |
| Lifecycle.CppStartWhileRunningChangesInterval | src/nysys.cpp:415-429 | on a running controller, a valid interval is stored and the call throws AlreadyRunning |
| Lifecycle.CppStartNeverReturnsFalse | src/nysys.cpp:415-429 | the wrapper either returns true with the controller running or throws the code recorded, which is never Success |
| Lifecycle.IterationExitsOnStop | src/nysys.cpp:262-264 | a raised stop event or a cleared running flag ends the loop before any collection |
| Lifecycle.IterationFirstRun | src/nysys.cpp:266-274 | after a pass, isFirstRun holds exactly when it held before and static collection failed; once the first run is over the static snapshot is left alone |
| Lifecycle.IterationCountsCycle | src/nysys.cpp:301-309 | a completed pass counts one cycle, discards the dynamic snapshot, keeps running and the callbacks, and sleeps for the interval |
| Lifecycle.IterationEmission | src/nysys.cpp:276-299 | on a reachable state a pass delivers exactly when dynamic collection succeeded, the static snapshot is established and a document was produced, and it delivers that document |
| Lifecycle.IterationErrors | src/nysys.cpp:266-299 | the code a pass leaves for each way it can fail: DataCollectionFailed, JsonGenerationFailed, InvalidParameter or CallbackExecutionFailed |
| Lifecycle.InvariantPreservedByStart | src/nysys.cpp:315-356 | the initial state satisfies the invariant, and start_monitoring keeps it: a finished first run has a complete static snapshot, and the dynamic snapshot is empty between cycles |
| Lifecycle.InvariantPreservedByCppStart | src/nysys.cpp:415-429 | nysys::StartMonitoring keeps the invariant |
| Lifecycle.InvariantPreservedByStop | src/nysys.cpp:358-390 | stopping, and opening a session, keep the invariant |
| Lifecycle.InvariantPreservedBySettings | src/nysys.cpp:392-409 | changing the interval or a callback keeps the invariant |
| Lifecycle.InvariantPreservedByIteration | src/nysys.cpp:259-313 | every worker pass keeps the invariant |
| Lifecycle.RunCountsCycles | src/nysys.cpp:262-310 | a run without stop requests counts one cycle per pass and keeps running |
| Lifecycle.RunFirstRunStaysCleared | src/nysys.cpp:266-274 | once the static snapshot is established, no later pass of the session sets isFirstRun again |
| Lifecycle.RunDynamicAlwaysFailing | src/nysys.cpp:276-280 | if dynamic collection always fails, nothing is delivered, the controller keeps running, and after a pass the code is DataCollectionFailed |
| Lifecycle.RunNoDeliveryBeforeStatic | src/nysys.cpp:266-299 | a run whose static collection never succeeds, starting before the first success, delivers nothing |
| Lifecycle.FirstCycleEmits | src/nysys.cpp:266-299 | on a freshly started controller, a pass that meets only successes already delivers its document and counts cycle 1 |
| Lifecycle.RunCallbackAlwaysThrowing | src/nysys.cpp:282-299 | a callback that always throws never stops the worker: every pass delivers, and the code becomes CallbackExecutionFailed |
| Context.MonitorContext.constructor | src/nysys.cpp:64-88 | the context starts idle, with interval 1000, isFirstRun set, no callbacks, empty snapshots and the code Success |
| Context.MonitorContext.Reset | src/nysys.cpp:90-100 | empties both snapshots, sets isFirstRun, clears the stop flag and the cycle count, records Success, and keeps everything else |
| Context.MonitorContext.SetUpdateInterval | src/nysys.cpp:106-113 | follows Lifecycle.SetUpdateInterval, whose meaning SetUpdateIntervalContract states |
| Context.MonitorContext.SetLastError | src/nysys.cpp:115-118 | only the recorded code changes |
| Context.MonitorContext.GetLastError | src/nysys.cpp:120-123 | returns the recorded code |
| Context.MonitorContext.InvokeCallbacks | src/nysys.cpp:125-151 | the callbacks called and the result are those of Lifecycle.InvokeCallbacks, stated by InvokeCallbacksContract |
| Context.MonitorContext.InitializeSession | src/nysys.cpp:153-158 | the cycle count restarts at 0, Success is recorded, and nothing else that the model keeps changes |
| Context.MonitorContext.IncrementCycle | src/nysys.cpp:160-163 | the cycle count grows by one and nothing else that the model keeps changes |
| Context.MonitorContext.ShouldStop | src/nysys.cpp:173 | true when the stop flag is set or monitoring is not running; RequestStop makes it hold |
| Context.MonitorContext.RequestStop | src/nysys.cpp:175 | only the stop flag is set, after which ShouldStop holds |
| Context.MonitorContext.ResetMonitorThread | src/nysys.cpp:382 | only the worker handle changes |
| Context.MonitorContext.ResetStopEvent | src/nysys.cpp:383 | only the stop event handle changes |
| Context.MonitorContext.ClearCallbacks | src/nysys.cpp:385-389 | both callbacks are removed and nothing else changes |
| Worker.CollectStaticInfo | src/nysys.cpp:180-212 | the static snapshot and result follow Lifecycle.CollectStatic: Success with all five components; DataCollectionFailed when a collector returns null, leaving the earlier ones stored, or throws, leaving the snapshot empty |
| Worker.CollectDynamicInfo | src/nysys.cpp:214-238 | the dynamic snapshot and result follow Lifecycle.CollectDynamic: Success with memory, storage and network present and the battery as its collector returned it; DataCollectionFailed otherwise |
| Worker.GenerateJsonSafely | src/nysys.cpp:240-257 | a document is produced only when the static snapshot is complete and the dynamic one essentially complete, and it is the serializer's output |
| Worker.StaticPhase | src/nysys.cpp:266-274 | the context moves as Lifecycle.StaticStep |
| Worker.Report | src/nysys.cpp:282-299 | the context, the delivery and the callbacks called are those of Lifecycle.ReportStep |
| Worker.MonitoringIteration | src/nysys.cpp:262-310 | one loop pass moves the context as Lifecycle.WorkerIteration |
| Worker.MonitoringThread | src/nysys.cpp:259-313 | the whole worker opens a session and then runs Lifecycle.Run over the schedule: final context, deliveries in order, and whether it exited |
| Worker.RunKeepsInvariant | src/nysys.cpp:259-313 | every run from a state satisfying the invariant ends in a state satisfying it |
| CApi.StartMonitoring | src/nysys.cpp:315-356 | the context and result follow Lifecycle.StartMonitoring, stated by StartWhileRunning and StartFromIdle |
| CApi.StopMonitoring | src/nysys.cpp:358-390 | the context follows Lifecycle.StopMonitoring, stated by StopWhenIdle and StopWhenRunning |
| CApi.SetUpdateInterval | src/nysys.cpp:392-397 | a valid interval is stored; an invalid one only records InvalidParameter |
| CApi.SetCallback | src/nysys.cpp:399-409 | the C callback is installed as SetCallbackClearsOnlyCallbackFailed states |
| CApi.IsMonitoring | src/nysys.cpp:411 | returns whether monitoring is running |
| CppApi.StartMonitoring | src/nysys.cpp:415-429 | the context and result follow Lifecycle.CppStartMonitoring, stated by CppStartNeverReturnsFalse and CppStartWhileRunningChangesInterval |
| CppApi.StopMonitoring | src/nysys.cpp:431 | the same transition as the C stop |
| CppApi.SetUpdateInterval | src/nysys.cpp:433-439 | a valid interval is stored; an invalid one records InvalidParameter and throws it |
| CppApi.SetCallback | src/nysys.cpp:441-451 | the C++ callback is installed as SetCallbackClearsOnlyCallbackFailed states |
| CppApi.IsMonitoring | src/nysys.cpp:453 | returns whether monitoring is running |
| CppApi.GetLastError | src/nysys.cpp:455 | returns the recorded code |
| Wmi.LVal | src/main/cpu_info.cpp:23-33 | the signed value of the VARIANT's low 32 bits: the same number when non-negative, else that number minus 2^32 |
| Wmi.GetPropertyString | src/helper/wmi_helper.cpp:211-250 | empty text for no object, an empty name or a failed Get; for a BSTR its text, or empty text when the BSTR is null |
| Wmi.GetPropertyStringNumbers | src/helper/wmi_helper.cpp:211-250 | VT_UI4 and VT_I4 values are rendered as their decimal text, which is never empty |
| Wmi.GetSafeProperty | src/main/storage_info.cpp:12-20 | the fallback for no object or empty text, otherwise the property's text; never empty when the fallback is not (GetSafeMemoryProperty at src/main/memory_info.cpp:10-18 is the same function) |
| Wmi.Wtoi64 | src/main/memory_info.cpp:20-37 | the value _wtoi64 reads always lies in the 64-bit signed range |
| Wmi.Wtoi64ReadsDecimal | src/main/memory_info.cpp:20-37 | the decimal text of a number within the range reads back as that number |
| Wmi.ToUInt64 | src/main/memory_info.cpp:20-37 | storing a 64-bit signed value in a uint64_t keeps non-negative values and adds 2^64 to negative ones |
| Cpu.SafeVariantToString | src/main/cpu_info.cpp:13-21 | the text of a non-null BSTR, otherwise "Unknown CPU" |
| Cpu.SafeVariantToUint32 | src/main/cpu_info.cpp:23-33 | a VT_I4 value clamped below at 0, a VT_UI4 value as is, and 0 for any other type |
| Cpu.SafeVariantToUint32Integers | src/main/cpu_info.cpp:23-33 | integers stored as VT_I4 or VT_UI4 read back as themselves; negative VT_I4 values read as 0 |
| Cpu.NameOf | src/main/cpu_info.cpp:73-76 | a processor without a Name keeps "Unknown CPU" |
| Cpu.CountOf | src/main/cpu_info.cpp:79-95 | a count whose Get fails keeps 0 |
| Cpu.CpuEntries | src/main/cpu_info.cpp:68-106 | one CPUInfo per processor object, in order |
| Cpu.CpuEntry | src/main/cpu_info.cpp:72-97 | the CPUInfo built from one processor object; stated by NameOf, CountOf and CpuEntryName |
| Cpu.CpuEntryName | src/main/cpu_info.cpp:73-76 | a name other than "Unknown CPU" is the processor's non-null BSTR Name |
| Cpu.CPUList.constructor | src/main/cpu_info.cpp:47 | an empty list, then Initialize |
| Cpu.CPUList.Initialize | src/main/cpu_info.cpp:49-114 | a failed session or query records its code and keeps the list; an escaped exception clears the list and records PropertyRetrievalFailed; otherwise one CPU per object is appended and Success recorded |
| Cpu.CPUList.GetCount | src/main/cpu_info.cpp:116 | the number of CPUs |
| Cpu.CPUList.GetCPU | src/main/cpu_info.cpp:118-123 | the CPU at the index, or nothing past the end |
| Gpu.GpuEntry | src/main/gpu_info.cpp:59-73 | the GPU keeps the adapter's description and index, and is integrated exactly when its dedicated memory is below 512 MiB |
| Gpu.Gpus | src/main/gpu_info.cpp:59-73 | the GPUs the adapter loop stores; stated by GpusFromAdapters and DescribedAdaptersStored |
| Gpu.GpusFromAdapters | src/main/gpu_info.cpp:59-73 | one GPU per adapter whose description was read, each built from the adapter at its own index, in increasing index order |
| Gpu.DescribedAdaptersStored | src/main/gpu_info.cpp:59-73 | every adapter whose description was read is stored with its index |
| Gpu.GPUList.constructor | src/main/gpu_info.cpp:47 | an empty list, then Initialize |
| Gpu.GPUList.Initialize | src/main/gpu_info.cpp:49-77 | a failed factory records DXGIFactoryCreationFailed and keeps the list; otherwise the described adapters are appended and Success recorded |
| Gpu.GPUList.GetCount | src/main/gpu_info.cpp:79 | the number of GPUs |
| Gpu.GPUList.GetGPU | src/main/gpu_info.cpp:81-86 | the GPU at the index, or nothing past the end |
| Memory.GetSafeUint64Property | src/main/memory_info.cpp:20-37 | a non-zero result comes from a non-null BSTR value |
| Memory.Uint64PropertyReadsDecimal | src/main/memory_info.cpp:20-37 | a capacity reported as decimal text within the 64-bit signed range is read back exactly |
| Memory.GetSafeUint32Property | src/main/memory_info.cpp:39-54 | 0 for no object, a failed Get or VT_NULL |
| Memory.Uint32PropertyReadsIntegers | src/main/memory_info.cpp:39-54 | VT_UI4 values, and non-negative VT_I4 values, read back as the numbers they hold |
| Memory.RAMSlotInfo.GetSlotLocation | src/main/memory_info.cpp:65-71 | never empty: the stored slot name, or "Unknown Slot" when it is empty |
| Memory.RAMSlotInfo.GetManufacturer | src/main/memory_info.cpp:73-79 | never empty: the stored manufacturer, or "Unknown Manufacturer" when it is empty |
| Memory.ConfiguredSpeed | src/main/memory_info.cpp:126-128 | a reported configured speed is kept; 0 is replaced by the nominal speed |
| Memory.RamSlotNamesStored | src/main/memory_info.cpp:121-143 | the stored slot and manufacturer names are never empty, so the getters return them unchanged |
| Memory.UsedPhysicalComplement | src/main/memory_info.cpp:95-97 | used plus available is the total modulo 2^64, and used is exactly total minus available when available does not exceed the total |
| Memory.UsedPhysical | src/main/memory_info.cpp:95-97 | ullTotalPhys - ullAvailPhys in uint64_t; stated by UsedPhysicalComplement |
| Memory.RamSlot | src/main/memory_info.cpp:122-135 | the RAMSlotInfo built from one memory object; stated by ConfiguredSpeed and RamSlotNamesStored |
| Memory.RamSlots | src/main/memory_info.cpp:121-143 | one slot per memory object, in order |
| Memory.MemoryInfo.constructor | src/main/memory_info.cpp:87 | zeroed members, then Initialize |
| Memory.MemoryInfo.Initialize | src/main/memory_info.cpp:89-150 | a failed status query records PropertyRetrievalFailed; otherwise the totals are stored, and a failed session or query records its code, while success appends one slot per object |
| Memory.MemoryInfo.GetRAMSlotCount | src/main/memory_info.cpp:160 | the number of slots |
| Memory.MemoryInfo.GetRAMSlot | src/main/memory_info.cpp:162-167 | the slot at the index, or nothing past the end |
| Storage.GetDriveTypeString | src/main/storage_info.cpp:44-59 | the name of drive types 2 to 6, "Unknown" for any other value |
| Storage.DriveTypeNamesDistinct | src/main/storage_info.cpp:44-59 | each of the five known types has its own name, and none is named "Unknown" |
| Storage.SelectModel | src/main/storage_info.cpp:110-115 | the volume name if any, else the physical model if any, else "Unknown Storage Device"; never empty |
| Storage.DriveLetter | src/main/storage_info.cpp:95 | the DeviceID text, or "N/A"; stated by ProcessLogicalDisk and LogicalEntryWellFormed |
| Storage.DriveType | src/main/storage_info.cpp:101-108 | the drive-type name, or "Unknown" when the Get fails or gives VT_NULL; stated by LogicalEntryWellFormed and DriveTypeNamesDistinct |
| Storage.LogicalEntry | src/main/storage_info.cpp:92-124 | what ProcessLogicalDisk appends for one logical disk; stated by ProcessLogicalDisk and LogicalEntryWellFormed |
| Storage.LogicalEntries | src/main/storage_info.cpp:178-186 | the disks of a partition's logical disks, in order; stated by ProcessLogicalDisks and LogicalEntriesWellFormed |
| Storage.PartitionEntry | src/main/storage_info.cpp:165-190 | the disks of one partition, none unless its DeviceID is a BSTR and its query succeeded; stated by ProcessPartitions and PartitionEntriesWellFormed |
| Storage.PartitionEntries | src/main/storage_info.cpp:164-195 | the disks of a drive's partitions, in order; stated by ProcessPartitions and PartitionEntriesWellFormed |
| Storage.DiskModel | src/main/storage_info.cpp:147 | the drive's Model text, or "Unknown Storage Device"; stated by DiskEntriesWellFormed |
| Storage.DiskInterface | src/main/storage_info.cpp:149 | the drive's InterfaceType text, or "Unknown"; stated by DiskEntriesWellFormed |
| Storage.DiskEntry | src/main/storage_info.cpp:146-199 | the disks of one physical drive; stated by DiskEntriesWellFormed and StorageList.Initialize |
| Storage.DiskEntries | src/main/storage_info.cpp:145-207 | the disks of every drive, in order; stated by DiskEntriesWellFormed and StorageList.Initialize |
| Storage.ProcessLogicalDisk | src/main/storage_info.cpp:92-124 | a disk without a drive letter adds nothing; otherwise one disk is appended, carrying the letter, the model SelectModel chooses and the physical interface |
| Storage.LogicalEntryWellFormed | src/main/storage_info.cpp:92-124 | the disk ProcessLogicalDisk appends, if any, is well formed |
| Storage.LogicalEntriesWellFormed | src/main/storage_info.cpp:178-186 | every disk stored for a partition has a drive letter other than "N/A", a non-empty model and interface, and a known drive-type name or "Unknown" |
| Storage.PartitionEntriesWellFormed | src/main/storage_info.cpp:164-195 | every disk stored for a physical drive is well formed |
| Storage.DiskEntriesWellFormed | src/main/storage_info.cpp:128-215 | every disk Initialize stores is well formed |
| Storage.ProcessPartitions | src/main/storage_info.cpp:164-195 | appends the disks of each partition, in order |
| Storage.ProcessLogicalDisks | src/main/storage_info.cpp:178-186 | appends the disks of each logical disk, in order |
| Storage.StorageList.constructor | src/main/storage_info.cpp:126 | an empty list, then Initialize |
| Storage.StorageList.Initialize | src/main/storage_info.cpp:128-215 | a failed session or query records its code; an escaped exception clears the list and records PropertyRetrievalFailed; otherwise every drive's disks are appended and Success recorded |
| Storage.StorageList.GetCount | src/main/storage_info.cpp:217 | the number of disks |
| Storage.StorageList.GetDisk | src/main/storage_info.cpp:219-224 | the disk at the index, or nothing past the end |
| Network.HexByteReadsBack | src/main/network_info.cpp:13-29 | each byte is written as two hexadecimal digits that read back as the byte, with no colon |
| Network.HexByte | src/main/network_info.cpp:19-25 | one byte as two uppercase hexadecimal digits; stated by HexByteReadsBack |
| Network.MacText | src/main/network_info.cpp:18-28 | the colon-separated hexadecimal of an address; stated by MacTextLayout and MacTextInjective |
| Network.MacTextLayout | src/main/network_info.cpp:13-29 | the address text is 3n-1 characters long: byte i at positions 3i and 3i+1, a colon after every byte but the last |
| Network.MacTextInjective | src/main/network_info.cpp:13-29 | different addresses of the same length give different texts |
| Network.FormatMacAddress | src/main/network_info.cpp:13-29 | empty text for a null address or length 0, otherwise the colon-separated hexadecimal of the first length bytes |
| Network.IsValidIpAddress | src/main/network_info.cpp:31 | a non-null address other than "0.0.0.0"; stated by Connection |
| Network.IsSystemAdapter | src/main/network_info.cpp:107-122 | the system-adapter filter; stated by IsSystemAdapterMarkers and IsSystemAdapterIgnoresCase |
| Network.NetworkAdapterInfo.IsEthernet | src/main/network_info.cpp:50 | type MIB_IF_TYPE_ETHERNET; stated by EthernetAndWiFiExclusive |
| Network.NetworkAdapterInfo.IsWiFi | src/main/network_info.cpp:52 | type IF_TYPE_IEEE80211; stated by EthernetAndWiFiExclusive |
| Network.IsSystemAdapterIgnoresCase | src/main/network_info.cpp:107-122 | descriptions equal up to letter case are filtered alike |
| Network.IsSystemAdapterMarkers | src/main/network_info.cpp:107-122 | a description is filtered exactly when its lower-case form contains "virtual", "pseudo", "loopback" or "microsoft" |
| Network.EthernetAndWiFiExclusive | src/main/network_info.cpp:50-52 | no adapter is both wired and wireless |
| Network.Connection | src/main/network_info.cpp:82-88 | "Connected" with the address exactly when the address is non-null and not 0.0.0.0; otherwise "N/A" and "Not Connected" |
| Network.Describe | src/main/network_info.cpp:80-91 | the NetworkAdapterInfo stored for a kept adapter; stated by MacTextLayout, Connection and KeptExactlyNonSystem |
| Network.Kept | src/main/network_info.cpp:76-97 | the adapters the chain walk stores, in order; stated by KeptExactlyNonSystem |
| Network.KeptExactlyNonSystem | src/main/network_info.cpp:76-97 | no kept adapter is a system adapter, every other adapter is kept, and none is added |
| Network.NetworkList.constructor | src/main/network_info.cpp:54 | an empty list, then Initialize |
| Network.NetworkList.Initialize | src/main/network_info.cpp:56-105 | a failed GetAdaptersInfo records AdapterInfoFailed and keeps the list; otherwise the non-system adapters of the chain are appended in order |
| Network.NetworkList.GetCount | src/main/network_info.cpp:124 | the number of adapters |
| Network.NetworkList.GetAdapter | src/main/network_info.cpp:126-131 | the adapter at the index, or nothing past the end |
| Battery.HasBatteryExactly | src/main/battery_info.cpp:6-16 | a battery is reported exactly when the flag is neither 128 nor 255 and the percentage is known |
| Battery.HasBattery | src/main/battery_info.cpp:6-16 | the three-branch battery test; stated by HasBatteryExactly |
| Battery.SafeBatteryPercent | src/main/battery_info.cpp:18-23 | at most 100: the raw value when it is at most 100, else 100 |
| Battery.BatteryInfo.constructor | src/main/battery_info.cpp:26 | the desktop defaults, then Initialize |
| Battery.BatteryInfo.Initialize | src/main/battery_info.cpp:28-52 | a failed status query records SystemPowerStatusFailed and keeps the defaults; a machine without a battery is a plugged-in desktop at 100 percent; one with a battery reports its clamped percentage and whether AC power is online |
| Monitors.SafeNumericConversion | src/main/monitor_info.cpp:26-31 | the value when within bounds, else the fallback; within bounds whenever the fallback is |
| Monitors.Escape | src/main/monitor_info.cpp:44-52 | every backslash doubled; stated by UnescapeEscape, EscapeLength, EscapeKeepsOtherCharacters, EscapeWithoutBackslash and EscapeAppend |
| Monitors.UnescapeEscape | src/main/monitor_info.cpp:44-52 | undoing the doubling of backslashes gives back the device ID |
| Monitors.EscapeLength | src/main/monitor_info.cpp:44-52 | the escaped ID is longer by the number of backslashes |
| Monitors.EscapeKeepsOtherCharacters | src/main/monitor_info.cpp:44-52 | apart from backslashes, the escaped ID has the same characters in the same order |
| Monitors.EscapeWithoutBackslash | src/main/monitor_info.cpp:44-52 | an ID without backslashes is unchanged |
| Monitors.EscapeAppend | src/main/monitor_info.cpp:44-52 | escaping works character by character, so it distributes over concatenation |
| Monitors.GetDeviceId | src/main/monitor_info.cpp:44-52 | the in-place loop produces the escaped ID |
| Monitors.ManufacturerBetweenBackslashes | src/main/monitor_info.cpp:232-251 | the manufacturer is the text strictly between the first two backslashes, "Unknown" when there are fewer than two, and never holds a backslash |
| Monitors.Manufacturer | src/main/monitor_info.cpp:232-244 | the manufacturer taken from a device ID; stated by ManufacturerBetweenBackslashes |
| Monitors.Gcd | src/main/monitor_info.cpp:266 | std::gcd of two sides; stated by GcdDivides and GcdGreatest |
| Monitors.AspectRatio | src/main/monitor_info.cpp:265-272 | the aspect-ratio text; stated by AspectRatioReduced and AspectRatioProportional |
| Monitors.NativeResolution | src/main/monitor_info.cpp:274-281 | the "W x H" text; stated by NativeResolutionReadsBack and NativeResolutionKnown |
| Monitors.CurrentResolution | src/main/monitor_info.cpp:277-282 | the "W x H @ R Hz" text; stated by CurrentResolutionReadsBack |
| Monitors.GcdDivides | src/main/monitor_info.cpp:265-272 | the greatest common divisor of two positive sides divides both |
| Monitors.GcdGreatest | src/main/monitor_info.cpp:265-272 | every common divisor divides it |
| Monitors.ReducedCoprime | src/main/monitor_info.cpp:265-272 | dividing both sides by it leaves coprime quotients |
| Monitors.AspectRatioReduced | src/main/monitor_info.cpp:265-272 | for positive sides the ratio text is "x:y" with x:y equal to width:height in lowest terms; otherwise "0:0" |
| Monitors.AspectRatioProportional | src/main/monitor_info.cpp:265-272 | two modes with the same ratio text are proportional |
| Monitors.NativeResolutionReadsBack | src/main/monitor_info.cpp:274-278 | a native resolution text determines the width and height |
| Monitors.NativeResolutionKnown | src/main/monitor_info.cpp:274-278 | a mode with positive sides is never reported as "Unknown" |
| Monitors.CurrentResolutionReadsBack | src/main/monitor_info.cpp:274-278 | a current resolution text determines the width, height and refresh rate |
| Monitors.EdidImageSizeFields | src/main/monitor_info.cpp:183-184 | the upper nibble of byte 68 gives bits 11-8 of the width and the lower nibble those of the height, so both lie in [0, 4095] |
| Monitors.EdidWidthMm | src/main/monitor_info.cpp:183 | the horizontal image size decoded from bytes 66 and 68; stated by EdidImageSizeFields and DecodeEncodeImageSize |
| Monitors.EdidHeightMm | src/main/monitor_info.cpp:184 | the vertical image size decoded from bytes 67 and 68; stated by EdidImageSizeFields and DecodeEncodeImageSize |
| Monitors.DecodeEncodeImageSize | src/main/monitor_info.cpp:183-184 | any image size below 4096 mm, stored in the EDID bytes, is decoded back exactly |
| Monitors.EdidDiagonalUnderLimit | src/main/monitor_info.cpp:308-314 | every decodable size has a diagonal under 1000 inches, so the inch text is always written |
| Monitors.FirstEdid | src/main/monitor_info.cpp:160-191 | the EDID of the first interface whose detail and registry value could both be read, and none when no interface can be read |
| Monitors.EdidLookup | src/main/monitor_info.cpp:131-197 | GetMonitorSizeFromEDID as (found, width, height); stated by GetMonitorSizeFromEdid and EdidLookupIgnoresDeviceName |
| Monitors.GetMonitorSizeFromEdid | src/main/monitor_info.cpp:131-197 | the walk over the interfaces returns what EdidLookup specifies |
| Monitors.EdidLookupIgnoresDeviceName | src/main/monitor_info.cpp:131-197 | two non-empty device names give the same result, and a size is found exactly when some interface is readable |
| Monitors.DeviceName | src/main/monitor_info.cpp:225-228 | the DeviceID buffer, empty when EnumDisplayDevicesA failed; stated by EdidLookupIgnoresDeviceName |
| Monitors.DescribeMonitor | src/main/monitor_info.cpp:205-342 | the MonitorInfo built for one monitor; stated by DescribeMonitorWellFormed |
| Monitors.Stored | src/main/monitor_info.cpp:199-347 | what one MonitorEnumProc call stores; stated by MonitorList.MonitorEnumProc |
| Monitors.DescribeMonitorWellFormed | src/main/monitor_info.cpp:199-347 | every stored monitor has width and height in [1, 32767], a refresh rate in [1, 1000], physical sizes in [0, 4095], and a diagonal exactly when both physical sizes are positive |
| Monitors.DescribeAll | src/main/monitor_info.cpp:72-90 | the monitors a whole enumeration stores; stated by DescribeAllWellFormed and MonitorList.Initialize |
| Monitors.DescribeAllWellFormed | src/main/monitor_info.cpp:72-90 | an enumeration stores at most one monitor per callback, all well formed |
| Monitors.MonitorList.constructor | src/main/monitor_info.cpp:70 | the list Initialize builds |
| Monitors.MonitorList.Initialize | src/main/monitor_info.cpp:72-90 | the list is replaced by the monitors of the enumeration; the code and flag say whether EnumDisplayMonitors succeeded |
| Monitors.MonitorList.MonitorEnumProc | src/main/monitor_info.cpp:199-347 | always continues the enumeration and appends the described monitor, or nothing when GetMonitorInfoA failed |
| Monitors.MonitorList.Count | src/main/monitor_info.cpp:92 | the number of monitors |
| Monitors.MonitorList.GetMonitor | src/main/monitor_info.cpp:94-99 | the monitor at the index, or nothing past the end |
| Monitors.MonitorList.AddMonitor | src/main/monitor_info.cpp:107-112 | appends exactly the monitor given |
| JsonStructure.KeysDistinct | src/helper/json_structure.cpp:34-258 | each of the nine sections is written under its own key |
| JsonStructure.FindFirstNotSpace | src/helper/json_structure.cpp:20-32 | the first character that is not white space, with only white space before it, or none |
| JsonStructure.FindLastNotSpace | src/helper/json_structure.cpp:20-32 | the last character that is not white space, with only white space after it, or none |
| JsonStructure.TrimString | src/helper/json_structure.cpp:20-32 | TrimString; stated by TrimStringSubstring, TrimStringEnds, TrimStringEmpty and TrimStringIdempotent |
| JsonStructure.TrimStringSubstring | src/helper/json_structure.cpp:20-32 | the trimmed text is a contiguous part of the input with only white space around it |
| JsonStructure.TrimStringEnds | src/helper/json_structure.cpp:20-32 | a non-empty trimmed text neither starts nor ends with white space |
| JsonStructure.TrimStringEmpty | src/helper/json_structure.cpp:20-32 | the trimmed text is empty exactly when the input is all white space |
| JsonStructure.TrimStringIdempotent | src/helper/json_structure.cpp:20-32 | trimming twice is trimming once |
| JsonStructure.GpuObject | src/helper/json_structure.cpp:44-49 | one GPU object: name, vram, shared_memory and type; stated by GpuType |
| JsonStructure.MotherboardObject | src/helper/json_structure.cpp:63-69 | the motherboard object's six fields; stated by AppendMotherboardInfo |
| JsonStructure.CpuObject | src/helper/json_structure.cpp:86-91 | one CPU object: trimmed name, cores, threads and clock speed; stated by CpuNameTrimmed |
| JsonStructure.SlotObject | src/helper/json_structure.cpp:115-121 | one RAM slot object; stated by AppendMemoryInfo |
| JsonStructure.MemoryObject | src/helper/json_structure.cpp:105-124 | the memory object with its ram_slots array; stated by AppendMemoryInfo |
| JsonStructure.DiskObject | src/helper/json_structure.cpp:140-152 | one disk object; stated by AppendStorageInfo |
| JsonStructure.AdapterObject | src/helper/json_structure.cpp:172-176 | one adapter object: name, mac_address, ip_address and status; stated by NetworkPartition |
| JsonStructure.EthernetAdapters | src/helper/json_structure.cpp:171-182 | the adapters that go to "ethernet", in order; stated by NetworkPartition |
| JsonStructure.WiFiAdapters | src/helper/json_structure.cpp:171-182 | the adapters that go to "wifi", in order; stated by NetworkPartition |
| JsonStructure.NetworkObject | src/helper/json_structure.cpp:167-187 | the network object with its two arrays; stated by NetworkPartition and AppendNetworkInfo |
| JsonStructure.AudioObject | src/helper/json_structure.cpp:202-205 | one audio device object; stated by AppendAudioInfo |
| JsonStructure.BatteryObject | src/helper/json_structure.cpp:219-222 | the battery object; stated by AppendBatteryInfo |
| JsonStructure.ScreenSizeJson | src/helper/json_structure.cpp:247 | the screen_size value, as the diagonal's sides or "Unknown"; stated by AppendMonitorInfo |
| JsonStructure.MonitorObject | src/helper/json_structure.cpp:239-252 | one monitor object with the escaped device_id; stated by AppendMonitorInfo |
| JsonStructure.GpuType | src/helper/json_structure.cpp:48 | the GPU's "type" is "iGPU" exactly for an adapter with less than 512 MiB of dedicated memory, else "dGPU" |
| JsonStructure.CpuNameTrimmed | src/helper/json_structure.cpp:87 | the CPU's "name" is its name with surrounding white space removed |
| JsonStructure.NetworkPartition | src/helper/json_structure.cpp:171-187 | "ethernet" holds exactly the wired adapters and "wifi" exactly the wireless ones; adapters of other types appear in neither |
| JsonStructure.Objects | src/helper/json_structure.cpp:34-258 | one JSON object per item, in order |
| JsonStructure.AppendGpuInfo | src/helper/json_structure.cpp:34-55 | sets "gpu" to the list's GPUs, or leaves the document unchanged for no list |
| JsonStructure.AppendMotherboardInfo | src/helper/json_structure.cpp:57-74 | sets "motherboard", or leaves the document unchanged |
| JsonStructure.AppendCpuInfo | src/helper/json_structure.cpp:76-97 | sets "cpu" to the list's CPUs, or leaves the document unchanged |
| JsonStructure.AppendMemoryInfo | src/helper/json_structure.cpp:99-128 | sets "memory" to the totals and slots, or leaves the document unchanged |
| JsonStructure.AppendStorageInfo | src/helper/json_structure.cpp:130-158 | sets "storage" to the list's disks, or leaves the document unchanged |
| JsonStructure.AppendNetworkInfo | src/helper/json_structure.cpp:160-190 | sets "network" to the two adapter arrays, or leaves the document unchanged |
| JsonStructure.AppendAudioInfo | src/helper/json_structure.cpp:192-211 | sets "audio", or leaves the document unchanged |
| JsonStructure.AppendBatteryInfo | src/helper/json_structure.cpp:213-227 | sets "battery", or leaves the document unchanged |
| JsonStructure.AppendMonitorInfo | src/helper/json_structure.cpp:229-258 | sets "monitors", or leaves the document unchanged |
| JsonStructure.SystemDocument | src/helper/json_structure.cpp:260-288 | the document the nine appends build; stated by SystemDocumentSections and GenerateSystemInfo |
| JsonStructure.SystemDocumentSections | src/helper/json_structure.cpp:260-288 | the document holds a section exactly when that section's source was given, and holds that source's value |
| JsonStructure.GenerateSystemInfo | src/helper/json_structure.cpp:260-288 | the nine appends in order build the document SystemDocumentSections describes |

## Left out

- Concurrency: threads, events, atomics and mutexes. Each entry point and each worker pass is one atomic step. The race between `start_monitoring` setting `isRunning` (src/nysys.cpp:347) and the worker's first read of it (line 262) is not modelled.
- cycleCount is unbounded; the `size_t` wrap after 2^64 cycles (src/nysys.cpp:67, 161) is not modelled. Nothing in the code reads the counter.
- Clocks: `startTime`, `lastUpdateTime` and `GetUptime`. The worker's `Sleep` is returned as the number of milliseconds it would sleep.
- Floating point: `utils::BytesToGB`, the double-valued readers, disk sizes and used space, `CalculatePPI` and the diagonal's "x.y inch" text. Gigabyte values are kept as byte counts and the diagonal as its two sides. Of `GetCompletionPercentage`, only the integer count of completed components is modelled.
- The text layout of `nlohmann::json::dump`, including pretty printing, and the `std::nullopt` result when dump throws. The serializer's output is an input of the worker.
- The motherboard and audio collectors (src/main/motherboard_info.cpp, src/main/audio_info.cpp). They are not part of this model; their getters' values are inputs of the JSON builders.
- Allocation failures and `catch (...)` handlers that only an allocation can reach, in these places:
  - `start_monitoring`'s UnknownError;
  - the per-object catches of the collector loops;
  - MemoryInfo's outer PropertyRetrievalFailed;
  - NetworkList's MemoryAllocationFailed;
  - BatteryInfo's InvalidBatteryState;
  - the catches in MonitorEnumProc, which store fixed defaults;
  - the catches in the Append* builders.
  The CPU and storage collectors' outer handlers are modelled through an explicit "thrown" input.
- Windows services are inputs: WMI/COM, DXGI, SetupAPI and the registry, GetAdaptersInfo, GlobalMemoryStatusEx, GetSystemPowerStatus and the display APIs.
- UTF-16 to UTF-8 conversion (`BstrToUtf8`, `WideStringToUtf8`) is the identity on `seq<char>`. Lower-casing and white space are ASCII only.
- Wmi.Wtoi64: reads leading white space, a sign and decimal digits, saturating at the 64-bit bounds. Its contract states only the range; `Wtoi64ReadsDecimal` states the value for decimal text.
- Wmi.GetPropertyString: the VT_I8, VT_R8, VT_BOOL and other tags are folded into one converted text per value. Its contract states the empty and BSTR cases; `GetPropertyStringNumbers` states the VT_I4 and VT_UI4 cases.
- Memory.GetSafeUint64Property: the contract states only when the result can be non-zero; `Uint64PropertyReadsDecimal` states the value for decimal text.
- Memory.GetSafeUint32Property: the contract states only the cases that give 0; `Uint32PropertyReadsIntegers` states the integer tags.
- Monitors.DescribeMonitorWellFormed: the rectangle's width and height are unbounded integers before clamping. The `LONG` subtraction and the `static_cast<int>` are not modelled.
- The monitor, network and storage collectors' error-to-text functions, and the example programs example_c.c and example_cpp.cpp.
