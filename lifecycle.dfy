/**
 * The monitoring lifecycle of src/nysys.cpp as a pure state machine over the fields of
 * MonitorContext. Every outcome the source obtains from the operating system (event and
 * thread creation, the wait on the worker, the stop event, the collectors, the serializer
 * and the callbacks) is an explicit input. The imperative model in module Context and the
 * entry points in CApi, CppApi and Worker are proved to follow these functions.
 */
module Lifecycle {

  import opened Wrappers
  import opened Text
  import opened MonitoringErrors
  import opened Snapshots

  const MinUpdateIntervalMs: int := 100
  const DefaultUpdateIntervalMs: int := 1000
  const MaxThreadWaitMs: int := 5000
  const MaxUpdateIntervalMs: int := 3600000

  /** The identity of a consumer function registered through set_callback or SetCallback. */
  datatype Callback = Callback(id: nat)

  /** The fields of MonitorContext; the two handles are recorded as "holds a valid handle". */
  datatype ContextState = ContextState(
    isRunning: bool,
    updateInterval: Int32,
    isFirstRun: bool,
    shouldStop: bool,
    cycleCount: nat,
    lastError: MonitoringError,
    cCallback: Option<Callback>,
    cppCallback: Option<Callback>,
    staticInfo: StaticSlots,
    dynamicInfo: DynamicSlots,
    monitorThread: bool,
    stopEvent: bool)

  /** g_MonitorContext as the process starts. */
  const InitialState: ContextState := ContextState(
    false, DefaultUpdateIntervalMs, true, false, 0, Success, None, None,
    NoStaticSlots, NoDynamicSlots, false, false)

  /** The invariant every reachable state keeps: a finished first run has a complete static
      snapshot, and the per-cycle dynamic snapshot is discarded between cycles. */
  predicate Inv(s: ContextState)
  {
    && (!s.isFirstRun ==> s.staticInfo.IsComplete())
    && s.dynamicInfo == NoDynamicSlots
  }

  // ---------------------------------------------------------------- MonitorContext members

  /** MonitorContext::Reset. */
  function Reset(s: ContextState): ContextState
  {
    s.(staticInfo := NoStaticSlots, dynamicInfo := NoDynamicSlots, isFirstRun := true,
       shouldStop := false, cycleCount := 0, lastError := Success)
  }

  /** MonitorContext::IsValidInterval. */
  predicate IsValidInterval(ms: int)
  {
    ms >= MinUpdateIntervalMs && ms <= MaxUpdateIntervalMs
  }

  /** MonitorContext::SetUpdateInterval: the new state and the code it returns. */
  function SetUpdateInterval(s: ContextState, ms: Int32): (ContextState, MonitoringError)
  {
    if !IsValidInterval(ms) then (s.(lastError := InvalidParameter), InvalidParameter)
    else (s.(updateInterval := ms), Success)
  }

  /** What InvokeCallbacks returns, and which registered callbacks it called, in order. */
  datatype InvokeResult = InvokeResult(error: MonitoringError, called: seq<Callback>)

  /** MonitorContext::InvokeCallbacks; `cThrows` and `cppThrows` say whether each callback throws. */
  function InvokeCallbacks(cCallback: Option<Callback>, cppCallback: Option<Callback>, document: string,
                           cThrows: bool, cppThrows: bool): InvokeResult
  {
    if document == [] then InvokeResult(InvalidParameter, [])
    else
      var called := (if cCallback.Some? then [cCallback.value] else [])
                    + (if cppCallback.Some? then [cppCallback.value] else []);
      var failed := (cCallback.Some? && cThrows) || (cppCallback.Some? && cppThrows);
      InvokeResult(if failed then CallbackExecutionFailed else Success, called)
  }

  /** MonitorContext::InitializeSession (the clock readings are not modelled). */
  function InitializeSession(s: ContextState): ContextState
  {
    s.(cycleCount := 0, lastError := Success)
  }

  /** MonitorContext::IncrementCycle (the clock reading is not modelled). */
  function IncrementCycle(s: ContextState): ContextState
  {
    s.(cycleCount := s.cycleCount + 1)
  }

  // ---------------------------------------------------------------- C entry points

  /** start_monitoring: the new state and the BOOL it returns. */
  function StartMonitoring(s: ContextState, ms: Int32, eventCreated: bool, threadSpawned: bool): (ContextState, bool)
  {
    if s.isRunning then (s.(lastError := AlreadyRunning), false)
    else
      var (s1, e) := SetUpdateInterval(s, ms);
      if e != Success then (s1.(lastError := e), false)
      else
        var s2 := s1.(isFirstRun := true);
        if !eventCreated then (s2.(lastError := SystemResourceError), false)
        else
          var s3 := Reset(s2.(stopEvent := true));
          if !threadSpawned then (s3.(stopEvent := false, lastError := ThreadCreationFailed), false)
          else (s3.(monitorThread := true, isRunning := true), true)
  }

  /** What WaitForSingleObject on the worker reports. */
  datatype WaitResult = WorkerExited | WaitTimedOut | WaitFailed

  /** stop_monitoring. */
  function StopMonitoring(s: ContextState, wait: WaitResult): ContextState
  {
    if !s.isRunning then s
    else
      var s1 := s.(shouldStop := true);
      var s2 := if !s1.monitorThread then s1
                else if wait == WaitTimedOut then s1.(lastError := ThreadTerminationFailed)
                else if wait == WaitFailed then s1.(lastError := SystemResourceError)
                else s1;
      var s3 := Reset(s2.(isRunning := false));
      s3.(monitorThread := false, stopEvent := false, cCallback := None, cppCallback := None)
  }

  /** set_update_interval. */
  function SetUpdateIntervalCommand(s: ContextState, ms: Int32): ContextState
  {
    var (s1, e) := SetUpdateInterval(s, ms);
    if e != Success then s1.(lastError := e) else s1
  }

  /** The error a newly installed callback clears: set_callback and SetCallback test for CallbackFailed. */
  function ClearedByNewCallback(callback: Option<Callback>, lastError: MonitoringError): MonitoringError
  {
    if callback.Some? && lastError == CallbackFailed then Success else lastError
  }

  /** set_callback. */
  function SetCCallback(s: ContextState, callback: Option<Callback>): ContextState
  {
    s.(cCallback := callback, lastError := ClearedByNewCallback(callback, s.lastError))
  }

  // ---------------------------------------------------------------- nysys:: wrappers

  /** nysys::StartMonitoring: Err is the MonitoringException it throws. */
  function CppStartMonitoring(s: ContextState, ms: Int32, eventCreated: bool, threadSpawned: bool)
    : (ContextState, Result<bool, MonitoringException>)
  {
    var (s1, e) := SetUpdateInterval(s, ms);
    if e != Success then
      (s1, Err(NewExceptionWithDetails(e, "Invalid update interval: " + IntToString(ms) + "ms")))
    else
      var (s2, started) := StartMonitoring(s1, ms, eventCreated, threadSpawned);
      if !started && s2.lastError != Success then
        (s2, Err(NewExceptionWithDetails(s2.lastError, "Failed to start monitoring")))
      else (s2, Ok(started))
  }

  /** nysys::SetUpdateInterval: Some is the MonitoringException it throws. */
  function CppSetUpdateInterval(s: ContextState, ms: Int32): (ContextState, Option<MonitoringException>)
  {
    var (s1, e) := SetUpdateInterval(s, ms);
    if e != Success then (s1, Some(NewExceptionWithDetails(e, "Invalid update interval: " + IntToString(ms) + "ms")))
    else (SetUpdateIntervalCommand(s1, ms), None)
  }

  /** nysys::SetCallback. */
  function SetCppCallback(s: ContextState, callback: Option<Callback>): ContextState
  {
    s.(cppCallback := callback, lastError := ClearedByNewCallback(callback, s.lastError))
  }

  // ---------------------------------------------------------------- the worker

  /** How a CollectStaticInfo call ends: every collector returned a list, the collector for
      `slot` returned null, or a collector threw. */
  datatype StaticOutcome = StaticCollected | StaticNullAt(slot: StaticSlot) | StaticThrew

  /** How a CollectDynamicInfo call ends; on success the battery pointer is whatever GetBatteryInfo returned. */
  datatype DynamicOutcome = DynamicCollected(batteryPresent: bool) | DynamicNullAt(slot: EssentialSlot) | DynamicThrew

  /** CollectStaticInfo: the slots it leaves behind and the code it returns. */
  function CollectStatic(slots: StaticSlots, outcome: StaticOutcome): (StaticSlots, MonitoringError)
  {
    match outcome
    case StaticCollected => (AllStaticSlots, Success)
    case StaticThrew => (NoStaticSlots, DataCollectionFailed)
    // the collectors before the null one stored a list, the null one stored null, the later ones were not called
    case StaticNullAt(CpuSlot) => (slots.(cpuList := false), DataCollectionFailed)
    case StaticNullAt(GpuSlot) => (slots.(cpuList := true, gpuList := false), DataCollectionFailed)
    case StaticNullAt(MotherboardSlot) => (slots.(cpuList := true, gpuList := true, mbInfo := false), DataCollectionFailed)
    case StaticNullAt(AudioSlot) => (slots.(cpuList := true, gpuList := true, mbInfo := true, audioList := false), DataCollectionFailed)
    case StaticNullAt(MonitorSlot) =>
      (slots.(cpuList := true, gpuList := true, mbInfo := true, audioList := true, monitorList := false), DataCollectionFailed)
  }

  /** CollectDynamicInfo: the slots it leaves behind and the code it returns. */
  function CollectDynamic(slots: DynamicSlots, outcome: DynamicOutcome): (DynamicSlots, MonitoringError)
  {
    match outcome
    case DynamicCollected(battery) => (slots.(memInfo := true, storageList := true, networkList := true, batteryInfo := battery), Success)
    case DynamicThrew => (NoDynamicSlots, DataCollectionFailed)
    case DynamicNullAt(MemorySlot) => (slots.(memInfo := false), DataCollectionFailed)
    case DynamicNullAt(StorageSlot) => (slots.(memInfo := true, storageList := false), DataCollectionFailed)
    case DynamicNullAt(NetworkSlot) => (slots.(memInfo := true, storageList := true, networkList := false), DataCollectionFailed)
  }

  /** GenerateJsonSafely: nothing unless both snapshots are complete enough, else what the serializer produced. */
  function GenerateJsonSafely(staticInfo: StaticSlots, dynamicInfo: DynamicSlots, serialized: Option<string>): Option<string>
  {
    if !staticInfo.IsComplete() || !dynamicInfo.IsEssentialComplete() then None else serialized
  }

  /** The outcomes one pass of the worker loop meets. `serialized` is what json::GenerateSystemInfo
      returns if it is called. */
  datatype IterationInputs = IterationInputs(
    stopSignalled: bool,
    staticOutcome: StaticOutcome,
    dynamicOutcome: DynamicOutcome,
    serialized: Option<string>,
    cThrows: bool,
    cppThrows: bool)

  /** The state after one pass; whether the loop goes on; the document handed to InvokeCallbacks
      and the callbacks it called; and the Sleep duration read at the end of the pass. */
  datatype IterationResult = IterationResult(
    state: ContextState,
    continues: bool,
    delivered: Option<string>,
    called: seq<Callback>,
    sleepMs: int)

  /** The static step of a pass: collection happens only while isFirstRun. */
  function StaticStep(s: ContextState, outcome: StaticOutcome): (t: ContextState)
    ensures t == s.(staticInfo := t.staticInfo, isFirstRun := t.isFirstRun, lastError := t.lastError)
    ensures !s.isFirstRun ==> t == s
    ensures t.isFirstRun <==> s.isFirstRun && !outcome.StaticCollected?
    ensures !t.isFirstRun ==> t.staticInfo.IsComplete() || t.staticInfo == s.staticInfo
  {
    if !s.isFirstRun then s
    else
      var (slots, e) := CollectStatic(s.staticInfo, outcome);
      if e == Success then s.(staticInfo := slots, isFirstRun := false)
      else s.(staticInfo := slots, lastError := e)
  }

  /** What the pass does once both collections have run: serialize and deliver, or record why not.
      Returns the new state, the document handed to InvokeCallbacks and the callbacks it called. */
  function ReportStep(s: ContextState, dynamicResult: MonitoringError, inputs: IterationInputs)
    : (r: (ContextState, Option<string>, seq<Callback>))
    ensures r.0 == s.(lastError := r.0.lastError)
    ensures r.1.Some? <==> dynamicResult == Success && !s.isFirstRun && s.staticInfo.IsComplete()
                           && s.dynamicInfo.IsEssentialComplete() && inputs.serialized.Some?
    ensures r.1.Some? ==> r.1 == inputs.serialized
    ensures r.2 != [] ==> r.1.Some? && r.1.value != []
    ensures r.1.Some? && r.1.value != [] ==>
      r.2 == (if s.cCallback.Some? then [s.cCallback.value] else [])
             + (if s.cppCallback.Some? then [s.cppCallback.value] else [])
    ensures r.1 == Some([]) ==> r.0.lastError == InvalidParameter
    ensures dynamicResult != Success ==> r.0.lastError == dynamicResult
  {
    if dynamicResult == Success && !s.isFirstRun then
      var json := GenerateJsonSafely(s.staticInfo, s.dynamicInfo, inputs.serialized);
      if json.Some? then
        var invoked := InvokeCallbacks(s.cCallback, s.cppCallback, json.value, inputs.cThrows, inputs.cppThrows);
        (if invoked.error != Success then s.(lastError := invoked.error) else s, json, invoked.called)
      else (s.(lastError := JsonGenerationFailed), None, [])
    else if dynamicResult != Success then (s.(lastError := dynamicResult), None, [])
    else (s, None, [])
  }

  /** One pass of the `while (isRunning)` loop of monitoring_thread. */
  function WorkerIteration(s: ContextState, inputs: IterationInputs): (r: IterationResult)
    ensures r.continues <==> s.isRunning && !inputs.stopSignalled
    ensures !r.continues ==> r == IterationResult(s, false, None, [], 0)
    ensures r.continues ==> r.state == s.(staticInfo := r.state.staticInfo, isFirstRun := r.state.isFirstRun,
                                          lastError := r.state.lastError, cycleCount := s.cycleCount + 1,
                                          dynamicInfo := NoDynamicSlots)
    ensures r.continues ==> r.sleepMs == s.updateInterval
    ensures r.delivered.None? ==> r.called == []
  {
    if !s.isRunning || inputs.stopSignalled then IterationResult(s, false, None, [], 0)
    else
      var s1 := StaticStep(s, inputs.staticOutcome);
      var (dynamicSlots, dynamicResult) := CollectDynamic(s1.dynamicInfo, inputs.dynamicOutcome);
      var (s3, delivered, called) := ReportStep(s1.(dynamicInfo := dynamicSlots), dynamicResult, inputs);
      var s4 := IncrementCycle(s3.(dynamicInfo := NoDynamicSlots));
      IterationResult(s4, true, delivered, called, s4.updateInterval)
  }

  /** The worker loop driven by a schedule of pass outcomes, stopping when the loop exits or the schedule ends. */
  datatype RunResult = RunResult(state: ContextState, deliveries: seq<string>, exited: bool)

  function Run(s: ContextState, schedule: seq<IterationInputs>): RunResult
    decreases |schedule|
  {
    if schedule == [] then RunResult(s, [], false)
    else
      var r := WorkerIteration(s, schedule[0]);
      if !r.continues then RunResult(r.state, [], true)
      else AfterDeliveries(Emitted(r), Run(r.state, schedule[1..]))
  }

  /** The document a pass delivered, as zero or one documents. */
  function Emitted(r: IterationResult): seq<string>
  {
    if r.delivered.Some? then [r.delivered.value] else []
  }

  /** The run `rest` preceded by the deliveries `prefix`. */
  function AfterDeliveries(prefix: seq<string>, rest: RunResult): RunResult
  {
    RunResult(rest.state, prefix + rest.deliveries, rest.exited)
  }

  /** The first `n` scheduled passes of a run (fewer if the loop exits earlier). */
  function RunPrefix(s: ContextState, schedule: seq<IterationInputs>, n: nat): RunResult
    requires n <= |schedule|
    decreases n
  {
    if n == 0 then RunResult(s, [], false)
    else
      var p := RunPrefix(s, schedule, n - 1);
      if p.exited then p
      else
        var r := WorkerIteration(p.state, schedule[n - 1]);
        if !r.continues then RunResult(r.state, p.deliveries, true)
        else RunResult(r.state, p.deliveries + Emitted(r), false)
  }

  /** A run is its first `n` passes followed by the run of the remaining schedule, unless it already exited. */
  lemma {:induction false} RunSplit(s: ContextState, schedule: seq<IterationInputs>, n: nat)
    requires n <= |schedule|
    ensures var p := RunPrefix(s, schedule, n);
      && (p.exited ==> Run(s, schedule) == p)
      && (!p.exited ==> Run(s, schedule) == AfterDeliveries(p.deliveries, Run(p.state, schedule[n..])))
    decreases n
  {
    if n == 0 {
      assert schedule[0..] == schedule;
    } else {
      RunSplit(s, schedule, n - 1);
      var p := RunPrefix(s, schedule, n - 1);
      if !p.exited {
        var rest := schedule[n - 1..];
        assert rest[0] == schedule[n - 1] && rest[1..] == schedule[n..];
        var r := WorkerIteration(p.state, schedule[n - 1]);
        if r.continues {
          assert p.deliveries + (Emitted(r) + Run(r.state, schedule[n..]).deliveries)
              == (p.deliveries + Emitted(r)) + Run(r.state, schedule[n..]).deliveries;
        } else {
          assert p.deliveries + [] == p.deliveries;
        }
      }
    }
  }

  /** One more pass of a prefix that has not exited. */
  lemma RunPrefixStep(s: ContextState, schedule: seq<IterationInputs>, n: nat, p: RunResult, r: IterationResult)
    requires n < |schedule| && p == RunPrefix(s, schedule, n) && !p.exited
    requires r == WorkerIteration(p.state, schedule[n])
    ensures RunPrefix(s, schedule, n + 1)
         == if r.continues then RunResult(r.state, p.deliveries + Emitted(r), false) else RunResult(r.state, p.deliveries, true)
  {
  }

  /** Running every scheduled pass one after the other is the run. */
  lemma RunPrefixComplete(s: ContextState, schedule: seq<IterationInputs>)
    ensures RunPrefix(s, schedule, |schedule|) == Run(s, schedule)
  {
    RunSplit(s, schedule, |schedule|);
    var p := RunPrefix(s, schedule, |schedule|);
    if !p.exited {
      assert schedule[|schedule|..] == [];
      assert p.deliveries + [] == p.deliveries;
    }
  }

  /** Once the loop has exited, the rest of the schedule plays no part. */
  lemma RunPrefixExited(s: ContextState, schedule: seq<IterationInputs>, n: nat)
    requires n <= |schedule| && RunPrefix(s, schedule, n).exited
    ensures Run(s, schedule) == RunPrefix(s, schedule, n)
  {
    RunSplit(s, schedule, n);
  }

  // ================================================================ properties

  /** An interval is accepted exactly in [100, 3600000]; a rejected one leaves the interval as it was
      and records InvalidParameter (not InvalidInterval). */
  lemma SetUpdateIntervalContract(s: ContextState, ms: Int32)
    ensures var (t, e) := SetUpdateInterval(s, ms);
      && (e == Success <==> 100 <= ms <= 3600000)
      && (e == Success ==> t == s.(updateInterval := ms))
      && (e != Success ==> e == InvalidParameter && t.updateInterval == s.updateInterval && t == s.(lastError := InvalidParameter))
  {
  }

  /** start_monitoring on a running controller only records AlreadyRunning. */
  lemma StartWhileRunning(s: ContextState, ms: Int32, eventCreated: bool, threadSpawned: bool)
    requires s.isRunning
    ensures StartMonitoring(s, ms, eventCreated, threadSpawned) == (s.(lastError := AlreadyRunning), false)
  {
  }

  /** From idle, start succeeds exactly when the interval is valid and the event and thread are created;
      a success leaves a fresh session, a failure leaves the controller idle with the reason recorded. */
  lemma StartFromIdle(s: ContextState, ms: Int32, eventCreated: bool, threadSpawned: bool)
    requires !s.isRunning
    ensures var (t, ok) := StartMonitoring(s, ms, eventCreated, threadSpawned);
      && (ok <==> IsValidInterval(ms) && eventCreated && threadSpawned)
      && (ok ==> t.isRunning && t.isFirstRun && !t.shouldStop && t.cycleCount == 0 && t.lastError == Success
                 && t.staticInfo == NoStaticSlots && t.dynamicInfo == NoDynamicSlots && t.updateInterval == ms
                 && t.monitorThread && t.stopEvent && t.cCallback == s.cCallback && t.cppCallback == s.cppCallback)
      && (!ok ==> !t.isRunning)
      && (!IsValidInterval(ms) ==> !ok && t == s.(lastError := InvalidParameter))
      && (IsValidInterval(ms) && !eventCreated ==> t.lastError == SystemResourceError && t.updateInterval == ms)
      && (IsValidInterval(ms) && eventCreated && !threadSpawned ==>
            t.lastError == ThreadCreationFailed && !t.stopEvent && t.cycleCount == 0 && t.staticInfo == NoStaticSlots)
  {
  }

  /** stop_monitoring on an idle controller changes nothing. */
  lemma StopWhenIdle(s: ContextState, wait: WaitResult)
    requires !s.isRunning
    ensures StopMonitoring(s, wait) == s
  {
  }

  /** stop_monitoring on a running controller always ends idle and reset, whatever the wait reported:
      the ThreadTerminationFailed recorded on a timeout is overwritten by Reset. */
  lemma StopWhenRunning(s: ContextState, wait: WaitResult)
    requires s.isRunning
    ensures var t := StopMonitoring(s, wait);
      && !t.isRunning && t.cCallback.None? && t.cppCallback.None? && t.cycleCount == 0
      && t.staticInfo == NoStaticSlots && t.dynamicInfo == NoDynamicSlots && t.lastError == Success
      && t.isFirstRun && !t.shouldStop && !t.monitorThread && !t.stopEvent && t.updateInterval == s.updateInterval
  {
  }

  /** Stopping twice is stopping once. */
  lemma StopIdempotent(s: ContextState, first: WaitResult, second: WaitResult)
    ensures StopMonitoring(StopMonitoring(s, first), second) == StopMonitoring(s, first)
  {
  }

  /** The outcome of a stop does not depend on what the wait reported. */
  lemma StopIgnoresWaitResult(s: ContextState, a: WaitResult, b: WaitResult)
    ensures StopMonitoring(s, a) == StopMonitoring(s, b)
  {
  }

  /** InvokeCallbacks: an empty document calls nothing; otherwise every registered callback is called,
      C first, and the result is CallbackExecutionFailed exactly when one of them threw. */
  lemma InvokeCallbacksContract(c: Option<Callback>, cpp: Option<Callback>, document: string, cThrows: bool, cppThrows: bool)
    ensures var r := InvokeCallbacks(c, cpp, document, cThrows, cppThrows);
      && (document == [] ==> r.error == InvalidParameter && r.called == [])
      && (document != [] ==>
            && (forall cb :: cb in r.called <==> (Some(cb) == c || Some(cb) == cpp))
            && |r.called| == (if c.Some? then 1 else 0) + (if cpp.Some? then 1 else 0)
            && (c.Some? ==> r.called[0] == c.value)
            && (r.error == CallbackExecutionFailed <==> (c.Some? && cThrows) || (cpp.Some? && cppThrows))
            && (r.error != CallbackExecutionFailed ==> r.error == Success))
  {
  }

  /** A callback installed through either entry point clears only CallbackFailed, a code the worker
      never records; clearing a callback never touches the error. */
  lemma SetCallbackClearsOnlyCallbackFailed(s: ContextState, cb: Option<Callback>)
    ensures SetCCallback(s, cb).cCallback == cb && SetCppCallback(s, cb).cppCallback == cb
    ensures SetCCallback(s, cb).lastError == SetCppCallback(s, cb).lastError
    ensures SetCCallback(s, cb).lastError != s.lastError <==> cb.Some? && s.lastError == CallbackFailed
    ensures s.lastError == CallbackExecutionFailed ==> SetCCallback(s, cb).lastError == CallbackExecutionFailed
  {
  }

  /** nysys::StartMonitoring changes the interval before start_monitoring's already-running test,
      so on a running controller a valid interval is stored and the call throws AlreadyRunning. */
  lemma CppStartWhileRunningChangesInterval(s: ContextState, ms: Int32, eventCreated: bool, threadSpawned: bool)
    requires s.isRunning && IsValidInterval(ms)
    ensures var (t, r) := CppStartMonitoring(s, ms, eventCreated, threadSpawned);
      && t.updateInterval == ms && t.isRunning && t.cycleCount == s.cycleCount && t.staticInfo == s.staticInfo
      && r.Err? && r.error.GetErrorCode() == AlreadyRunning
  {
    var s1 := s.(updateInterval := ms);
    assert SetUpdateInterval(s, ms) == (s1, Success);
    StartWhileRunning(s1, ms, eventCreated, threadSpawned);
  }

  /** nysys::StartMonitoring never returns false: every failure of start_monitoring leaves a non-Success
      code, which it throws. */
  lemma CppStartNeverReturnsFalse(s: ContextState, ms: Int32, eventCreated: bool, threadSpawned: bool)
    ensures var (t, r) := CppStartMonitoring(s, ms, eventCreated, threadSpawned);
      && (r.Ok? ==> r.value && t.isRunning)
      && (r.Err? ==> r.error.GetErrorCode() != Success && r.error.GetErrorCode() == t.lastError)
  {
    var (s1, e) := SetUpdateInterval(s, ms);
    if e == Success {
      var (s2, started) := StartMonitoring(s1, ms, eventCreated, threadSpawned);
      assert started ==> s2.isRunning;
    }
  }

  // ---------------------------------------------------------------- worker properties

  /** A raised stop event, or a cleared running flag, ends the loop before any collection. */
  lemma IterationExitsOnStop(s: ContextState, inputs: IterationInputs)
    requires inputs.stopSignalled || !s.isRunning
    ensures WorkerIteration(s, inputs) == IterationResult(s, false, None, [], 0)
  {
  }

  /** isFirstRun is cleared exactly by a successful static collection and is never set again by a pass;
      static collection touches the static snapshot only while isFirstRun holds. */
  lemma IterationFirstRun(s: ContextState, inputs: IterationInputs)
    requires s.isRunning && !inputs.stopSignalled
    ensures var t := WorkerIteration(s, inputs).state;
      && (t.isFirstRun <==> s.isFirstRun && !inputs.staticOutcome.StaticCollected?)
      && (!s.isFirstRun ==> t.staticInfo == s.staticInfo)
  {
  }

  /** A completed pass counts one cycle, discards the dynamic snapshot, keeps running, and sleeps for
      the interval in force at its end. */
  lemma IterationCountsCycle(s: ContextState, inputs: IterationInputs)
    requires s.isRunning && !inputs.stopSignalled
    ensures var r := WorkerIteration(s, inputs);
      && r.continues && r.state.isRunning
      && r.state.cycleCount == s.cycleCount + 1
      && r.state.dynamicInfo == NoDynamicSlots
      && r.sleepMs == s.updateInterval == r.state.updateInterval
      && r.state.cCallback == s.cCallback && r.state.cppCallback == s.cppCallback
  {
  }

  /** On a reachable state, a pass delivers a document exactly when dynamic collection succeeded, the
      static snapshot is established after the static step (already before, or by this very pass),
      and the serializer produced a document; what is delivered is that document. */
  lemma {:induction false} IterationEmission(s: ContextState, inputs: IterationInputs)
    requires Inv(s) && s.isRunning && !inputs.stopSignalled
    ensures var r := WorkerIteration(s, inputs);
      && (r.delivered.Some? <==>
            && inputs.dynamicOutcome.DynamicCollected?
            && (!s.isFirstRun || inputs.staticOutcome.StaticCollected?)
            && inputs.serialized.Some?)
      && (r.delivered.Some? ==> r.delivered == inputs.serialized)
      && (r.delivered.None? ==> r.called == [])
  {
    var s1 := StaticStep(s, inputs.staticOutcome);
    assert !s1.isFirstRun ==> s1.staticInfo.IsComplete();
    if inputs.dynamicOutcome.DynamicCollected? {
      assert CollectDynamic(s1.dynamicInfo, inputs.dynamicOutcome).0.IsEssentialComplete();
    }
  }

  /** The code a pass leaves: dynamic failure records DataCollectionFailed, a missing document
      JsonGenerationFailed, a throwing callback CallbackExecutionFailed; when static collection failed
      but dynamic collection succeeded, the pass adds nothing to the static failure. */
  lemma {:induction false} IterationErrors(s: ContextState, inputs: IterationInputs)
    requires Inv(s) && s.isRunning && !inputs.stopSignalled
    ensures var r := WorkerIteration(s, inputs);
      var staticFailed := s.isFirstRun && !inputs.staticOutcome.StaticCollected?;
      var emitted := inputs.dynamicOutcome.DynamicCollected? && !staticFailed;
      && (!inputs.dynamicOutcome.DynamicCollected? ==> r.state.lastError == DataCollectionFailed)
      && (staticFailed && inputs.dynamicOutcome.DynamicCollected? ==> r.state.lastError == DataCollectionFailed && r.delivered.None?)
      && (emitted && inputs.serialized.None? ==> r.state.lastError == JsonGenerationFailed)
      && (emitted && inputs.serialized.Some? ==>
            r.state.lastError == (if inputs.serialized.value == [] then InvalidParameter
                                  else if (s.cCallback.Some? && inputs.cThrows) || (s.cppCallback.Some? && inputs.cppThrows)
                                  then CallbackExecutionFailed
                                  else s.lastError))
  {
    IterationEmission(s, inputs);
    var s1 := StaticStep(s, inputs.staticOutcome);
    assert !s1.isFirstRun ==> s1.staticInfo.IsComplete();
  }

  /** The process starts in the invariant, and start_monitoring keeps it. */
  lemma InvariantPreservedByStart(s: ContextState, ms: Int32, ev: bool, sp: bool)
    requires Inv(s)
    ensures Inv(InitialState)
    ensures Inv(StartMonitoring(s, ms, ev, sp).0)
  {
  }

  /** nysys::StartMonitoring keeps the invariant. */
  lemma InvariantPreservedByCppStart(s: ContextState, ms: Int32, ev: bool, sp: bool)
    requires Inv(s)
    ensures Inv(CppStartMonitoring(s, ms, ev, sp).0)
  {
    var (s1, e) := SetUpdateInterval(s, ms);
    InvariantPreservedByStart(s1, ms, ev, sp);
  }

  /** Stopping and opening a session keep the invariant. */
  lemma InvariantPreservedByStop(s: ContextState, w: WaitResult)
    requires Inv(s)
    ensures Inv(StopMonitoring(s, w))
    ensures Inv(InitializeSession(s))
  {
  }

  /** Changing the interval or a callback keeps the invariant. */
  lemma InvariantPreservedBySettings(s: ContextState, ms: Int32, cb: Option<Callback>)
    requires Inv(s)
    ensures Inv(SetUpdateIntervalCommand(s, ms)) && Inv(CppSetUpdateInterval(s, ms).0)
    ensures Inv(SetCCallback(s, cb)) && Inv(SetCppCallback(s, cb))
  {
  }

  /** Every pass of the worker keeps the invariant. */
  lemma InvariantPreservedByIteration(s: ContextState, inputs: IterationInputs)
    requires Inv(s)
    ensures Inv(WorkerIteration(s, inputs).state)
  {
    if s.isRunning && !inputs.stopSignalled && s.isFirstRun && inputs.staticOutcome.StaticCollected? {
      assert StaticStep(s, inputs.staticOutcome).staticInfo == AllStaticSlots;
    }
  }

  // ---------------------------------------------------------------- whole runs

  /** A run without stop requests completes one cycle per scheduled pass and keeps running. */
  lemma {:induction false} RunCountsCycles(s: ContextState, schedule: seq<IterationInputs>)
    requires s.isRunning
    requires forall k :: 0 <= k < |schedule| ==> !schedule[k].stopSignalled
    ensures var r := Run(s, schedule);
      !r.exited && r.state.isRunning && r.state.cycleCount == s.cycleCount + |schedule|
    decreases |schedule|
  {
    if schedule != [] {
      IterationCountsCycle(s, schedule[0]);
      RunCountsCycles(WorkerIteration(s, schedule[0]).state, schedule[1..]);
    }
  }

  /** Once the static snapshot is established, no pass of the same session re-establishes isFirstRun. */
  lemma {:induction false} RunFirstRunStaysCleared(s: ContextState, schedule: seq<IterationInputs>)
    requires !s.isFirstRun
    ensures !Run(s, schedule).state.isFirstRun
    decreases |schedule|
  {
    if schedule != [] {
      var r := WorkerIteration(s, schedule[0]);
      if r.continues {
        RunFirstRunStaysCleared(r.state, schedule[1..]);
      }
    }
  }

  /** If dynamic collection fails on every pass, no document is ever delivered, the controller keeps
      running, and after at least one pass the recorded code is DataCollectionFailed. */
  lemma {:induction false} RunDynamicAlwaysFailing(s: ContextState, schedule: seq<IterationInputs>)
    requires s.isRunning
    requires forall k :: 0 <= k < |schedule| ==> !schedule[k].stopSignalled && !schedule[k].dynamicOutcome.DynamicCollected?
    ensures var r := Run(s, schedule);
      && r.deliveries == [] && r.state.isRunning
      && (|schedule| > 0 ==> r.state.lastError == DataCollectionFailed)
    decreases |schedule|
  {
    if schedule != [] {
      var r := WorkerIteration(s, schedule[0]);
      if |schedule| > 1 {
        RunDynamicAlwaysFailing(r.state, schedule[1..]);
      }
    }
  }

  /** Documents are delivered only once the static snapshot has been established: a run whose static
      collection never succeeds, starting before the first success, delivers nothing. */
  lemma {:induction false} RunNoDeliveryBeforeStatic(s: ContextState, schedule: seq<IterationInputs>)
    requires s.isFirstRun
    requires forall k :: 0 <= k < |schedule| ==> !schedule[k].staticOutcome.StaticCollected?
    ensures Run(s, schedule).deliveries == [] && Run(s, schedule).state.isFirstRun
    decreases |schedule|
  {
    if schedule != [] {
      var r := WorkerIteration(s, schedule[0]);
      if r.continues {
        RunNoDeliveryBeforeStatic(r.state, schedule[1..]);
      }
    }
  }

  /** A pass that meets only successes on a freshly started controller already delivers: the cycle
      that first establishes the static snapshot emits, because isFirstRun is cleared before the test. */
  lemma FirstCycleEmits(s0: ContextState, ms: Int32, document: string)
    requires !s0.isRunning && IsValidInterval(ms) && document != []
    ensures var s := InitializeSession(StartMonitoring(s0, ms, true, true).0);
      var r := WorkerIteration(s, IterationInputs(false, StaticCollected, DynamicCollected(true), Some(document), false, false));
      r.delivered == Some(document) && r.state.cycleCount == 1 && r.state.lastError == Success
  {
  }

  /** A consumer that throws on every call degrades delivery but never stops the worker: after any
      number of successful passes the controller is running and the code is CallbackExecutionFailed. */
  lemma {:induction false} RunCallbackAlwaysThrowing(s: ContextState, schedule: seq<IterationInputs>)
    requires Inv(s) && s.isRunning && s.cCallback.Some?
    requires forall k :: 0 <= k < |schedule| ==>
      && schedule[k].stopSignalled == false
      && schedule[k].staticOutcome.StaticCollected?
      && schedule[k].dynamicOutcome.DynamicCollected?
      && schedule[k].serialized.Some? && schedule[k].serialized.value != []
      && schedule[k].cThrows
    ensures var r := Run(s, schedule);
      && r.state.isRunning && Inv(r.state) && r.state.cCallback == s.cCallback
      && |r.deliveries| == |schedule|
      && (|schedule| > 0 ==> r.state.lastError == CallbackExecutionFailed)
    decreases |schedule|
  {
    if schedule != [] {
      var r := WorkerIteration(s, schedule[0]);
      IterationEmission(s, schedule[0]);
      IterationErrors(s, schedule[0]);
      InvariantPreservedByIteration(s, schedule[0]);
      RunCallbackAlwaysThrowing(r.state, schedule[1..]);
    }
  }
}
