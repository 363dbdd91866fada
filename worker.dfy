/**
 * The worker of src/nysys.cpp: CollectStaticInfo, CollectDynamicInfo, GenerateJsonSafely and
 * monitoring_thread, acting on a MonitorContext. The outcomes of the collectors, the stop event,
 * the serializer and the callbacks come from a schedule; Sleep is reported, not performed.
 */
module Worker {

  import opened Wrappers
  import opened MonitoringErrors
  import opened Snapshots
  import opened Lifecycle
  import opened Context

  /** Calls the static collectors in order, stopping at the first that returns null; a throw empties the container. */
  method CollectStaticInfo(info: StaticInfo, outcome: StaticOutcome) returns (result: MonitoringError)
    modifies info
    ensures (info.Slots(), result) == CollectStatic(old(info.Slots()), outcome)
  {
    if outcome.StaticThrew? {
      info.Reset();
      return DataCollectionFailed;
    }
    info.Store(CpuSlot, outcome != StaticNullAt(CpuSlot));
    if !info.cpuList {
      return DataCollectionFailed;
    }
    info.Store(GpuSlot, outcome != StaticNullAt(GpuSlot));
    if !info.gpuList {
      return DataCollectionFailed;
    }
    info.Store(MotherboardSlot, outcome != StaticNullAt(MotherboardSlot));
    if !info.mbInfo {
      return DataCollectionFailed;
    }
    info.Store(AudioSlot, outcome != StaticNullAt(AudioSlot));
    if !info.audioList {
      return DataCollectionFailed;
    }
    info.Store(MonitorSlot, outcome != StaticNullAt(MonitorSlot));
    if !info.monitorList {
      return DataCollectionFailed;
    }
    return Success;
  }

  /** Calls memory, storage and network collectors, checking each, then stores the battery result unchecked. */
  method CollectDynamicInfo(info: DynamicInfo, outcome: DynamicOutcome) returns (result: MonitoringError)
    modifies info
    ensures (info.Slots(), result) == CollectDynamic(old(info.Slots()), outcome)
  {
    if outcome.DynamicThrew? {
      info.Reset();
      return DataCollectionFailed;
    }
    info.memInfo := outcome != DynamicNullAt(MemorySlot);
    if !info.memInfo {
      return DataCollectionFailed;
    }
    info.storageList := outcome != DynamicNullAt(StorageSlot);
    if !info.storageList {
      return DataCollectionFailed;
    }
    info.networkList := outcome != DynamicNullAt(NetworkSlot);
    if !info.networkList {
      return DataCollectionFailed;
    }
    assert outcome.DynamicCollected? by {
      if outcome.DynamicNullAt? {
        match outcome.slot
        case MemorySlot =>
        case StorageSlot =>
        case NetworkSlot =>
      }
    }
    info.batteryInfo := outcome.batteryPresent;
    return Success;
  }

  /** Serializes only when the static snapshot is complete and the essential dynamic slots are present. */
  method GenerateJsonSafely(staticInfo: StaticInfo, dynamicInfo: DynamicInfo, serialized: Option<string>)
    returns (json: Option<string>)
    ensures json == Lifecycle.GenerateJsonSafely(staticInfo.Slots(), dynamicInfo.Slots(), serialized)
    ensures json.Some? ==> staticInfo.IsComplete() && dynamicInfo.IsEssentialComplete() && json == serialized
  {
    if !staticInfo.IsComplete() || !dynamicInfo.IsEssentialComplete() {
      return None;
    }
    return serialized;
  }

  /** The report stage of a pass, run after both collections: serialize, deliver, or record why not. */
  method Report(ctx: MonitorContext, dynamicResult: MonitoringError, inputs: IterationInputs)
    returns (delivered: Option<string>, called: seq<Callback>)
    modifies ctx
    ensures (ctx.State(), delivered, called) == ReportStep(old(ctx.State()), dynamicResult, inputs)
  {
    delivered, called := None, [];
    if dynamicResult == Success && !ctx.isFirstRun {
      var jsonOutput := GenerateJsonSafely(ctx.staticInfo, ctx.dynamicInfo, inputs.serialized);
      if jsonOutput.Some? {
        var callbackResult, invoked := ctx.InvokeCallbacks(jsonOutput.value, inputs.cThrows, inputs.cppThrows);
        delivered, called := jsonOutput, invoked;
        if callbackResult != Success {
          ctx.SetLastError(callbackResult);
        }
      } else {
        ctx.SetLastError(JsonGenerationFailed);
      }
    } else if dynamicResult != Success {
      ctx.SetLastError(dynamicResult);
    }
  }

  /** The static block of a pass: collect the static snapshot while isFirstRun, and record a failure. */
  method StaticPhase(ctx: MonitorContext, outcome: StaticOutcome)
    modifies ctx, ctx.staticInfo
    ensures ctx.State() == StaticStep(old(ctx.State()), outcome)
  {
    if ctx.isFirstRun {
      var staticResult := CollectStaticInfo(ctx.staticInfo, outcome);
      if staticResult == Success {
        ctx.isFirstRun := false;
      } else {
        ctx.SetLastError(staticResult);
      }
    }
  }

  /** One pass of the `while (isRunning)` loop of monitoring_thread. */
  method MonitoringIteration(ctx: MonitorContext, inputs: IterationInputs)
    returns (continues: bool, delivered: Option<string>, called: seq<Callback>, sleepMs: int)
    modifies ctx, ctx.staticInfo, ctx.dynamicInfo
    ensures IterationResult(ctx.State(), continues, delivered, called, sleepMs) == WorkerIteration(old(ctx.State()), inputs)
  {
    if !ctx.isRunning || inputs.stopSignalled {
      return false, None, [], 0;
    }
    StaticPhase(ctx, inputs.staticOutcome);
    ghost var s1 := ctx.State();
    var dynamicResult := CollectDynamicInfo(ctx.dynamicInfo, inputs.dynamicOutcome);
    ghost var s2 := ctx.State();
    assert s2 == s1.(dynamicInfo := CollectDynamic(s1.dynamicInfo, inputs.dynamicOutcome).0);
    delivered, called := Report(ctx, dynamicResult, inputs);
    ctx.dynamicInfo.Reset();
    ctx.IncrementCycle();
    sleepMs := ctx.updateInterval;
    continues := true;
  }

  /**
   * monitoring_thread: opens a session, then runs passes until the loop exits or the schedule
   * ends. Returns the documents handed to the callbacks, in order, and whether the loop exited.
   */
  method MonitoringThread(ctx: MonitorContext, schedule: seq<IterationInputs>) returns (deliveries: seq<string>, exited: bool)
    modifies ctx, ctx.staticInfo, ctx.dynamicInfo
    ensures RunResult(ctx.State(), deliveries, exited) == Run(InitializeSession(old(ctx.State())), schedule)
  {
    ctx.InitializeSession();
    ghost var start := ctx.State();
    deliveries, exited := [], false;
    var i := 0;
    while i < |schedule|
      invariant 0 <= i <= |schedule|
      invariant RunPrefix(start, schedule, i) == RunResult(ctx.State(), deliveries, false)
      decreases |schedule| - i
    {
      ghost var before := ctx.State();
      var continues, delivered, called, sleepMs := MonitoringIteration(ctx, schedule[i]);
      RunPrefixStep(start, schedule, i, RunResult(before, deliveries, false),
                    IterationResult(ctx.State(), continues, delivered, called, sleepMs));
      if !continues {
        exited := true;
        RunPrefixExited(start, schedule, i + 1);
        return;
      }
      if delivered.Some? {
        deliveries := deliveries + [delivered.value];
      }
      i := i + 1;
    }
    RunPrefixComplete(start, schedule);
  }

  /** A worker started on a reachable idle-then-started state keeps the invariant over any run. */
  lemma {:induction false} RunKeepsInvariant(s: ContextState, schedule: seq<IterationInputs>)
    requires Inv(s)
    ensures Inv(Run(s, schedule).state)
    decreases |schedule|
  {
    if schedule != [] {
      InvariantPreservedByIteration(s, schedule[0]);
      var r := WorkerIteration(s, schedule[0]);
      if r.continues {
        RunKeepsInvariant(r.state, schedule[1..]);
      }
    }
  }
}
