/**
 * The C entry points of src/nysys.cpp (start_monitoring, stop_monitoring, set_update_interval,
 * set_callback, is_monitoring) acting on the controller g_MonitorContext, passed as `ctx`.
 * The operating-system calls are inputs: whether CreateEvent and _beginthreadex produced a
 * handle, and what WaitForSingleObject reported on the worker.
 */
module CApi {

  import opened Wrappers
  import opened Text
  import opened MonitoringErrors
  import Lifecycle
  import opened Context

  /** start_monitoring; returns TRUE only when a worker was spawned. */
  method StartMonitoring(ctx: MonitorContext, updateIntervalMs: Int32, eventCreated: bool, threadSpawned: bool)
    returns (started: bool)
    modifies ctx, ctx.staticInfo, ctx.dynamicInfo
    ensures (ctx.State(), started) == Lifecycle.StartMonitoring(old(ctx.State()), updateIntervalMs, eventCreated, threadSpawned)
  {
    if ctx.isRunning {
      ctx.SetLastError(AlreadyRunning);
      return false;
    }
    var intervalResult := ctx.SetUpdateInterval(updateIntervalMs);
    if intervalResult != Success {
      ctx.SetLastError(intervalResult);
      return false;
    }
    ctx.isFirstRun := true;
    if !eventCreated {
      ctx.SetLastError(SystemResourceError);
      return false;
    }
    ctx.ResetStopEvent(true);
    ctx.Reset();
    if !threadSpawned {
      ctx.ResetStopEvent(false);
      ctx.SetLastError(ThreadCreationFailed);
      return false;
    }
    ctx.ResetMonitorThread(true);
    ctx.isRunning := true;
    return true;
  }

  /** stop_monitoring; `wait` is what WaitForSingleObject on the worker reports within MAX_THREAD_WAIT_MS. */
  method StopMonitoring(ctx: MonitorContext, wait: Lifecycle.WaitResult)
    modifies ctx, ctx.staticInfo, ctx.dynamicInfo
    ensures ctx.State() == Lifecycle.StopMonitoring(old(ctx.State()), wait)
  {
    if !ctx.isRunning {
      return;
    }
    ctx.RequestStop();
    if ctx.monitorThread {
      if wait == Lifecycle.WaitTimedOut {
        ctx.SetLastError(ThreadTerminationFailed);
      } else if wait == Lifecycle.WaitFailed {
        ctx.SetLastError(SystemResourceError);
      }
    }
    ctx.isRunning := false;
    ctx.Reset();
    ctx.ResetMonitorThread(false);
    ctx.ResetStopEvent(false);
    ctx.ClearCallbacks();
  }

  /** set_update_interval: an invalid interval is only recorded in the last error. */
  method SetUpdateInterval(ctx: MonitorContext, updateIntervalMs: Int32)
    modifies ctx
    ensures ctx.State() == Lifecycle.SetUpdateIntervalCommand(old(ctx.State()), updateIntervalMs)
  {
    var result := ctx.SetUpdateInterval(updateIntervalMs);
    if result != Success {
      ctx.SetLastError(result);
    }
  }

  /** set_callback: installs (or, with None, removes) the C callback. */
  method SetCallback(ctx: MonitorContext, callback: Option<Lifecycle.Callback>)
    modifies ctx
    ensures ctx.State() == Lifecycle.SetCCallback(old(ctx.State()), callback)
  {
    ctx.cCallback := callback;
    if callback.Some? {
      var lastError := ctx.GetLastError();
      if lastError == CallbackFailed {
        ctx.SetLastError(Success);
      }
    }
  }

  /** is_monitoring. */
  method IsMonitoring(ctx: MonitorContext) returns (running: bool)
    ensures running == ctx.State().isRunning
  {
    return ctx.isRunning;
  }
}
