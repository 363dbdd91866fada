/**
 * The nysys:: C++ entry points of src/nysys.cpp. A thrown MonitoringException is returned as
 * Err (or Some); everything else is delegated to the C entry points as the source does.
 */
module CppApi {

  import opened Wrappers
  import opened Text
  import opened MonitoringErrors
  import Lifecycle
  import opened Context
  import CApi

  /** nysys::StartMonitoring: validates the interval (throwing on failure), then calls start_monitoring and
      throws the recorded error if it refused. */
  method StartMonitoring(ctx: MonitorContext, updateIntervalMs: Int32, eventCreated: bool, threadSpawned: bool)
    returns (result: Result<bool, MonitoringException>)
    modifies ctx, ctx.staticInfo, ctx.dynamicInfo
    ensures (ctx.State(), result) == Lifecycle.CppStartMonitoring(old(ctx.State()), updateIntervalMs, eventCreated, threadSpawned)
  {
    var intervalResult := ctx.SetUpdateInterval(updateIntervalMs);
    if intervalResult != Success {
      return Err(NewExceptionWithDetails(intervalResult, "Invalid update interval: " + IntToString(updateIntervalMs) + "ms"));
    }
    var started := CApi.StartMonitoring(ctx, updateIntervalMs, eventCreated, threadSpawned);
    if !started {
      var lastError := ctx.GetLastError();
      if lastError != Success {
        return Err(NewExceptionWithDetails(lastError, "Failed to start monitoring"));
      }
    }
    return Ok(started);
  }

  /** nysys::StopMonitoring. */
  method StopMonitoring(ctx: MonitorContext, wait: Lifecycle.WaitResult)
    modifies ctx, ctx.staticInfo, ctx.dynamicInfo
    ensures ctx.State() == Lifecycle.StopMonitoring(old(ctx.State()), wait)
  {
    CApi.StopMonitoring(ctx, wait);
  }

  /** nysys::SetUpdateInterval: returns the exception it throws on an invalid interval. */
  method SetUpdateInterval(ctx: MonitorContext, updateIntervalMs: Int32) returns (thrown: Option<MonitoringException>)
    modifies ctx
    ensures (ctx.State(), thrown) == Lifecycle.CppSetUpdateInterval(old(ctx.State()), updateIntervalMs)
  {
    var result := ctx.SetUpdateInterval(updateIntervalMs);
    if result != Success {
      return Some(NewExceptionWithDetails(result, "Invalid update interval: " + IntToString(updateIntervalMs) + "ms"));
    }
    CApi.SetUpdateInterval(ctx, updateIntervalMs);
    return None;
  }

  /** nysys::SetCallback: installs (or removes) the C++ callback. */
  method SetCallback(ctx: MonitorContext, callback: Option<Lifecycle.Callback>)
    modifies ctx
    ensures ctx.State() == Lifecycle.SetCppCallback(old(ctx.State()), callback)
  {
    ctx.cppCallback := callback;
    if callback.Some? {
      var lastError := ctx.GetLastError();
      if lastError == CallbackFailed {
        ctx.SetLastError(Success);
      }
    }
  }

  /** nysys::IsMonitoring. */
  method IsMonitoring(ctx: MonitorContext) returns (running: bool)
    ensures running == ctx.State().isRunning
  {
    running := CApi.IsMonitoring(ctx);
  }

  /** nysys::GetLastError. */
  method GetLastError(ctx: MonitorContext) returns (error: MonitoringError)
    ensures error == ctx.State().lastError
  {
    error := ctx.GetLastError();
  }
}
