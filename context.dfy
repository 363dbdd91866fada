/**
 * MonitorContext from src/nysys.cpp: the controller object whose fields the entry points and
 * the worker update in place. Every method is proved to move State() exactly as the matching
 * function of module Lifecycle does; the mutexes are not modelled (see README).
 */
module Context {

  import opened Wrappers
  import opened Text
  import opened MonitoringErrors
  import opened Snapshots
  import Lifecycle

  class MonitorContext {
    var isRunning: bool
    var updateInterval: Int32
    var isFirstRun: bool
    var shouldStop: bool
    var cycleCount: nat
    var lastError: MonitoringError
    /** Whether monitorThread and stopEvent hold a handle. */
    var monitorThread: bool
    var stopEvent: bool
    var cCallback: Option<Lifecycle.Callback>
    var cppCallback: Option<Lifecycle.Callback>
    const staticInfo: StaticInfo
    const dynamicInfo: DynamicInfo

    /** The abstract value of the whole object. */
    function State(): Lifecycle.ContextState
      reads this, staticInfo, dynamicInfo
    {
      Lifecycle.ContextState(isRunning, updateInterval, isFirstRun, shouldStop, cycleCount, lastError,
                             cCallback, cppCallback, staticInfo.Slots(), dynamicInfo.Slots(), monitorThread, stopEvent)
    }

    /** The default member initialisers. */
    constructor ()
      ensures State() == Lifecycle.InitialState
    {
      isRunning := false;
      updateInterval := Lifecycle.DefaultUpdateIntervalMs;
      isFirstRun := true;
      shouldStop := false;
      cycleCount := 0;
      lastError := Success;
      monitorThread := false;
      stopEvent := false;
      cCallback := None;
      cppCallback := None;
      staticInfo := new StaticInfo();
      dynamicInfo := new DynamicInfo();
    }

    method Reset()
      modifies this, staticInfo, dynamicInfo
      ensures State() == Lifecycle.Reset(old(State()))
    {
      staticInfo.Reset();
      dynamicInfo.Reset();
      isFirstRun := true;
      shouldStop := false;
      cycleCount := 0;
      lastError := Success;
    }

    method SetUpdateInterval(intervalMs: Int32) returns (result: MonitoringError)
      modifies this
      ensures (State(), result) == Lifecycle.SetUpdateInterval(old(State()), intervalMs)
    {
      if !Lifecycle.IsValidInterval(intervalMs) {
        SetLastError(InvalidParameter);
        return InvalidParameter;
      }
      updateInterval := intervalMs;
      return Success;
    }

    method SetLastError(error: MonitoringError)
      modifies this
      ensures State() == old(State()).(lastError := error)
    {
      lastError := error;
    }

    method GetLastError() returns (error: MonitoringError)
      ensures error == State().lastError
    {
      return lastError;
    }

    /**
     * Hands `jsonData` to the registered callbacks; `cThrows` and `cppThrows` say whether each one
     * throws. `called` lists the callbacks invoked, in order.
     */
    method InvokeCallbacks(jsonData: string, cThrows: bool, cppThrows: bool) returns (result: MonitoringError, called: seq<Lifecycle.Callback>)
      ensures Lifecycle.InvokeResult(result, called) == Lifecycle.InvokeCallbacks(cCallback, cppCallback, jsonData, cThrows, cppThrows)
    {
      called := [];
      if jsonData == [] {
        return InvalidParameter, called;
      }
      var callbackFailed := false;
      if cCallback.Some? {
        called := called + [cCallback.value];
        if cThrows {
          callbackFailed := true;
        }
      }
      if cppCallback.Some? {
        called := called + [cppCallback.value];
        if cppThrows {
          callbackFailed := true;
        }
      }
      result := if callbackFailed then CallbackExecutionFailed else Success;
    }

    method InitializeSession()
      modifies this
      ensures State() == Lifecycle.InitializeSession(old(State()))
    {
      cycleCount := 0;
      SetLastError(Success);
    }

    method IncrementCycle()
      modifies this
      ensures State() == Lifecycle.IncrementCycle(old(State()))
    {
      cycleCount := cycleCount + 1;
    }

    predicate ShouldStop()
      reads this
    {
      shouldStop || !isRunning
    }

    method RequestStop()
      modifies this
      ensures State() == old(State()).(shouldStop := true)
      ensures ShouldStop()
    {
      shouldStop := true;
    }

    /** stopEvent.reset(handle) with a handle (true) or with none (false). */
    method ResetStopEvent(present: bool)
      modifies this
      ensures State() == old(State()).(stopEvent := present)
    {
      stopEvent := present;
    }

    /** monitorThread.reset(handle) with a handle (true) or with none (false). */
    method ResetMonitorThread(present: bool)
      modifies this
      ensures State() == old(State()).(monitorThread := present)
    {
      monitorThread := present;
    }

    /** Both callbacks set to null under callbackMutex. */
    method ClearCallbacks()
      modifies this
      ensures State() == old(State()).(cCallback := None, cppCallback := None)
    {
      cCallback, cppCallback := None, None;
    }
  }
}
