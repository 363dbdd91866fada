/**
 * The battery collector of src/main/battery_info.cpp: HasBattery, SafeBatteryPercent and the
 * members BatteryInfo::Initialize derives from what GetSystemPowerStatus reports.
 */
module Battery {

  import opened Wrappers

  datatype BatteryError = Success | SystemPowerStatusFailed | InvalidBatteryState | InvalidParameter

  type UInt8 = x: int | 0 <= x < 0x100

  const BatteryStatusUnknown: UInt8 := 255
  const BatteryFlagNoBattery: UInt8 := 128
  const BatteryFlagUnknown: UInt8 := 255
  const ACLineStatusOnline: UInt8 := 1
  const DefaultDesktopBatteryPercent: UInt8 := 100

  /** The fields of SYSTEM_POWER_STATUS the collector reads. */
  datatype PowerStatus = PowerStatus(acLineStatus: UInt8, batteryFlag: UInt8, batteryLifePercent: UInt8)

  /**
   * HasBattery: no battery when the flag says "no system battery" (128) or "unknown" (255); a
   * percentage of 255 ("unknown") with flag 1 also means none; otherwise a battery is present
   * exactly when the percentage is known.
   */
  predicate HasBattery(status: PowerStatus)
  {
    if status.batteryFlag == BatteryFlagNoBattery || status.batteryFlag == BatteryFlagUnknown then false
    else if status.batteryLifePercent == BatteryStatusUnknown && status.batteryFlag == 1 then false
    else status.batteryLifePercent != BatteryStatusUnknown
  }

  /** A battery is reported exactly when the flag is neither 128 nor 255 and the percentage is known. */
  lemma HasBatteryExactly(status: PowerStatus)
    ensures HasBattery(status) <==>
              status.batteryFlag != BatteryFlagNoBattery && status.batteryFlag != BatteryFlagUnknown
              && status.batteryLifePercent != BatteryStatusUnknown
  {
  }

  /** SafeBatteryPercent: the identity on 0..100, and 100 for anything larger (255 included). */
  function SafeBatteryPercent(rawPercent: UInt8): (r: UInt8)
    ensures r <= 100
    ensures rawPercent <= 100 ==> r == rawPercent
    ensures rawPercent > 100 ==> r == DefaultDesktopBatteryPercent
  {
    if rawPercent == BatteryStatusUnknown then DefaultDesktopBatteryPercent
    else if rawPercent <= 100 then rawPercent else DefaultDesktopBatteryPercent
  }

  class BatteryInfo {
    var percent: UInt8
    var pluggedIn: bool
    var isDesktop: bool
    var initialized: bool
    var lastError: BatteryError

    /** The member defaults of battery_info.hpp: 100 percent, plugged in, a desktop. */
    predicate HasDefaults()
      reads this
    {
      percent == DefaultDesktopBatteryPercent && pluggedIn && isDesktop
    }

    /** BatteryInfo(): default members, then Initialize. */
    constructor (status: Option<PowerStatus>)
      ensures status.None? ==> HasDefaults() && !initialized && lastError == SystemPowerStatusFailed
      ensures status.Some? ==> initialized && lastError == Success && isDesktop == !HasBattery(status.value)
      ensures percent <= 100
    {
      percent := DefaultDesktopBatteryPercent;
      pluggedIn := true;
      isDesktop := true;
      initialized := false;
      lastError := Success;
      new;
      Initialize(status);
    }

    /**
     * Initialize: `status` is what GetSystemPowerStatus filled in, or None when it failed, in
     * which case only the error is recorded.
     */
    method Initialize(status: Option<PowerStatus>)
      modifies this
      ensures status.None? ==> lastError == SystemPowerStatusFailed
                               && (percent, pluggedIn, isDesktop, initialized) == old((percent, pluggedIn, isDesktop, initialized))
      ensures status.Some? ==> initialized && lastError == Success && isDesktop == !HasBattery(status.value)
      ensures status.Some? && !HasBattery(status.value) ==> percent == DefaultDesktopBatteryPercent && pluggedIn
      ensures status.Some? && HasBattery(status.value) ==>
                percent == SafeBatteryPercent(status.value.batteryLifePercent)
                && (pluggedIn <==> status.value.acLineStatus == ACLineStatusOnline)
      ensures status.Some? ==> percent <= 100
    {
      if status.None? {
        lastError := SystemPowerStatusFailed;
        return;
      }
      var hasBattery := HasBattery(status.value);
      isDesktop := !hasBattery;
      if hasBattery {
        percent := SafeBatteryPercent(status.value.batteryLifePercent);
        pluggedIn := status.value.acLineStatus == ACLineStatusOnline;
      } else {
        percent := DefaultDesktopBatteryPercent;
        pluggedIn := true;
      }
      initialized := true;
      lastError := Success;
    }
  }
}
