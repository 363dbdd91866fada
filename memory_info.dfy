/**
 * The memory collector of src/main/memory_info.cpp: the property readers, RAMSlotInfo with its
 * fallback getters, the used-memory computation and MemoryInfo::Initialize. What
 * GlobalMemoryStatusEx and the Win32_PhysicalMemory query return are inputs.
 */
module Memory {

  import opened Wrappers
  import opened Text
  import opened Wmi

  datatype MemoryError = Success | WMISessionFailed | QueryExecutionFailed | PropertyRetrievalFailed | InvalidParameter

  const UnknownRamSlot: string := "Unknown Slot"
  const UnknownRamManufacturer: string := "Unknown Manufacturer"

  /**
   * GetSafeUint64Property: 0 for a null object, a failed Get or VT_NULL; for a non-null BSTR, its
   * text read by _wtoi64 and stored in a uint64_t; 0 for any other tag.
   */
  function GetSafeUint64Property(obj: Option<WmiObject>, property: string): (r: UInt64)
    ensures r != 0 ==> obj.Some? && property in obj.value && obj.value[property].vt == VtBstr
                       && obj.value[property].bstrVal.Some?
  {
    if obj.None? || property !in obj.value || obj.value[property].vt == VtNull then 0
    else
      var v := obj.value[property];
      if v.vt == VtBstr && v.bstrVal.Some? then ToUInt64(Wtoi64(v.bstrVal.value)) else 0
  }

  /** A capacity WMI reports as a decimal string is read back exactly. */
  lemma Uint64PropertyReadsDecimal(obj: WmiObject, property: string, n: nat)
    requires property in obj && obj[property] == Bstr(NatToString(n)) && n <= Int64Max
    ensures GetSafeUint64Property(Some(obj), property) == n
  {
    Wtoi64ReadsDecimal(n);
  }

  /**
   * GetSafeUint32Property: 0 for a null object, a failed Get or VT_NULL; otherwise uintVal, the
   * union's low 32 bits, whatever the tag.
   */
  function GetSafeUint32Property(obj: Option<WmiObject>, property: string): (r: UInt32)
    ensures obj.None? || property !in obj.value || obj.value[property].vt == VtNull ==> r == 0
  {
    if obj.None? || property !in obj.value || obj.value[property].vt == VtNull then 0
    else obj.value[property].low32
  }

  /** Speeds that WMI reports as VT_I4 or VT_UI4 are read back as the numbers they hold. */
  lemma Uint32PropertyReadsIntegers(obj: WmiObject, property: string, n: UInt32)
    requires property in obj
    ensures obj[property] == UI4(n) ==> GetSafeUint32Property(Some(obj), property) == n
    ensures n < 0x8000_0000 && obj[property] == I4(n) ==> GetSafeUint32Property(Some(obj), property) == n
  {
  }

  /** One RAMSlotInfo. */
  datatype RAMSlotInfo = RAMSlotInfo(capacity: UInt64, speed: UInt32, configuredSpeed: UInt32, slot: string, manufacturer: string)
  {
    /** GetSlotLocation: "Unknown Slot" for an empty stored name. */
    function GetSlotLocation(): (r: string)
      ensures r != []
      ensures slot != [] ==> r == slot
      ensures slot == [] ==> r == UnknownRamSlot
    {
      if slot == [] then UnknownRamSlot else slot
    }

    /** GetManufacturer: "Unknown Manufacturer" for an empty stored name. */
    function GetManufacturer(): (r: string)
      ensures r != []
      ensures manufacturer != [] ==> r == manufacturer
      ensures manufacturer == [] ==> r == UnknownRamManufacturer
    {
      if manufacturer == [] then UnknownRamManufacturer else manufacturer
    }
  }

  /** The configured speed: a reported 0 means "not reported" and is replaced by the nominal speed. */
  function ConfiguredSpeed(configured: UInt32, speed: UInt32): (r: UInt32)
    ensures configured != 0 ==> r == configured
    ensures configured == 0 ==> r == speed
    ensures r == 0 ==> configured == 0 && speed == 0
  {
    if configured == 0 then speed else configured
  }

  /** The RAMSlotInfo the loop body builds from one Win32_PhysicalMemory object. */
  function RamSlot(obj: WmiObject): RAMSlotInfo
  {
    RAMSlotInfo(
      GetSafeUint64Property(Some(obj), "Capacity"),
      GetSafeUint32Property(Some(obj), "Speed"),
      ConfiguredSpeed(GetSafeUint32Property(Some(obj), "ConfiguredClockSpeed"), GetSafeUint32Property(Some(obj), "Speed")),
      GetSafeProperty(Some(obj), "DeviceLocator", UnknownRamSlot),
      GetSafeProperty(Some(obj), "Manufacturer", UnknownRamManufacturer))
  }

  /** Both names of a stored slot are non-empty already, so the getters return them unchanged. */
  lemma RamSlotNamesStored(obj: WmiObject)
    ensures RamSlot(obj).slot != [] && RamSlot(obj).GetSlotLocation() == RamSlot(obj).slot
    ensures RamSlot(obj).manufacturer != [] && RamSlot(obj).GetManufacturer() == RamSlot(obj).manufacturer
  {
  }

  /** ullTotalPhys - ullAvailPhys in uint64_t arithmetic. */
  function UsedPhysical(total: UInt64, avail: UInt64): (r: UInt64)
  {
    (total - avail) % 0x1_0000_0000_0000_0000
  }

  /** Used plus available is the total modulo 2^64, and exactly the total whenever available does not exceed it. */
  lemma UsedPhysicalComplement(total: UInt64, avail: UInt64)
    ensures avail <= total ==> UsedPhysical(total, avail) == total - avail
    ensures avail > total ==> UsedPhysical(total, avail) == total - avail + 0x1_0000_0000_0000_0000
    ensures (UsedPhysical(total, avail) + avail) % 0x1_0000_0000_0000_0000 == total
  {
    if avail > total {
      assert UsedPhysical(total, avail) == total - avail + 0x1_0000_0000_0000_0000;
    }
  }

  /** What GlobalMemoryStatusEx reports. */
  datatype MemoryStatus = MemoryStatus(totalPhys: UInt64, availPhys: UInt64, memoryLoad: UInt32)

  function RamSlots(objects: seq<WmiObject>): (r: seq<RAMSlotInfo>)
    ensures |r| == |objects|
    ensures forall i :: 0 <= i < |objects| ==> r[i] == RamSlot(objects[i])
  {
    seq(|objects|, i requires 0 <= i < |objects| => RamSlot(objects[i]))
  }

  lemma RamSlotsStep(before: seq<RAMSlotInfo>, objects: seq<WmiObject>, i: nat)
    requires i < |objects|
    ensures before + RamSlots(objects[..i + 1]) == before + RamSlots(objects[..i]) + [RamSlot(objects[i])]
  {
    assert RamSlots(objects[..i + 1]) == RamSlots(objects[..i]) + [RamSlot(objects[i])];
  }

  class MemoryInfo {
    var totalPhys: UInt64
    var availPhys: UInt64
    var usedPhys: UInt64
    var memoryLoad: UInt32
    var ramSlots: seq<RAMSlotInfo>
    var initialized: bool
    var lastError: MemoryError

    /** MemoryInfo(): zeroed members, then Initialize. */
    constructor (status: Option<MemoryStatus>, sessionOk: bool, objects: Option<seq<WmiObject>>)
      ensures status.None? ==> ramSlots == [] && !initialized && lastError == PropertyRetrievalFailed
      ensures status.Some? ==> usedPhys == UsedPhysical(status.value.totalPhys, status.value.availPhys)
      ensures status.Some? && sessionOk && objects.Some? ==> ramSlots == RamSlots(objects.value) && initialized
    {
      totalPhys, availPhys, usedPhys, memoryLoad := 0, 0, 0, 0;
      ramSlots := [];
      initialized := false;
      lastError := Success;
      new;
      Initialize(status, sessionOk, objects);
    }

    /**
     * Initialize: `status` is what GlobalMemoryStatusEx reported (None when it failed),
     * `sessionOk` whether the WMI session came up, and `objects` what the Win32_PhysicalMemory
     * query enumerated (None for no enumerator). Slots are appended, not replaced.
     */
    method Initialize(status: Option<MemoryStatus>, sessionOk: bool, objects: Option<seq<WmiObject>>)
      modifies this
      ensures status.None? ==> lastError == PropertyRetrievalFailed
                               && (totalPhys, availPhys, usedPhys, memoryLoad) == old((totalPhys, availPhys, usedPhys, memoryLoad))
      ensures status.Some? ==> totalPhys == status.value.totalPhys && availPhys == status.value.availPhys
                               && usedPhys == UsedPhysical(status.value.totalPhys, status.value.availPhys)
                               && memoryLoad == status.value.memoryLoad
      ensures status.Some? && !sessionOk ==> lastError == WMISessionFailed
      ensures status.Some? && sessionOk && objects.None? ==> lastError == QueryExecutionFailed
      ensures status.None? || !sessionOk || objects.None? ==> ramSlots == old(ramSlots) && initialized == old(initialized)
      ensures status.Some? && sessionOk && objects.Some? ==>
                ramSlots == old(ramSlots) + RamSlots(objects.value) && initialized && lastError == Success
    {
      if status.None? {
        lastError := PropertyRetrievalFailed;
        return;
      }
      totalPhys := status.value.totalPhys;
      availPhys := status.value.availPhys;
      usedPhys := UsedPhysical(status.value.totalPhys, status.value.availPhys);
      memoryLoad := status.value.memoryLoad;
      if !sessionOk {
        lastError := WMISessionFailed;
        return;
      }
      if objects.None? {
        lastError := QueryExecutionFailed;
        return;
      }
      var all := objects.value;
      var i := 0;
      while i < |all|
        invariant 0 <= i <= |all|
        invariant ramSlots == old(ramSlots) + RamSlots(all[..i])
        invariant totalPhys == status.value.totalPhys && availPhys == status.value.availPhys
        invariant usedPhys == UsedPhysical(status.value.totalPhys, status.value.availPhys)
        invariant memoryLoad == status.value.memoryLoad
        decreases |all| - i
      {
        var obj := all[i];
        var capacity := GetSafeUint64Property(Some(obj), "Capacity");
        var speed := GetSafeUint32Property(Some(obj), "Speed");
        var configuredSpeed := GetSafeUint32Property(Some(obj), "ConfiguredClockSpeed");
        if configuredSpeed == 0 {
          configuredSpeed := speed;
        }
        var slotName := GetSafeProperty(Some(obj), "DeviceLocator", UnknownRamSlot);
        var manufacturer := GetSafeProperty(Some(obj), "Manufacturer", UnknownRamManufacturer);
        ramSlots := ramSlots + [RAMSlotInfo(capacity, speed, configuredSpeed, slotName, manufacturer)];
        RamSlotsStep(old(ramSlots), all, i);
        i := i + 1;
      }
      assert all[..i] == all;
      initialized := true;
      lastError := Success;
    }

    /** GetRAMSlotCount. */
    method GetRAMSlotCount() returns (count: nat)
      ensures count == |ramSlots|
    {
      return |ramSlots|;
    }

    /** GetRAMSlot: the slot at `index`, or None (nullptr) past the end. */
    method GetRAMSlot(index: nat) returns (slot: Option<RAMSlotInfo>)
      ensures slot.Some? <==> index < |ramSlots|
      ensures slot.Some? ==> slot.value == ramSlots[index]
    {
      if index < |ramSlots| {
        return Some(ramSlots[index]);
      }
      return None;
    }
  }
}
