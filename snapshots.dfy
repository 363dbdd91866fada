/**
 * StaticInfo and DynamicInfo: the controller's two snapshot containers. Each slot is a
 * std::unique_ptr to a collector's result; the model keeps only whether the pointer is non-null.
 */
module Snapshots {

  /** The static collectors, in the order CollectStaticInfo calls them. */
  datatype StaticSlot = CpuSlot | GpuSlot | MotherboardSlot | AudioSlot | MonitorSlot

  /** The dynamic collectors whose result CollectDynamicInfo checks, in call order (battery is not checked). */
  datatype EssentialSlot = MemorySlot | StorageSlot | NetworkSlot

  /** The presence of each StaticInfo slot. */
  datatype StaticSlots = StaticSlots(gpuList: bool, mbInfo: bool, cpuList: bool, audioList: bool, monitorList: bool)
  {
    predicate IsComplete() { gpuList && mbInfo && cpuList && audioList && monitorList }

    /** The numerator of GetCompletionPercentage. */
    function CompletedCount(): nat
    {
      (if gpuList then 1 else 0) + (if mbInfo then 1 else 0) + (if cpuList then 1 else 0)
      + (if audioList then 1 else 0) + (if monitorList then 1 else 0)
    }

    function Has(slot: StaticSlot): bool
    {
      match slot
      case CpuSlot => cpuList
      case GpuSlot => gpuList
      case MotherboardSlot => mbInfo
      case AudioSlot => audioList
      case MonitorSlot => monitorList
    }

    /** The slots after `slot` has been assigned `present` and nothing else has changed. */
    function With(slot: StaticSlot, present: bool): (r: StaticSlots)
      ensures r.Has(slot) == present
      ensures forall other :: other != slot ==> r.Has(other) == Has(other)
    {
      match slot
      case CpuSlot => this.(cpuList := present)
      case GpuSlot => this.(gpuList := present)
      case MotherboardSlot => this.(mbInfo := present)
      case AudioSlot => this.(audioList := present)
      case MonitorSlot => this.(monitorList := present)
    }
  }

  const NoStaticSlots := StaticSlots(false, false, false, false, false)
  const AllStaticSlots := StaticSlots(true, true, true, true, true)

  /** The presence of each DynamicInfo slot. */
  datatype DynamicSlots = DynamicSlots(memInfo: bool, storageList: bool, batteryInfo: bool, networkList: bool)
  {
    predicate IsComplete() { memInfo && storageList && batteryInfo && networkList }

    predicate IsEssentialComplete() { memInfo && storageList && networkList }

    /** The numerator of GetCompletionPercentage. */
    function CompletedCount(): nat
    {
      (if memInfo then 1 else 0) + (if storageList then 1 else 0) + (if batteryInfo then 1 else 0)
      + (if networkList then 1 else 0)
    }
  }

  const NoDynamicSlots := DynamicSlots(false, false, false, false)

  /** IsComplete holds exactly when all five static slots are present, which is when the count reaches five. */
  lemma StaticCompleteness(s: StaticSlots)
    ensures s.IsComplete() <==> forall slot :: s.Has(slot)
    ensures s.CompletedCount() <= 5
    ensures s.CompletedCount() == 5 <==> s.IsComplete()
    ensures s.CompletedCount() == 0 <==> s == NoStaticSlots
  {
    if !s.IsComplete() {
      if !s.gpuList { assert !s.Has(GpuSlot); }
      else if !s.mbInfo { assert !s.Has(MotherboardSlot); }
      else if !s.cpuList { assert !s.Has(CpuSlot); }
      else if !s.audioList { assert !s.Has(AudioSlot); }
      else { assert !s.Has(MonitorSlot); }
    }
  }

  /** Battery is irrelevant to the essential subset; completeness implies essential completeness; counts stay within 0..4. */
  lemma DynamicCompleteness(d: DynamicSlots)
    ensures d.IsEssentialComplete() == d.(batteryInfo := !d.batteryInfo).IsEssentialComplete()
    ensures d.IsComplete() ==> d.IsEssentialComplete()
    ensures d.IsComplete() <==> d.IsEssentialComplete() && d.batteryInfo
    ensures d.CompletedCount() <= 4
    ensures d.CompletedCount() == 4 <==> d.IsComplete()
    ensures d.CompletedCount() == 0 <==> d == NoDynamicSlots
  {
  }

  /** An emptied container satisfies neither completeness predicate. */
  lemma ResetIsIncomplete()
    ensures !NoStaticSlots.IsComplete() && NoStaticSlots.CompletedCount() == 0
    ensures !NoDynamicSlots.IsComplete() && !NoDynamicSlots.IsEssentialComplete()
    ensures NoDynamicSlots.CompletedCount() == 0
  {
  }

  /** StaticInfo: five owning pointers that the worker fills and Reset empties in place. */
  class StaticInfo {
    var gpuList: bool
    var mbInfo: bool
    var cpuList: bool
    var audioList: bool
    var monitorList: bool

    function Slots(): StaticSlots
      reads this
    {
      StaticSlots(gpuList, mbInfo, cpuList, audioList, monitorList)
    }

    constructor ()
      ensures Slots() == NoStaticSlots
    {
      gpuList, mbInfo, cpuList, audioList, monitorList := false, false, false, false, false;
    }

    predicate IsComplete()
      reads this
    {
      Slots().IsComplete()
    }

    /** GetCompletionPercentage, without the division by five. */
    method CompletedComponents() returns (completed: nat)
      ensures completed == Slots().CompletedCount()
      ensures completed <= 5 && (completed == 5 <==> IsComplete())
    {
      completed := 0;
      if gpuList { completed := completed + 1; }
      if mbInfo { completed := completed + 1; }
      if cpuList { completed := completed + 1; }
      if audioList { completed := completed + 1; }
      if monitorList { completed := completed + 1; }
    }

    /** Stores a collector's result (present or null) into one slot. */
    method Store(slot: StaticSlot, present: bool)
      modifies this
      ensures Slots() == old(Slots()).With(slot, present)
    {
      match slot
      case CpuSlot => cpuList := present;
      case GpuSlot => gpuList := present;
      case MotherboardSlot => mbInfo := present;
      case AudioSlot => audioList := present;
      case MonitorSlot => monitorList := present;
    }

    method Reset()
      modifies this
      ensures Slots() == NoStaticSlots
    {
      gpuList := false;
      mbInfo := false;
      cpuList := false;
      audioList := false;
      monitorList := false;
    }

    method ResetGPUInfo()
      modifies this
      ensures Slots() == old(Slots()).(gpuList := false)
    {
      gpuList := false;
    }

    method ResetMotherboardInfo()
      modifies this
      ensures Slots() == old(Slots()).(mbInfo := false)
    {
      mbInfo := false;
    }

    method ResetCPUInfo()
      modifies this
      ensures Slots() == old(Slots()).(cpuList := false)
    {
      cpuList := false;
    }

    method ResetAudioInfo()
      modifies this
      ensures Slots() == old(Slots()).(audioList := false)
    {
      audioList := false;
    }

    method ResetMonitorInfo()
      modifies this
      ensures Slots() == old(Slots()).(monitorList := false)
    {
      monitorList := false;
    }
  }

  /** DynamicInfo: four owning pointers refreshed every cycle. */
  class DynamicInfo {
    var memInfo: bool
    var storageList: bool
    var batteryInfo: bool
    var networkList: bool

    function Slots(): DynamicSlots
      reads this
    {
      DynamicSlots(memInfo, storageList, batteryInfo, networkList)
    }

    constructor ()
      ensures Slots() == NoDynamicSlots
    {
      memInfo, storageList, batteryInfo, networkList := false, false, false, false;
    }

    predicate IsComplete()
      reads this
    {
      Slots().IsComplete()
    }

    predicate IsEssentialComplete()
      reads this
    {
      Slots().IsEssentialComplete()
    }

    /** GetCompletionPercentage, without the division by four. */
    method CompletedComponents() returns (completed: nat)
      ensures completed == Slots().CompletedCount()
      ensures completed <= 4 && (completed == 4 <==> IsComplete())
    {
      completed := 0;
      if memInfo { completed := completed + 1; }
      if storageList { completed := completed + 1; }
      if batteryInfo { completed := completed + 1; }
      if networkList { completed := completed + 1; }
    }

    /** Assigns the results of the four dynamic collectors. */
    method Store(memory: bool, storage: bool, battery: bool, network: bool)
      modifies this
      ensures Slots() == DynamicSlots(memory, storage, battery, network)
    {
      memInfo, storageList, batteryInfo, networkList := memory, storage, battery, network;
    }

    method Reset()
      modifies this
      ensures Slots() == NoDynamicSlots
    {
      memInfo := false;
      storageList := false;
      batteryInfo := false;
      networkList := false;
    }

    method ResetMemoryInfo()
      modifies this
      ensures Slots() == old(Slots()).(memInfo := false)
    {
      memInfo := false;
    }

    method ResetStorageInfo()
      modifies this
      ensures Slots() == old(Slots()).(storageList := false)
    {
      storageList := false;
    }

    method ResetBatteryInfo()
      modifies this
      ensures Slots() == old(Slots()).(batteryInfo := false)
    {
      batteryInfo := false;
    }

    method ResetNetworkInfo()
      modifies this
      ensures Slots() == old(Slots()).(networkList := false)
    {
      networkList := false;
    }
  }
}
