/**
 * The CPU collector of src/main/cpu_info.cpp: the two VARIANT readers, CPUInfo and
 * CPUList::Initialize, which appends one CPUInfo per Win32_Processor object.
 */
module Cpu {

  import opened Wrappers
  import opened Text
  import opened Wmi

  datatype CPUError = Success | WMISessionFailed | QueryExecutionFailed | PropertyRetrievalFailed | InvalidParameter

  const UnknownCpuName: string := "Unknown CPU"

  /** SafeVariantToString: the text of a non-null BSTR, "Unknown CPU" for anything else. */
  function SafeVariantToString(v: Variant): (r: string)
    ensures v.vt == VtBstr && v.bstrVal.Some? ==> r == v.bstrVal.value
    ensures !(v.vt == VtBstr && v.bstrVal.Some?) ==> r == UnknownCpuName
  {
    if v.vt == VtBstr && v.bstrVal.Some? then v.bstrVal.value else UnknownCpuName
  }

  /** SafeVariantToUint32: a VT_I4 value clamped below at 0, a VT_UI4 value as is, 0 for any other tag. */
  function SafeVariantToUint32(v: Variant): (r: UInt32)
    ensures v.vt == VtI4 ==> r == (if LVal(v) >= 0 then LVal(v) else 0)
    ensures v.vt == VtUI4 ==> r == v.low32
    ensures v.vt !in {VtI4, VtUI4} ==> r == 0
  {
    match v.vt
    case VtI4 => if LVal(v) >= 0 then LVal(v) else 0
    case VtUI4 => v.low32
    case _ => 0
  }

  /** Integers built as VT_I4 or VT_UI4 read back as themselves, negative VT_I4 values as 0. */
  lemma SafeVariantToUint32Integers(value: Int32, unsigned: UInt32)
    ensures SafeVariantToUint32(I4(value)) == (if value >= 0 then value else 0)
    ensures SafeVariantToUint32(UI4(unsigned)) == unsigned
  {
    I4RoundTrip(value);
  }

  /** One CPUInfo; its getters return the constructor's arguments. */
  datatype CPUInfo = CPUInfo(name: string, cores: UInt32, threads: UInt32, clockSpeed: UInt32)

  /** A property whose Get fails keeps its default; one that succeeds is converted. */
  function NameOf(obj: WmiObject): (r: string)
    ensures "Name" !in obj ==> r == UnknownCpuName
  {
    if "Name" in obj then SafeVariantToString(obj["Name"]) else UnknownCpuName
  }

  function CountOf(obj: WmiObject, property: string): (r: UInt32)
    ensures property !in obj ==> r == 0
  {
    if property in obj then SafeVariantToUint32(obj[property]) else 0
  }

  /** The CPUInfo the loop body builds from one Win32_Processor object. */
  function CpuEntry(obj: WmiObject): CPUInfo
  {
    CPUInfo(NameOf(obj), CountOf(obj, "NumberOfCores"), CountOf(obj, "NumberOfLogicalProcessors"), CountOf(obj, "MaxClockSpeed"))
  }

  function CpuEntries(objects: seq<WmiObject>): (r: seq<CPUInfo>)
    ensures |r| == |objects|
    ensures forall i :: 0 <= i < |objects| ==> r[i] == CpuEntry(objects[i])
  {
    seq(|objects|, i requires 0 <= i < |objects| => CpuEntry(objects[i]))
  }

  /** The name is "Unknown CPU" unless the object reports a non-null BSTR name. */
  lemma CpuEntryName(obj: WmiObject)
    ensures CpuEntry(obj).name != UnknownCpuName ==>
              "Name" in obj && obj["Name"].vt == VtBstr && obj["Name"].bstrVal == Some(CpuEntry(obj).name)
  {
  }

  class CPUList {
    var cpus: seq<CPUInfo>
    var initialized: bool
    var lastError: CPUError

    /** CPUList(): default members, then Initialize. */
    constructor (sessionOk: bool, objects: Option<seq<WmiObject>>, thrown: bool)
      ensures Outcome(sessionOk, objects, thrown, [], false) == (cpus, initialized, lastError)
    {
      cpus := [];
      initialized := false;
      lastError := Success;
      new;
      Initialize(sessionOk, objects, thrown);
    }

    /** The members after Initialize, from the members before it. */
    static function Outcome(sessionOk: bool, objects: Option<seq<WmiObject>>, thrown: bool,
                            cpus: seq<CPUInfo>, initialized: bool): (seq<CPUInfo>, bool, CPUError)
    {
      if !sessionOk then (cpus, initialized, WMISessionFailed)
      else if objects.None? then (cpus, initialized, QueryExecutionFailed)
      else if thrown then ([], initialized, PropertyRetrievalFailed)
      else (cpus + CpuEntries(objects.value), true, Success)
    }

    /**
     * Initialize: `sessionOk` is whether the WMI session came up, `objects` what the
     * Win32_Processor query enumerated (None for no enumerator), and `thrown` whether an exception
     * reached the outer handler, which clears the list wherever it was thrown. The list is
     * appended to, not cleared.
     */
    method Initialize(sessionOk: bool, objects: Option<seq<WmiObject>>, thrown: bool)
      modifies this
      ensures (cpus, initialized, lastError) == Outcome(sessionOk, objects, thrown, old(cpus), old(initialized))
    {
      if !sessionOk {
        lastError := WMISessionFailed;
        return;
      }
      if objects.None? {
        lastError := QueryExecutionFailed;
        return;
      }
      if thrown {
        lastError := PropertyRetrievalFailed;
        cpus := [];
        return;
      }
      var all := objects.value;
      var i := 0;
      while i < |all|
        invariant 0 <= i <= |all|
        invariant cpus == old(cpus) + CpuEntries(all[..i])
        decreases |all| - i
      {
        var obj := all[i];
        var cpuName := UnknownCpuName;
        if "Name" in obj {
          cpuName := SafeVariantToString(obj["Name"]);
        }
        var cores := 0;
        if "NumberOfCores" in obj {
          cores := SafeVariantToUint32(obj["NumberOfCores"]);
        }
        var threads := 0;
        if "NumberOfLogicalProcessors" in obj {
          threads := SafeVariantToUint32(obj["NumberOfLogicalProcessors"]);
        }
        var clockSpeed := 0;
        if "MaxClockSpeed" in obj {
          clockSpeed := SafeVariantToUint32(obj["MaxClockSpeed"]);
        }
        cpus := cpus + [CPUInfo(cpuName, cores, threads, clockSpeed)];
        assert CpuEntries(all[..i + 1]) == CpuEntries(all[..i]) + [CpuEntry(all[i])];
        i := i + 1;
      }
      assert all[..i] == all;
      initialized := true;
      lastError := Success;
    }

    /** GetCount. */
    method GetCount() returns (count: nat)
      ensures count == |cpus|
    {
      return |cpus|;
    }

    /** GetCPU: the CPU at `index`, or None (nullptr) past the end. */
    method GetCPU(index: nat) returns (cpu: Option<CPUInfo>)
      ensures cpu.Some? <==> index < |cpus|
      ensures cpu.Some? ==> cpu.value == cpus[index]
    {
      if index < |cpus| {
        return Some(cpus[index]);
      }
      return None;
    }
  }
}
