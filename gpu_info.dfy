/**
 * The GPU collector of src/main/gpu_info.cpp: the integrated/discrete classification and
 * GPUList::Initialize, which walks the DXGI adapters in index order. What CreateDXGIFactory,
 * EnumAdapters and GetDesc report are inputs; memory sizes are kept in bytes, since their
 * conversion to gigabytes is floating point.
 */
module Gpu {

  import opened Wrappers

  datatype GPUError = Success | DXGIFactoryCreationFailed | AdapterEnumerationFailed | AdapterDescriptionFailed | InvalidParameter

  /** Adapters with less dedicated video memory than this (512 MiB) count as integrated. */
  const IntegratedGpuMemoryThreshold: nat := 512 * 1024 * 1024

  /** The fields of DXGI_ADAPTER_DESC the collector reads. */
  datatype AdapterDesc = AdapterDesc(description: string, dedicatedVideoMemory: nat, sharedSystemMemory: nat)

  /** One GPUInfo; the two memory sizes are in bytes. */
  datatype GPUInfo = GPUInfo(name: string, dedicatedMemory: nat, sharedMemory: nat, isIntegrated: bool, adapterIndex: nat)

  /** The GPUInfo stored for the adapter at enumeration index `index`. */
  function GpuEntry(desc: AdapterDesc, index: nat): (r: GPUInfo)
    ensures r.isIntegrated <==> desc.dedicatedVideoMemory < IntegratedGpuMemoryThreshold
    ensures r.adapterIndex == index && r.name == desc.description
  {
    GPUInfo(desc.description, desc.dedicatedVideoMemory, desc.sharedSystemMemory,
            desc.dedicatedVideoMemory < IntegratedGpuMemoryThreshold, index)
  }

  /**
   * The GPUs the loop stores for adapters 0 .. |adapters|-1, where each entry is the adapter's
   * description, or None when GetDesc failed for it.
   */
  function Gpus(adapters: seq<Option<AdapterDesc>>): seq<GPUInfo>
  {
    if adapters == [] then []
    else
      var last := |adapters| - 1;
      Gpus(adapters[..last]) + (if adapters[last].Some? then [GpuEntry(adapters[last].value, last)] else [])
  }

  /** The number of adapters whose description could be read. */
  function Described(adapters: seq<Option<AdapterDesc>>): nat
  {
    if adapters == [] then 0
    else Described(adapters[..|adapters| - 1]) + (if adapters[|adapters| - 1].Some? then 1 else 0)
  }

  /**
   * Each stored GPU comes from the adapter at its own index, whose description was read;
   * indices strictly increase along the list; and there is one GPU per described adapter, so
   * the adapters whose description failed are exactly the ones skipped.
   */
  lemma {:induction false} GpusFromAdapters(adapters: seq<Option<AdapterDesc>>)
    ensures |Gpus(adapters)| == Described(adapters)
    ensures forall k :: 0 <= k < |Gpus(adapters)| ==>
              Gpus(adapters)[k].adapterIndex < |adapters|
              && adapters[Gpus(adapters)[k].adapterIndex].Some?
              && Gpus(adapters)[k] == GpuEntry(adapters[Gpus(adapters)[k].adapterIndex].value, Gpus(adapters)[k].adapterIndex)
    ensures forall j, k :: 0 <= j < k < |Gpus(adapters)| ==> Gpus(adapters)[j].adapterIndex < Gpus(adapters)[k].adapterIndex
    decreases |adapters|
  {
    if adapters != [] {
      var last := |adapters| - 1;
      var prefix := adapters[..last];
      GpusFromAdapters(prefix);
      forall k | 0 <= k < |Gpus(prefix)|
        ensures adapters[Gpus(prefix)[k].adapterIndex] == prefix[Gpus(prefix)[k].adapterIndex]
      {
      }
    }
  }

  /** Every described adapter is stored: the adapter at index i appears in the list with index i. */
  lemma {:induction false} DescribedAdaptersStored(adapters: seq<Option<AdapterDesc>>, i: nat)
    requires i < |adapters| && adapters[i].Some?
    ensures GpuEntry(adapters[i].value, i) in Gpus(adapters)
    decreases |adapters|
  {
    var last := |adapters| - 1;
    if i < last {
      assert adapters[..last][i] == adapters[i];
      DescribedAdaptersStored(adapters[..last], i);
    }
  }

  lemma GpusStep(before: seq<GPUInfo>, adapters: seq<Option<AdapterDesc>>, i: nat)
    requires i < |adapters|
    ensures before + Gpus(adapters[..i + 1])
            == before + Gpus(adapters[..i]) + (if adapters[i].Some? then [GpuEntry(adapters[i].value, i)] else [])
  {
    assert adapters[..i + 1][..i] == adapters[..i];
  }

  class GPUList {
    var gpus: seq<GPUInfo>
    var initialized: bool
    var lastError: GPUError

    /** GPUList(): default members, then Initialize. */
    constructor (adapters: Option<seq<Option<AdapterDesc>>>)
      ensures adapters.None? ==> gpus == [] && !initialized && lastError == DXGIFactoryCreationFailed
      ensures adapters.Some? ==> gpus == Gpus(adapters.value) && initialized && lastError == Success
    {
      gpus := [];
      initialized := false;
      lastError := Success;
      new;
      Initialize(adapters);
    }

    /**
     * Initialize: `adapters` is None when CreateDXGIFactory failed, else the adapters EnumAdapters
     * yields before DXGI_ERROR_NOT_FOUND, each with its description or None when GetDesc failed.
     * A failed description records AdapterDescriptionFailed, which the final Success overwrites.
     * The list is appended to, not cleared.
     */
    method Initialize(adapters: Option<seq<Option<AdapterDesc>>>)
      modifies this
      ensures adapters.None? ==> gpus == old(gpus) && initialized == old(initialized) && lastError == DXGIFactoryCreationFailed
      ensures adapters.Some? ==> gpus == old(gpus) + Gpus(adapters.value) && initialized && lastError == Success
    {
      if adapters.None? {
        lastError := DXGIFactoryCreationFailed;
        return;
      }
      var all := adapters.value;
      var i := 0;
      while i < |all|
        invariant 0 <= i <= |all|
        invariant gpus == old(gpus) + Gpus(all[..i])
        decreases |all| - i
      {
        GpusStep(old(gpus), all, i);
        if all[i].None? {
          lastError := AdapterDescriptionFailed;
          i := i + 1;
          continue;
        }
        var desc := all[i].value;
        var isIntegrated := desc.dedicatedVideoMemory < IntegratedGpuMemoryThreshold;
        gpus := gpus + [GPUInfo(desc.description, desc.dedicatedVideoMemory, desc.sharedSystemMemory, isIntegrated, i)];
        i := i + 1;
      }
      assert all[..i] == all;
      initialized := true;
      lastError := Success;
    }

    /** GetCount. */
    method GetCount() returns (count: nat)
      ensures count == |gpus|
    {
      return |gpus|;
    }

    /** GetGPU: the GPU at `index`, or None (nullptr) past the end. */
    method GetGPU(index: nat) returns (gpu: Option<GPUInfo>)
      ensures gpu.Some? <==> index < |gpus|
      ensures gpu.Some? ==> gpu.value == gpus[index]
    {
      if index < |gpus| {
        return Some(gpus[index]);
      }
      return None;
    }
  }
}
