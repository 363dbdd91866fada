/**
 * The serializer of src/helper/json_structure.cpp: TrimString, the Append* builders and
 * GenerateSystemInfo. The nlohmann::json document is a tree of Json values whose objects are maps
 * from key to value; how dump lays it out as text is not part of this model.
 */
module JsonStructure {

  import opened Wrappers
  import opened Text
  import Monitors
  import Network
  import Storage
  import Memory
  import Cpu
  import Gpu
  import Battery

  /**
   * A JSON value. JGigabytes is utils::BytesToGB of a byte count and JDiagonalInch the "x.y inch"
   * text of a diagonal, both kept as their inputs because the conversions are floating point;
   * JFloating is a floating-point value this model does not compute (a disk size).
   */
  datatype Json =
    | JBool(b: bool)
    | JInt(i: int)
    | JString(s: string)
    | JGigabytes(bytes: nat)
    | JDiagonalInch(widthMm: int, heightMm: int)
    | JFloating
    | JArray(items: seq<Json>)
    | JObject(fields: map<string, Json>)

  /** The top-level sections of the document. */
  datatype Section = GpuSection | MotherboardSection | CpuSection | MemorySection | StorageSection
                   | NetworkSection | AudioSection | BatterySection | MonitorsSection

  /** The key each section is written under. */
  function Key(section: Section): string
  {
    match section
    case GpuSection => "gpu"
    case MotherboardSection => "motherboard"
    case CpuSection => "cpu"
    case MemorySection => "memory"
    case StorageSection => "storage"
    case NetworkSection => "network"
    case AudioSection => "audio"
    case BatterySection => "battery"
    case MonitorsSection => "monitors"
  }

  /** Different sections are written under different keys, so the root is a map from section to value. */
  lemma KeysDistinct(a: Section, b: Section)
    ensures Key(a) == Key(b) <==> a == b
  {
  }

  /** The root object, keyed by section; its text keys are Key(section). */
  type Document = map<Section, Json>

  // ---------------------------------------------------------------- TrimString

  /** std::string::find_first_not_of(" \t\n\r\f\v", from). */
  function FindFirstNotSpace(s: string, from: nat): (r: Option<nat>)
    requires from <= |s|
    ensures r.Some? ==> from <= r.value < |s| && !IsWhiteSpace(s[r.value])
    ensures r.Some? ==> forall k :: from <= k < r.value ==> IsWhiteSpace(s[k])
    ensures r.None? ==> forall k :: from <= k < |s| ==> IsWhiteSpace(s[k])
    decreases |s| - from
  {
    if from == |s| then None
    else if !IsWhiteSpace(s[from]) then Some(from)
    else FindFirstNotSpace(s, from + 1)
  }

  /** std::string::find_last_not_of(" \t\n\r\f\v") over s[..upTo]. */
  function FindLastNotSpace(s: string, upTo: nat): (r: Option<nat>)
    requires upTo <= |s|
    ensures r.Some? ==> r.value < upTo && !IsWhiteSpace(s[r.value])
    ensures r.Some? ==> forall k :: r.value < k < upTo ==> IsWhiteSpace(s[k])
    ensures r.None? ==> forall k :: 0 <= k < upTo ==> IsWhiteSpace(s[k])
    decreases upTo
  {
    if upTo == 0 then None
    else if !IsWhiteSpace(s[upTo - 1]) then Some(upTo - 1)
    else FindLastNotSpace(s, upTo - 1)
  }

  /** TrimString: the text between the first and the last character that is not white space. */
  function TrimString(s: string): string
  {
    if s == [] then s
    else match FindFirstNotSpace(s, 0)
      case None => []
      case Some(first) =>
        var last := FindLastNotSpace(s, |s|);
        assert !IsWhiteSpace(s[first]);
        s[first..last.value + 1]
  }

  predicate AllWhiteSpace(s: string)
  {
    forall k :: 0 <= k < |s| ==> IsWhiteSpace(s[k])
  }

  /**
   * TrimString removes white space at both ends and nothing else: the result is a contiguous
   * piece of the input with only white space before and after it.
   */
  lemma TrimStringSubstring(s: string)
    ensures var r := TrimString(s);
            exists i: nat :: i + |r| <= |s| && s[i..i + |r|] == r && AllWhiteSpace(s[..i]) && AllWhiteSpace(s[i + |r|..])
  {
    var r := TrimString(s);
    if s == [] {
      assert s[0..0] == r && AllWhiteSpace(s[..0]) && AllWhiteSpace(s[0..]);
    } else {
      match FindFirstNotSpace(s, 0)
      case None =>
        assert s[0..0] == r && AllWhiteSpace(s[..0]);
        assert s[0..] == s;
      case Some(first) =>
        var last := FindLastNotSpace(s, |s|);
        assert r == s[first..last.value + 1];
        assert first + |r| == last.value + 1;
        assert AllWhiteSpace(s[..first]);
        assert AllWhiteSpace(s[first + |r|..]);
    }
  }

  /** The result neither starts nor ends with white space. */
  lemma TrimStringEnds(s: string)
    ensures TrimString(s) != [] ==> !IsWhiteSpace(TrimString(s)[0]) && !IsWhiteSpace(TrimString(s)[|TrimString(s)| - 1])
  {
    if s != [] && FindFirstNotSpace(s, 0).Some? {
      var first := FindFirstNotSpace(s, 0).value;
      var last := FindLastNotSpace(s, |s|);
      assert TrimString(s) == s[first..last.value + 1];
    }
  }

  /** An empty or all-white-space input, and only such an input, gives "". */
  lemma TrimStringEmpty(s: string)
    ensures AllWhiteSpace(s) <==> TrimString(s) == []
  {
    if s != [] && FindFirstNotSpace(s, 0).Some? {
      var first := FindFirstNotSpace(s, 0).value;
      var last := FindLastNotSpace(s, |s|);
      assert TrimString(s) == s[first..last.value + 1];
      assert !AllWhiteSpace(s);
    }
  }

  /** Trimming twice trims nothing more. */
  lemma TrimStringIdempotent(s: string)
    ensures TrimString(TrimString(s)) == TrimString(s)
  {
    var r := TrimString(s);
    TrimStringEnds(s);
    if r != [] {
      var first := FindFirstNotSpace(r, 0);
      var last := FindLastNotSpace(r, |r|);
      assert first == Some(0);
      assert last == Some(|r| - 1);
      assert r[0..|r|] == r;
    }
  }

  // ---------------------------------------------------------------- sections

  /** What the motherboard collector's getters return; that collector is not part of this model. */
  datatype MotherboardInfo = MotherboardInfo(manufacturer: string, product: string, serial: string,
                                             biosVersion: string, biosSerial: string, systemSku: string)

  /** What an audio device's getters return; that collector is not part of this model. */
  datatype AudioDevice = AudioDevice(name: string, manufacturer: string)

  function GpuObject(gpu: Gpu.GPUInfo): Json
  {
    JObject(map[
      "name" := JString(gpu.name),
      "vram" := JGigabytes(gpu.dedicatedMemory),
      "shared_memory" := JGigabytes(gpu.sharedMemory),
      "type" := JString(if gpu.isIntegrated then "iGPU" else "dGPU")])
  }

  /** The "type" of a GPU is "iGPU" exactly for an integrated one, that is, one with under 512 MiB of dedicated memory. */
  lemma GpuType(desc: Gpu.AdapterDesc, index: nat)
    ensures var gpu := Gpu.GpuEntry(desc, index);
            GpuObject(gpu).fields["type"] == JString("iGPU") <==> desc.dedicatedVideoMemory < Gpu.IntegratedGpuMemoryThreshold
    ensures var gpu := Gpu.GpuEntry(desc, index);
            GpuObject(gpu).fields["type"] == JString("dGPU") <==> desc.dedicatedVideoMemory >= Gpu.IntegratedGpuMemoryThreshold
  {
    assert "iGPU" != "dGPU";
  }

  function MotherboardObject(mb: MotherboardInfo): Json
  {
    JObject(map[
      "manufacturer" := JString(mb.manufacturer),
      "product" := JString(mb.product),
      "serial_number" := JString(mb.serial),
      "bios_version" := JString(mb.biosVersion),
      "bios_serial" := JString(mb.biosSerial),
      "system_sku" := JString(mb.systemSku)])
  }

  function CpuObject(cpu: Cpu.CPUInfo): Json
  {
    JObject(map[
      "name" := JString(TrimString(cpu.name)),
      "cores" := JInt(cpu.cores),
      "threads" := JInt(cpu.threads),
      "clock_speed" := JInt(cpu.clockSpeed)])
  }

  /** The CPU "name" has no white space at either end. */
  lemma CpuNameTrimmed(cpu: Cpu.CPUInfo)
    ensures CpuObject(cpu).fields["name"].JString?
    ensures var name := CpuObject(cpu).fields["name"].s;
            name == TrimString(cpu.name) && (name != [] ==> !IsWhiteSpace(name[0]) && !IsWhiteSpace(name[|name| - 1]))
  {
    TrimStringEnds(cpu.name);
  }

  function SlotObject(slot: Memory.RAMSlotInfo): Json
  {
    JObject(map[
      "location" := JString(slot.GetSlotLocation()),
      "capacity" := JGigabytes(slot.capacity),
      "speed" := JInt(slot.speed),
      "configured_speed" := JInt(slot.configuredSpeed),
      "manufacturer" := JString(slot.GetManufacturer())])
  }

  function DiskObject(disk: Storage.LogicalDiskInfo): Json
  {
    JObject(map[
      "drive" := JString(disk.driveLetter),
      "type" := JString(disk.driveType),
      "model" := JString(disk.model),
      "interface" := JString(disk.interfaceType),
      "total_size" := JFloating,
      "free_space" := JFloating,
      "used_space" := JFloating])
  }

  function AdapterObject(adapter: Network.NetworkAdapterInfo): Json
  {
    JObject(map[
      "name" := JString(adapter.name),
      "mac_address" := JString(adapter.macAddress),
      "ip_address" := JString(adapter.ipAddress),
      "status" := JString(adapter.status)])
  }

  function AudioObject(device: AudioDevice): Json
  {
    JObject(map["name" := JString(device.name), "manufacturer" := JString(device.manufacturer)])
  }

  function ScreenSizeJson(size: Monitors.ScreenSize): Json
  {
    match size
    case UnsetScreenSize => JString("")
    case UnknownScreenSize => JString("Unknown")
    case DiagonalOf(w, h) => JDiagonalInch(w, h)
  }

  function MonitorObject(monitor: Monitors.MonitorInfo): Json
  {
    JObject(map[
      "is_primary" := JBool(monitor.isPrimary),
      "width" := JInt(monitor.width),
      "height" := JInt(monitor.height),
      "current_resolution" := JString(monitor.currentResolution),
      "native_resolution" := JString(monitor.nativeResolution),
      "aspect_ratio" := JString(monitor.aspectRatio),
      "refresh_rate" := JInt(monitor.refreshRate),
      "screen_size" := ScreenSizeJson(monitor.screenSize),
      "physical_width_mm" := JInt(monitor.physicalWidthMm),
      "physical_height_mm" := JInt(monitor.physicalHeightMm),
      "manufacturer" := JString(monitor.manufacturer),
      "device_id" := JString(Monitors.Escape(monitor.deviceId))])
  }

  /** The wired adapters, in list order. */
  function EthernetAdapters(adapters: seq<Network.NetworkAdapterInfo>): seq<Network.NetworkAdapterInfo>
  {
    if adapters == [] then []
    else EthernetAdapters(adapters[..|adapters| - 1])
         + (if adapters[|adapters| - 1].IsEthernet() then [adapters[|adapters| - 1]] else [])
  }

  /** The wireless adapters that are not wired, in list order. */
  function WiFiAdapters(adapters: seq<Network.NetworkAdapterInfo>): seq<Network.NetworkAdapterInfo>
  {
    if adapters == [] then []
    else WiFiAdapters(adapters[..|adapters| - 1])
         + (var a := adapters[|adapters| - 1]; if !a.IsEthernet() && a.IsWiFi() then [a] else [])
  }

  /**
   * The ethernet/wifi partition: an adapter is in the ethernet array iff it is wired, in the wifi
   * array iff it is wireless (and so not wired), and in neither otherwise; the two arrays keep
   * list order, since each is the concatenation of its parts.
   */
  lemma {:induction false} NetworkPartition(adapters: seq<Network.NetworkAdapterInfo>)
    ensures forall a :: a in EthernetAdapters(adapters) <==> a in adapters && a.IsEthernet()
    ensures forall a :: a in WiFiAdapters(adapters) <==> a in adapters && a.IsWiFi()
    ensures |EthernetAdapters(adapters)| + |WiFiAdapters(adapters)| <= |adapters|
    decreases |adapters|
  {
    if adapters != [] {
      var prefix := adapters[..|adapters| - 1];
      NetworkPartition(prefix);
      assert adapters == prefix + [adapters[|adapters| - 1]];
      Network.EthernetAndWiFiExclusive(adapters[|adapters| - 1]);
    }
  }

  /** Filtering a concatenation concatenates the filtered parts, so each array is built piecewise. */
  lemma {:induction false} EthernetAppend(a: seq<Network.NetworkAdapterInfo>, b: seq<Network.NetworkAdapterInfo>)
    ensures EthernetAdapters(a + b) == EthernetAdapters(a) + EthernetAdapters(b)
    decreases |b|
  {
    if b == [] {
      assert a + b == a;
    } else {
      var b' := b[..|b| - 1];
      var last := b[|b| - 1];
      EthernetAppend(a, b');
      assert (a + b)[..|a + b| - 1] == a + b';
      assert (a + b)[|a + b| - 1] == last;
      var tail := if last.IsEthernet() then [last] else [];
      assert EthernetAdapters(a + b) == EthernetAdapters(a + b') + tail;
      assert EthernetAdapters(b) == EthernetAdapters(b') + tail;
    }
  }

  lemma {:induction false} WiFiAppend(a: seq<Network.NetworkAdapterInfo>, b: seq<Network.NetworkAdapterInfo>)
    ensures WiFiAdapters(a + b) == WiFiAdapters(a) + WiFiAdapters(b)
    decreases |b|
  {
    if b == [] {
      assert a + b == a;
    } else {
      var b' := b[..|b| - 1];
      var last := b[|b| - 1];
      WiFiAppend(a, b');
      assert (a + b)[..|a + b| - 1] == a + b';
      assert (a + b)[|a + b| - 1] == last;
      var tail := if !last.IsEthernet() && last.IsWiFi() then [last] else [];
      assert WiFiAdapters(a + b) == WiFiAdapters(a + b') + tail;
      assert WiFiAdapters(b) == WiFiAdapters(b') + tail;
    }
  }

  function Objects<T>(items: seq<T>, f: T -> Json): (r: seq<Json>)
    ensures |r| == |items|
    ensures forall i :: 0 <= i < |items| ==> r[i] == f(items[i])
  {
    seq(|items|, i requires 0 <= i < |items| => f(items[i]))
  }

  function NetworkObject(adapters: seq<Network.NetworkAdapterInfo>): Json
  {
    JObject(map[
      "ethernet" := JArray(Objects(EthernetAdapters(adapters), AdapterObject)),
      "wifi" := JArray(Objects(WiFiAdapters(adapters), AdapterObject))])
  }

  // ---------------------------------------------------------------- Append*

  /** The root after an Append* call that contributes `value` under `section`, or nothing for None. */
  function Put(root: Document, section: Section, value: Option<Json>): Document
  {
    if value.None? then root else root[section := value.value]
  }

  /** What each Append* contributes: nothing for a null pointer, else the section's value. */
  function GpuValue(gpuList: Gpu.GPUList?): Option<Json>
    reads gpuList
  {
    if gpuList == null then None else Some(JArray(Objects(gpuList.gpus, GpuObject)))
  }

  function MotherboardValue(mbInfo: Option<MotherboardInfo>): Option<Json>
  {
    if mbInfo.None? then None else Some(MotherboardObject(mbInfo.value))
  }

  function CpuValue(cpuList: Cpu.CPUList?): Option<Json>
    reads cpuList
  {
    if cpuList == null then None else Some(JArray(Objects(cpuList.cpus, CpuObject)))
  }

  function MemoryValue(memInfo: Memory.MemoryInfo?): Option<Json>
    reads memInfo
  {
    if memInfo == null then None
    else Some(MemoryObject(memInfo.totalPhys, memInfo.availPhys, memInfo.usedPhys, memInfo.memoryLoad, memInfo.ramSlots))
  }

  function StorageValue(storageList: Storage.StorageList?): Option<Json>
    reads storageList
  {
    if storageList == null then None else Some(JArray(Objects(storageList.disks, DiskObject)))
  }

  function NetworkValue(networkList: Network.NetworkList?): Option<Json>
    reads networkList
  {
    if networkList == null then None else Some(NetworkObject(networkList.adapters))
  }

  function AudioValue(audioList: Option<seq<AudioDevice>>): Option<Json>
  {
    if audioList.None? then None else Some(JArray(Objects(audioList.value, AudioObject)))
  }

  function BatteryValue(batteryInfo: Battery.BatteryInfo?): Option<Json>
    reads batteryInfo
  {
    if batteryInfo == null then None
    else Some(BatteryObject(batteryInfo.isDesktop, batteryInfo.percent, batteryInfo.pluggedIn))
  }

  function MonitorsValue(monitorList: Monitors.MonitorList?): Option<Json>
    reads monitorList
  {
    if monitorList == null then None else Some(JArray(Objects(monitorList.monitors, MonitorObject)))
  }

  /**
   * AppendGpuInfo: nothing for a null list; otherwise "gpu" becomes an array with one object per
   * GPU, in list order.
   */
  method AppendGpuInfo(root: Document, gpuList: Gpu.GPUList?) returns (result: Document)
    ensures result == Put(root, GpuSection, GpuValue(gpuList))
  {
    if gpuList == null {
      return root;
    }
    var gpus := gpuList.gpus;
    var gpuArray: seq<Json> := [];
    for i := 0 to |gpus|
      invariant gpuArray == Objects(gpus[..i], GpuObject)
    {
      gpuArray := gpuArray + [GpuObject(gpus[i])];
    }
    assert gpus[..|gpus|] == gpus;
    result := root[GpuSection := JArray(gpuArray)];
  }

  method AppendMotherboardInfo(root: Document, mbInfo: Option<MotherboardInfo>) returns (result: Document)
    ensures result == Put(root, MotherboardSection, MotherboardValue(mbInfo))
  {
    if mbInfo.None? {
      return root;
    }
    result := root[MotherboardSection := MotherboardObject(mbInfo.value)];
  }

  method AppendCpuInfo(root: Document, cpuList: Cpu.CPUList?) returns (result: Document)
    ensures result == Put(root, CpuSection, CpuValue(cpuList))
  {
    if cpuList == null {
      return root;
    }
    var cpus := cpuList.cpus;
    var cpuArray: seq<Json> := [];
    for i := 0 to |cpus|
      invariant cpuArray == Objects(cpus[..i], CpuObject)
    {
      cpuArray := cpuArray + [CpuObject(cpus[i])];
    }
    assert cpus[..|cpus|] == cpus;
    result := root[CpuSection := JArray(cpuArray)];
  }

  /** The "memory" object of a MemoryInfo whose RAM slots are `slots`. */
  function MemoryObject(totalPhys: nat, availPhys: nat, usedPhys: nat, memoryLoad: nat, slots: seq<Memory.RAMSlotInfo>): Json
  {
    JObject(map[
      "total" := JGigabytes(totalPhys),
      "available" := JGigabytes(availPhys),
      "used" := JGigabytes(usedPhys),
      "usage_percent" := JInt(memoryLoad),
      "ram_slots" := JArray(Objects(slots, SlotObject))])
  }

  method AppendMemoryInfo(root: Document, memInfo: Memory.MemoryInfo?) returns (result: Document)
    ensures result == Put(root, MemorySection, MemoryValue(memInfo))
  {
    if memInfo == null {
      return root;
    }
    var slots := memInfo.ramSlots;
    var slotsArray: seq<Json> := [];
    for i := 0 to |slots|
      invariant slotsArray == Objects(slots[..i], SlotObject)
    {
      slotsArray := slotsArray + [SlotObject(slots[i])];
    }
    assert slots[..|slots|] == slots;
    var memObj := map[
      "total" := JGigabytes(memInfo.totalPhys),
      "available" := JGigabytes(memInfo.availPhys),
      "used" := JGigabytes(memInfo.usedPhys),
      "usage_percent" := JInt(memInfo.memoryLoad)];
    memObj := memObj["ram_slots" := JArray(slotsArray)];
    result := root[MemorySection := JObject(memObj)];
  }

  method AppendStorageInfo(root: Document, storageList: Storage.StorageList?) returns (result: Document)
    ensures result == Put(root, StorageSection, StorageValue(storageList))
  {
    if storageList == null {
      return root;
    }
    var disks := storageList.disks;
    var storageArray: seq<Json> := [];
    for i := 0 to |disks|
      invariant storageArray == Objects(disks[..i], DiskObject)
    {
      storageArray := storageArray + [DiskObject(disks[i])];
    }
    assert disks[..|disks|] == disks;
    result := root[StorageSection := JArray(storageArray)];
  }

  /**
   * AppendNetworkInfo: "network" always holds both arrays; a wired adapter goes to "ethernet",
   * else a wireless one to "wifi", else it is dropped.
   */
  method AppendNetworkInfo(root: Document, networkList: Network.NetworkList?) returns (result: Document)
    ensures result == Put(root, NetworkSection, NetworkValue(networkList))
  {
    if networkList == null {
      return root;
    }
    var adapters := networkList.adapters;
    var ethernetArray: seq<Json> := [];
    var wifiArray: seq<Json> := [];
    for i := 0 to |adapters|
      invariant ethernetArray == Objects(EthernetAdapters(adapters[..i]), AdapterObject)
      invariant wifiArray == Objects(WiFiAdapters(adapters[..i]), AdapterObject)
    {
      assert adapters[..i + 1][..i] == adapters[..i];
      var adapterObj := AdapterObject(adapters[i]);
      if adapters[i].IsEthernet() {
        ethernetArray := ethernetArray + [adapterObj];
      } else if adapters[i].IsWiFi() {
        wifiArray := wifiArray + [adapterObj];
      }
    }
    assert adapters[..|adapters|] == adapters;
    var networkObj := map["ethernet" := JArray(ethernetArray), "wifi" := JArray(wifiArray)];
    result := root[NetworkSection := JObject(networkObj)];
  }

  method AppendAudioInfo(root: Document, audioList: Option<seq<AudioDevice>>) returns (result: Document)
    ensures result == Put(root, AudioSection, AudioValue(audioList))
  {
    if audioList.None? {
      return root;
    }
    var devices := audioList.value;
    var audioArray: seq<Json> := [];
    for i := 0 to |devices|
      invariant audioArray == Objects(devices[..i], AudioObject)
    {
      audioArray := audioArray + [AudioObject(devices[i])];
    }
    assert devices[..|devices|] == devices;
    result := root[AudioSection := JArray(audioArray)];
  }

  function BatteryObject(isDesktop: bool, percent: int, pluggedIn: bool): Json
  {
    JObject(map["is_desktop" := JBool(isDesktop), "percent" := JInt(percent), "power_plugged" := JBool(pluggedIn)])
  }

  method AppendBatteryInfo(root: Document, batteryInfo: Battery.BatteryInfo?) returns (result: Document)
    ensures result == Put(root, BatterySection, BatteryValue(batteryInfo))
  {
    if batteryInfo == null {
      return root;
    }
    result := root[BatterySection := BatteryObject(batteryInfo.isDesktop, batteryInfo.percent, batteryInfo.pluggedIn)];
  }

  method AppendMonitorInfo(root: Document, monitorList: Monitors.MonitorList?) returns (result: Document)
    ensures result == Put(root, MonitorsSection, MonitorsValue(monitorList))
  {
    if monitorList == null {
      return root;
    }
    var monitors := monitorList.monitors;
    var monitorArray: seq<Json> := [];
    for i := 0 to |monitors|
      invariant monitorArray == Objects(monitors[..i], MonitorObject)
    {
      var deviceId := Monitors.GetDeviceId(monitors[i]);
      var monitorObj := MonitorObject(monitors[i]).fields["device_id" := JString(deviceId)];
      assert JObject(monitorObj) == MonitorObject(monitors[i]);
      monitorArray := monitorArray + [JObject(monitorObj)];
    }
    assert monitors[..|monitors|] == monitors;
    result := root[MonitorsSection := JArray(monitorArray)];
  }

  // ---------------------------------------------------------------- GenerateSystemInfo

  /** What the nine Append* calls of GenerateSystemInfo contribute, one optional value per section. */
  datatype Contributions = Contributions(gpu: Option<Json>, motherboard: Option<Json>, cpu: Option<Json>,
                                         memory: Option<Json>, storage: Option<Json>, network: Option<Json>,
                                         audio: Option<Json>, battery: Option<Json>, monitors: Option<Json>)
  {
    function Of(section: Section): Option<Json>
    {
      match section
      case GpuSection => gpu
      case MotherboardSection => motherboard
      case CpuSection => cpu
      case MemorySection => memory
      case StorageSection => storage
      case NetworkSection => network
      case AudioSection => audio
      case BatterySection => battery
      case MonitorsSection => monitors
    }
  }

  const AllSections: set<Section> := {GpuSection, MotherboardSection, CpuSection, MemorySection, StorageSection,
                                      NetworkSection, AudioSection, BatterySection, MonitorsSection}

  /** The document holding, for each of `sections`, the value contributed for it, if any. */
  function Assemble(c: Contributions, sections: set<Section>): Document
  {
    map section | section in sections && c.Of(section).Some? :: c.Of(section).value
  }

  /**
   * One Append* step: putting a section's contribution into the document assembled so far gives
   * the document assembled with that section added, whatever was there before.
   */
  lemma AssembleStep(c: Contributions, sections: set<Section>, section: Section)
    ensures Put(Assemble(c, sections), section, c.Of(section)) == Assemble(c, sections + {section})
  {
    var before := Assemble(c, sections);
    var after := Assemble(c, sections + {section});
    var put := Put(before, section, c.Of(section));
    assert forall s :: s in put <==> s in after;
    assert forall s :: s in put ==> put[s] == after[s];
  }

  /** The root GenerateSystemInfo builds: the nine contributions put in call order. */
  function SystemDocument(c: Contributions): Document
  {
    var root := Put(map[], GpuSection, c.gpu);
    var root := Put(root, MotherboardSection, c.motherboard);
    var root := Put(root, CpuSection, c.cpu);
    var root := Put(root, MemorySection, c.memory);
    var root := Put(root, StorageSection, c.storage);
    var root := Put(root, NetworkSection, c.network);
    var root := Put(root, AudioSection, c.audio);
    var root := Put(root, BatterySection, c.battery);
    Put(root, MonitorsSection, c.monitors)
  }

  /**
   * The document holds exactly the sections that contributed, each with its contribution: the
   * sections are distinct, so no Append* overwrites another one's key.
   */
  lemma SystemDocumentAssembled(c: Contributions)
    ensures SystemDocument(c) == Assemble(c, AllSections)
  {
    var done: set<Section> := {};
    assert map[] == Assemble(c, done);
    AssembleStep(c, done, GpuSection);
    done := done + {GpuSection};
    AssembleStep(c, done, MotherboardSection);
    done := done + {MotherboardSection};
    AssembleStep(c, done, CpuSection);
    done := done + {CpuSection};
    AssembleStep(c, done, MemorySection);
    done := done + {MemorySection};
    AssembleStep(c, done, StorageSection);
    done := done + {StorageSection};
    AssembleStep(c, done, NetworkSection);
    done := done + {NetworkSection};
    AssembleStep(c, done, AudioSection);
    done := done + {AudioSection};
    AssembleStep(c, done, BatterySection);
    done := done + {BatterySection};
    AssembleStep(c, done, MonitorsSection);
    done := done + {MonitorsSection};
    assert done == AllSections;
  }

  /** AllSections lists every section. */
  lemma AllSectionsListed(section: Section)
    ensures section in AllSections
  {
  }

  /**
   * A null section pointer leaves the root without that section's key; a non-null one contributes
   * its key, holding the value its Append* builds.
   */
  lemma SystemDocumentSections(c: Contributions, section: Section)
    ensures section in SystemDocument(c) <==> c.Of(section).Some?
    ensures section in SystemDocument(c) ==> SystemDocument(c)[section] == c.Of(section).value
  {
    SystemDocumentAssembled(c);
    AllSectionsListed(section);
  }

  /**
   * GenerateSystemInfo, up to the final dump: the root is the document of what each Append*
   * contributes (SystemDocumentSections says which sections it holds).
   */
  method GenerateSystemInfo(gpuList: Gpu.GPUList?, mbInfo: Option<MotherboardInfo>, cpuList: Cpu.CPUList?,
                            memInfo: Memory.MemoryInfo?, storageList: Storage.StorageList?,
                            networkList: Network.NetworkList?, audioList: Option<seq<AudioDevice>>,
                            batteryInfo: Battery.BatteryInfo?, monitorList: Monitors.MonitorList?)
    returns (root: Document)
    ensures root == SystemDocument(Contributions(GpuValue(gpuList), MotherboardValue(mbInfo), CpuValue(cpuList),
                                                 MemoryValue(memInfo), StorageValue(storageList),
                                                 NetworkValue(networkList), AudioValue(audioList),
                                                 BatteryValue(batteryInfo), MonitorsValue(monitorList)))
  {
    root := map[];
    root := AppendGpuInfo(root, gpuList);
    root := AppendMotherboardInfo(root, mbInfo);
    root := AppendCpuInfo(root, cpuList);
    root := AppendMemoryInfo(root, memInfo);
    root := AppendStorageInfo(root, storageList);
    root := AppendNetworkInfo(root, networkList);
    root := AppendAudioInfo(root, audioList);
    root := AppendBatteryInfo(root, batteryInfo);
    root := AppendMonitorInfo(root, monitorList);
  }
}
