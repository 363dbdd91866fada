/**
 * The storage collector of src/main/storage_info.cpp: the drive-type names, the model chosen for a
 * logical disk, ProcessLogicalDisk, and StorageList, which walks physical disks, their partitions
 * and the logical disks on each partition. The WMI enumerations are inputs; sizes, which the
 * source reads as floating point, are not part of this model.
 */
module Storage {

  import opened Wrappers
  import opened Text
  import opened Wmi

  datatype StorageError = Success | WMISessionFailed | QueryExecutionFailed | PropertyRetrievalFailed | InvalidParameter

  const UnknownStorageDevice: string := "Unknown Storage Device"
  const UnknownInterface: string := "Unknown"
  const UnknownDriveType: string := "Unknown"
  const NoDriveLetter: string := "N/A"

  /** The DRIVE_* codes GetDriveType reports and the names the collector gives them. */
  const KnownDriveTypes: seq<string> := ["Removable Disk", "Local Disk", "Network Drive", "CD/DVD Drive", "RAM Disk"]

  /** GetDriveTypeString: codes 2 to 6 have a name, everything else is "Unknown". */
  function GetDriveTypeString(driveType: UInt32): (r: string)
    ensures 2 <= driveType <= 6 ==> r == KnownDriveTypes[driveType - 2]
    ensures !(2 <= driveType <= 6) ==> r == UnknownDriveType
  {
    match driveType
    case 2 => "Removable Disk"
    case 3 => "Local Disk"
    case 4 => "Network Drive"
    case 5 => "CD/DVD Drive"
    case 6 => "RAM Disk"
    case _ => UnknownDriveType
  }

  /** The name determines the code: the five names differ from each other and from "Unknown". */
  lemma DriveTypeNamesDistinct(a: UInt32, b: UInt32)
    requires 2 <= a <= 6
    ensures GetDriveTypeString(a) != UnknownDriveType
    ensures GetDriveTypeString(a) == GetDriveTypeString(b) <==> a == b
  {
  }

  /** One logical disk as LogicalDiskInfo stores it, without the two sizes. */
  datatype LogicalDiskInfo = LogicalDiskInfo(driveLetter: string, driveType: string, model: string, interfaceType: string)

  /** The model of a logical disk: its volume name, else the physical disk's model, else "Unknown Storage Device". */
  function SelectModel(volumeName: string, physicalModel: string): (r: string)
    ensures r != []
    ensures volumeName != [] ==> r == volumeName
    ensures volumeName == [] && physicalModel != [] ==> r == physicalModel
    ensures volumeName == [] && physicalModel == [] ==> r == UnknownStorageDevice
  {
    var model := if volumeName == [] then physicalModel else volumeName;
    if model == [] then UnknownStorageDevice else model
  }

  /** The drive letter ProcessLogicalDisk reads: "N/A" when DeviceID is missing or empty. */
  function DriveLetter(logical: WmiObject): string
  {
    GetSafeProperty(Some(logical), "DeviceID", NoDriveLetter)
  }

  /** The drive-type name: "Unknown" unless the DriveType Get succeeds with a value other than VT_NULL. */
  function DriveType(logical: WmiObject): string
  {
    if "DriveType" in logical && logical["DriveType"].vt != VtNull then GetDriveTypeString(logical["DriveType"].low32)
    else UnknownDriveType
  }

  /** What ProcessLogicalDisk appends for one logical disk: nothing for drive letter "N/A", else one entry. */
  function LogicalEntry(logical: WmiObject, physicalModel: string, physicalInterface: string): seq<LogicalDiskInfo>
  {
    var driveLetter := DriveLetter(logical);
    if driveLetter == NoDriveLetter then []
    else
      var volumeName := GetSafeProperty(Some(logical), "VolumeName", "");
      [LogicalDiskInfo(driveLetter, DriveType(logical), SelectModel(volumeName, physicalModel), physicalInterface)]
  }

  /**
   * ProcessLogicalDisk: `disks` is the vector it is handed by reference, returned as `result`.
   * A drive letter of "N/A" leaves it unchanged; otherwise exactly one disk is appended.
   */
  method ProcessLogicalDisk(logical: WmiObject, physicalModel: string, physicalInterface: string, disks: seq<LogicalDiskInfo>)
    returns (result: seq<LogicalDiskInfo>)
    ensures result == disks + LogicalEntry(logical, physicalModel, physicalInterface)
    ensures DriveLetter(logical) == NoDriveLetter ==> result == disks
    ensures DriveLetter(logical) != NoDriveLetter ==>
              |result| == |disks| + 1 && result[..|disks|] == disks
              && result[|disks|].driveLetter == DriveLetter(logical)
              && result[|disks|].interfaceType == physicalInterface
              && result[|disks|].model == SelectModel(GetSafeProperty(Some(logical), "VolumeName", ""), physicalModel)
  {
    var driveLetter := GetSafeProperty(Some(logical), "DeviceID", NoDriveLetter);
    if driveLetter == NoDriveLetter {
      return disks;
    }
    var driveType := UnknownDriveType;
    if "DriveType" in logical && logical["DriveType"].vt != VtNull {
      driveType := GetDriveTypeString(logical["DriveType"].low32);
    }
    var volumeName := GetSafeProperty(Some(logical), "VolumeName", "");
    var model := if volumeName == [] then physicalModel else volumeName;
    if model == [] {
      model := UnknownStorageDevice;
    }
    result := disks + [LogicalDiskInfo(driveLetter, driveType, model, physicalInterface)];
  }

  /**
   * A partition as the walk sees it: its class object and what the association query for its
   * logical disks returned (None when ExecuteQuery gave no enumerator).
   */
  datatype Partition = Partition(obj: WmiObject, logicalDisks: Option<seq<WmiObject>>)

  /** A physical disk: its class object and what the association query for its partitions returned. */
  datatype DiskDrive = DiskDrive(obj: WmiObject, partitions: Option<seq<Partition>>)

  /** The association queries are only issued for an object whose DeviceID is a BSTR. */
  predicate HasBstrDeviceId(obj: WmiObject)
  {
    "DeviceID" in obj && obj["DeviceID"].vt == VtBstr
  }

  function LogicalEntries(logicals: seq<WmiObject>, physicalModel: string, physicalInterface: string): seq<LogicalDiskInfo>
  {
    if logicals == [] then []
    else LogicalEntries(logicals[..|logicals| - 1], physicalModel, physicalInterface)
         + LogicalEntry(logicals[|logicals| - 1], physicalModel, physicalInterface)
  }

  function PartitionEntry(partition: Partition, physicalModel: string, physicalInterface: string): seq<LogicalDiskInfo>
  {
    if HasBstrDeviceId(partition.obj) && partition.logicalDisks.Some? then
      LogicalEntries(partition.logicalDisks.value, physicalModel, physicalInterface)
    else []
  }

  function PartitionEntries(partitions: seq<Partition>, physicalModel: string, physicalInterface: string): seq<LogicalDiskInfo>
  {
    if partitions == [] then []
    else PartitionEntries(partitions[..|partitions| - 1], physicalModel, physicalInterface)
         + PartitionEntry(partitions[|partitions| - 1], physicalModel, physicalInterface)
  }

  /** The model and interface type a physical disk lends its logical disks. */
  function DiskModel(drive: DiskDrive): string
  {
    GetSafeProperty(Some(drive.obj), "Model", UnknownStorageDevice)
  }

  function DiskInterface(drive: DiskDrive): string
  {
    GetSafeProperty(Some(drive.obj), "InterfaceType", UnknownInterface)
  }

  function DiskEntry(drive: DiskDrive): seq<LogicalDiskInfo>
  {
    if HasBstrDeviceId(drive.obj) && drive.partitions.Some? then
      PartitionEntries(drive.partitions.value, DiskModel(drive), DiskInterface(drive))
    else []
  }

  /** Every logical disk the walk over `drives` stores, in enumeration order. */
  function DiskEntries(drives: seq<DiskDrive>): seq<LogicalDiskInfo>
  {
    if drives == [] then []
    else DiskEntries(drives[..|drives| - 1]) + DiskEntry(drives[|drives| - 1])
  }

  /** What every stored logical disk looks like. */
  predicate WellFormed(disk: LogicalDiskInfo)
  {
    && disk.driveLetter != [] && disk.driveLetter != NoDriveLetter
    && disk.model != []
    && disk.interfaceType != []
    && (disk.driveType == UnknownDriveType || disk.driveType in KnownDriveTypes)
  }

  lemma LogicalEntryWellFormed(logical: WmiObject, physicalModel: string, physicalInterface: string)
    requires physicalInterface != []
    ensures forall d :: d in LogicalEntry(logical, physicalModel, physicalInterface) ==> WellFormed(d)
  {
    if "DriveType" in logical && logical["DriveType"].vt != VtNull {
      var code := logical["DriveType"].low32;
      if 2 <= code <= 6 {
        assert KnownDriveTypes[code - 2] in KnownDriveTypes;
      }
    }
  }

  lemma {:induction false} LogicalEntriesWellFormed(logicals: seq<WmiObject>, physicalModel: string, physicalInterface: string)
    requires physicalInterface != []
    ensures forall d :: d in LogicalEntries(logicals, physicalModel, physicalInterface) ==> WellFormed(d)
    decreases |logicals|
  {
    if logicals != [] {
      LogicalEntriesWellFormed(logicals[..|logicals| - 1], physicalModel, physicalInterface);
      LogicalEntryWellFormed(logicals[|logicals| - 1], physicalModel, physicalInterface);
    }
  }

  lemma {:induction false} PartitionEntriesWellFormed(partitions: seq<Partition>, physicalModel: string, physicalInterface: string)
    requires physicalInterface != []
    ensures forall d :: d in PartitionEntries(partitions, physicalModel, physicalInterface) ==> WellFormed(d)
    decreases |partitions|
  {
    if partitions != [] {
      PartitionEntriesWellFormed(partitions[..|partitions| - 1], physicalModel, physicalInterface);
      var last := partitions[|partitions| - 1];
      if HasBstrDeviceId(last.obj) && last.logicalDisks.Some? {
        LogicalEntriesWellFormed(last.logicalDisks.value, physicalModel, physicalInterface);
      }
    }
  }

  /**
   * Every stored disk has a real drive letter (never "N/A"), a non-empty model, a non-empty
   * interface type (the physical disk's, or "Unknown") and one of the six drive-type names.
   */
  lemma {:induction false} DiskEntriesWellFormed(drives: seq<DiskDrive>)
    ensures forall d :: d in DiskEntries(drives) ==> WellFormed(d)
    decreases |drives|
  {
    if drives != [] {
      DiskEntriesWellFormed(drives[..|drives| - 1]);
      var last := drives[|drives| - 1];
      if HasBstrDeviceId(last.obj) && last.partitions.Some? {
        PartitionEntriesWellFormed(last.partitions.value, DiskModel(last), DiskInterface(last));
      }
    }
  }

  class StorageList {
    var disks: seq<LogicalDiskInfo>
    var initialized: bool
    var lastError: StorageError

    /** StorageList(): default members, then Initialize. */
    constructor (sessionOk: bool, drives: Option<seq<DiskDrive>>, thrown: bool)
      ensures Outcome(sessionOk, drives, thrown, [], false) == (disks, initialized, lastError)
    {
      disks := [];
      initialized := false;
      lastError := Success;
      new;
      Initialize(sessionOk, drives, thrown);
    }

    /** The members after Initialize, from the members before it. */
    static function Outcome(sessionOk: bool, drives: Option<seq<DiskDrive>>, thrown: bool,
                            disks: seq<LogicalDiskInfo>, initialized: bool): (seq<LogicalDiskInfo>, bool, StorageError)
    {
      if !sessionOk then (disks, initialized, WMISessionFailed)
      else if drives.None? then (disks, initialized, QueryExecutionFailed)
      else if thrown then ([], initialized, PropertyRetrievalFailed)
      else (disks + DiskEntries(drives.value), true, Success)
    }

    /**
     * Initialize: `sessionOk` is whether the WMI session came up, `drives` what the
     * Win32_DiskDrive query enumerated (None for no enumerator), and `thrown` whether an exception
     * reached the outer handler, which clears the list wherever it was thrown. The list is
     * appended to, not cleared.
     */
    method Initialize(sessionOk: bool, drives: Option<seq<DiskDrive>>, thrown: bool)
      modifies this
      ensures (disks, initialized, lastError) == Outcome(sessionOk, drives, thrown, old(disks), old(initialized))
    {
      if !sessionOk {
        lastError := WMISessionFailed;
        return;
      }
      if drives.None? {
        lastError := QueryExecutionFailed;
        return;
      }
      if thrown {
        lastError := PropertyRetrievalFailed;
        disks := [];
        return;
      }
      var all := drives.value;
      var i := 0;
      while i < |all|
        invariant 0 <= i <= |all|
        invariant disks == old(disks) + DiskEntries(all[..i])
        decreases |all| - i
      {
        var drive := all[i];
        var model := DiskModel(drive);
        var interfaceType := DiskInterface(drive);
        ghost var entry := DiskEntry(drive);
        if HasBstrDeviceId(drive.obj) && drive.partitions.Some? {
          disks := ProcessPartitions(drive.partitions.value, model, interfaceType, disks);
        }
        assert disks == old(disks) + DiskEntries(all[..i]) + entry;
        DiskEntriesStep(old(disks), all, i);
        i := i + 1;
      }
      assert all[..i] == all;
      initialized := true;
      lastError := Success;
    }

    /** GetCount. */
    method GetCount() returns (count: nat)
      ensures count == |disks|
    {
      return |disks|;
    }

    /** GetDisk: the disk at `index`, or None (nullptr) past the end. */
    method GetDisk(index: nat) returns (disk: Option<LogicalDiskInfo>)
      ensures disk.Some? <==> index < |disks|
      ensures disk.Some? ==> disk.value == disks[index]
    {
      if index < |disks| {
        return Some(disks[index]);
      }
      return None;
    }
  }

  lemma DiskEntriesStep(before: seq<LogicalDiskInfo>, drives: seq<DiskDrive>, i: nat)
    requires i < |drives|
    ensures before + DiskEntries(drives[..i + 1]) == before + DiskEntries(drives[..i]) + DiskEntry(drives[i])
  {
    assert drives[..i + 1][..i] == drives[..i];
  }

  lemma PartitionEntriesStep(before: seq<LogicalDiskInfo>, partitions: seq<Partition>, j: nat, physicalModel: string, physicalInterface: string)
    requires j < |partitions|
    ensures before + PartitionEntries(partitions[..j + 1], physicalModel, physicalInterface)
            == before + PartitionEntries(partitions[..j], physicalModel, physicalInterface) + PartitionEntry(partitions[j], physicalModel, physicalInterface)
  {
    assert partitions[..j + 1][..j] == partitions[..j];
  }

  lemma LogicalEntriesStep(before: seq<LogicalDiskInfo>, logicals: seq<WmiObject>, k: nat, physicalModel: string, physicalInterface: string)
    requires k < |logicals|
    ensures before + LogicalEntries(logicals[..k + 1], physicalModel, physicalInterface)
            == before + LogicalEntries(logicals[..k], physicalModel, physicalInterface) + LogicalEntry(logicals[k], physicalModel, physicalInterface)
  {
    assert logicals[..k + 1][..k] == logicals[..k];
  }

  /** The partition loop of StorageList::Initialize for one physical disk. */
  method ProcessPartitions(partitions: seq<Partition>, physicalModel: string, physicalInterface: string, disks: seq<LogicalDiskInfo>)
    returns (result: seq<LogicalDiskInfo>)
    ensures result == disks + PartitionEntries(partitions, physicalModel, physicalInterface)
  {
    result := disks;
    var j := 0;
    while j < |partitions|
      invariant 0 <= j <= |partitions|
      invariant result == disks + PartitionEntries(partitions[..j], physicalModel, physicalInterface)
      decreases |partitions| - j
    {
      var partition := partitions[j];
      ghost var entry := PartitionEntry(partition, physicalModel, physicalInterface);
      if HasBstrDeviceId(partition.obj) && partition.logicalDisks.Some? {
        result := ProcessLogicalDisks(partition.logicalDisks.value, physicalModel, physicalInterface, result);
      }
      assert result == disks + PartitionEntries(partitions[..j], physicalModel, physicalInterface) + entry;
      PartitionEntriesStep(disks, partitions, j, physicalModel, physicalInterface);
      j := j + 1;
    }
    assert partitions[..j] == partitions;
  }

  /** The logical-disk loop of StorageList::Initialize for one partition. */
  method ProcessLogicalDisks(logicals: seq<WmiObject>, physicalModel: string, physicalInterface: string, disks: seq<LogicalDiskInfo>)
    returns (result: seq<LogicalDiskInfo>)
    ensures result == disks + LogicalEntries(logicals, physicalModel, physicalInterface)
  {
    result := disks;
    var k := 0;
    while k < |logicals|
      invariant 0 <= k <= |logicals|
      invariant result == disks + LogicalEntries(logicals[..k], physicalModel, physicalInterface)
      decreases |logicals| - k
    {
      result := ProcessLogicalDisk(logicals[k], physicalModel, physicalInterface, result);
      LogicalEntriesStep(disks, logicals, k, physicalModel, physicalInterface);
      k := k + 1;
    }
    assert logicals[..k] == logicals;
  }
}
