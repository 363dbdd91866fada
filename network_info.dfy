/**
 * The network collector of src/main/network_info.cpp: MAC formatting, the IP validity test, the
 * system-adapter filter, the adapter classification and NetworkList. The adapter chain that
 * GetAdaptersInfo returns is an input, one AdapterRecord per IP_ADAPTER_INFO in chain order.
 */
module Network {

  import opened Wrappers
  import opened Text

  /** NetworkError of include/nysys/main/network_info.hpp. */
  datatype NetworkError = Success | AdapterInfoFailed | MemoryAllocationFailed | BufferOverflow | InvalidParameter

  const NoIpAddress := "N/A"
  const NotConnected := "Not Connected"
  const Connected := "Connected"
  const UnassignedIpAddress := "0.0.0.0"

  /** MIB_IF_TYPE_ETHERNET and IF_TYPE_IEEE80211. */
  const EthernetType := 6
  const WiFiType := 71

  // ---------------------------------------------------------------- MAC address

  /** One uppercase hexadecimal digit. */
  function HexDigit(d: bv8): (c: char)
    requires d < 16
  {
    if d < 10 then (('0' as int) + d as int) as char else (('A' as int) + d as int - 10) as char
  }

  /** The value of an uppercase hexadecimal digit. */
  function HexValue(c: char): int
  {
    if '0' <= c <= '9' then c as int - '0' as int
    else if 'A' <= c <= 'F' then c as int - 'A' as int + 10
    else -1
  }

  /** A byte as `std::hex << std::uppercase << std::setw(2) << std::setfill('0')` writes it. */
  function HexByte(b: bv8): (r: string)
    ensures |r| == 2
  {
    [HexDigit(b >> 4), HexDigit(b & 0x0F)]
  }

  /** The two digits read back give the byte. */
  lemma HexByteReadsBack(b: bv8)
    ensures HexValue(HexByte(b)[0]) * 16 + HexValue(HexByte(b)[1]) == b as int
    ensures ':' !in HexByte(b)
  {
    assert (b >> 4) as int * 16 + (b & 0x0F) as int == b as int;
  }

  /** The MAC text of a non-empty address: the byte groups joined by ':'. */
  function MacText(address: seq<bv8>): string
  {
    if address == [] then []
    else if |address| == 1 then HexByte(address[0])
    else MacText(address[..|address| - 1]) + ":" + HexByte(address[|address| - 1])
  }

  /** The text has 3n-1 characters: group i at 3i, and a ':' after every group but the last. */
  lemma {:induction false} MacTextLayout(address: seq<bv8>)
    requires |address| > 0
    ensures |MacText(address)| == 3 * |address| - 1
    ensures forall i :: 0 <= i < |address| ==> MacText(address)[3 * i..3 * i + 2] == HexByte(address[i])
    ensures forall i :: 0 <= i < |address| - 1 ==> MacText(address)[3 * i + 2] == ':'
    decreases |address|
  {
    if |address| > 1 {
      var n := |address|;
      var prefix := address[..n - 1];
      MacTextLayout(prefix);
      var p := MacText(prefix);
      var h := HexByte(address[n - 1]);
      var t := MacText(address);
      assert t == p + ":" + h;
      assert |p| == 3 * n - 4;
      forall i | 0 <= i < n
        ensures t[3 * i..3 * i + 2] == HexByte(address[i])
      {
        if i < n - 1 {
          assert prefix[i] == address[i];
          assert t[3 * i..3 * i + 2] == p[3 * i..3 * i + 2];
        } else {
          assert t[3 * i..3 * i + 2] == h;
        }
      }
      forall i | 0 <= i < n - 1
        ensures t[3 * i + 2] == ':'
      {
        if i < n - 2 {
          assert t[3 * i + 2] == p[3 * i + 2];
        } else {
          assert t[3 * i + 2] == t[|p|];
        }
      }
    }
  }

  /** Two addresses with the same MAC text are the same address. */
  lemma MacTextInjective(a: seq<bv8>, b: seq<bv8>)
    requires |a| > 0 && |b| > 0 && MacText(a) == MacText(b)
    ensures a == b
  {
    MacTextLayout(a);
    MacTextLayout(b);
    forall i | 0 <= i < |a|
      ensures a[i] == b[i]
    {
      assert HexByte(a[i]) == MacText(a)[3 * i..3 * i + 2];
      assert HexByte(b[i]) == MacText(b)[3 * i..3 * i + 2];
      HexByteInjective(a[i], b[i]);
    }
  }

  lemma HexByteInjective(x: bv8, y: bv8)
    requires HexByte(x) == HexByte(y)
    ensures x == y
  {
    HexByteReadsBack(x);
    HexByteReadsBack(y);
  }

  /**
   * FormatMacAddress: "" for a null address or zero length, otherwise the first `length` bytes
   * as uppercase hex pairs separated by ':'.
   */
  method FormatMacAddress(address: Option<seq<bv8>>, length: nat) returns (text: string)
    requires address.Some? ==> length <= |address.value|
    ensures address.None? || length == 0 ==> text == []
    ensures address.Some? && length > 0 ==> text == MacText(address.value[..length])
  {
    if address.None? || length == 0 {
      return [];
    }
    var bytes := address.value;
    text := [];
    var i := 0;
    while i < length
      invariant 0 <= i <= length
      invariant text == MacText(bytes[..i])
      decreases length - i
    {
      if i > 0 {
        text := text + [':'];
      }
      text := text + HexByte(bytes[i]);
      assert bytes[..i + 1][..i] == bytes[..i];
      i := i + 1;
    }
  }

  // ---------------------------------------------------------------- IP address and filter

  /** IsValidIpAddress: a non-null address other than "0.0.0.0". */
  predicate IsValidIpAddress(ip: Option<string>)
  {
    ip.Some? && ip.value != UnassignedIpAddress
  }

  const SystemAdapterMarkers: seq<string> := ["virtual", "pseudo", "loopback", "microsoft"]

  /** IsSystemAdapter: the lowercased description mentions a virtual, pseudo, loopback or Microsoft adapter. */
  predicate IsSystemAdapter(description: string)
  {
    if description == [] then false
    else
      var lower := ToLower(description);
      Contains(lower, "virtual") || Contains(lower, "pseudo") || Contains(lower, "loopback") || Contains(lower, "microsoft")
  }

  lemma ToLowerIdempotent(s: string)
    ensures ToLower(ToLower(s)) == ToLower(s)
  {
  }

  /** The filter ignores letter case: descriptions equal up to case are filtered alike. */
  lemma IsSystemAdapterIgnoresCase(d1: string, d2: string)
    requires ToLower(d1) == ToLower(d2)
    ensures IsSystemAdapter(d1) == IsSystemAdapter(d2)
    ensures IsSystemAdapter(d1) == IsSystemAdapter(ToLower(d1))
  {
    ToLowerIdempotent(d1);
    assert |d1| == |ToLower(d1)| == |d2|;
  }

  /** The filter holds exactly when one of the four markers occurs in the lowercased description. */
  lemma IsSystemAdapterMarkers(description: string)
    ensures IsSystemAdapter(description) <==>
              exists k :: 0 <= k < |SystemAdapterMarkers| && Contains(ToLower(description), SystemAdapterMarkers[k])
  {
    if description == [] {
      forall k | 0 <= k < |SystemAdapterMarkers|
        ensures !Contains(ToLower(description), SystemAdapterMarkers[k])
      {
        assert |SystemAdapterMarkers[k]| > 0;
      }
    } else if IsSystemAdapter(description) {
      var lower := ToLower(description);
      if Contains(lower, "virtual") { assert SystemAdapterMarkers[0] == "virtual"; }
      else if Contains(lower, "pseudo") { assert SystemAdapterMarkers[1] == "pseudo"; }
      else if Contains(lower, "loopback") { assert SystemAdapterMarkers[2] == "loopback"; }
      else { assert SystemAdapterMarkers[3] == "microsoft"; }
    }
  }

  // ---------------------------------------------------------------- adapters

  /** A NetworkAdapterInfo. */
  datatype NetworkAdapterInfo = NetworkAdapterInfo(name: string, macAddress: string, ipAddress: string, status: string, adapterType: UInt32)
  {
    predicate IsEthernet() { adapterType == EthernetType }
    predicate IsWiFi() { adapterType == WiFiType }
  }

  /** An adapter is never classified as both wired and wireless. */
  lemma EthernetAndWiFiExclusive(adapter: NetworkAdapterInfo)
    ensures !(adapter.IsEthernet() && adapter.IsWiFi())
  {
  }

  /**
   * One IP_ADAPTER_INFO: its Description, the first AddressLength bytes of Address, the first
   * address of IpAddressList and Type. Description is a fixed-size char array, never null, so the
   * "Unknown Adapter" fallback of src/main/network_info.cpp:90 is never taken and is not modelled.
   */
  datatype AdapterRecord = AdapterRecord(description: string, address: seq<bv8>, ipAddress: string, adapterType: UInt32)

  /** The IP address and status stored for an adapter. */
  function Connection(ip: Option<string>): (r: (string, string))
    ensures r.1 == Connected <==> IsValidIpAddress(ip)
    ensures IsValidIpAddress(ip) ==> r.0 == ip.value
    ensures !IsValidIpAddress(ip) ==> r == (NoIpAddress, NotConnected)
  {
    if IsValidIpAddress(ip) then (ip.value, Connected) else (NoIpAddress, NotConnected)
  }

  /** The NetworkAdapterInfo Initialize stores for a kept adapter. */
  function Describe(r: AdapterRecord): NetworkAdapterInfo
  {
    var (ip, status) := Connection(Some(r.ipAddress));
    NetworkAdapterInfo(r.description, MacText(r.address), ip, status, r.adapterType)
  }

  /** The adapters Initialize keeps from a chain, in chain order. */
  function Kept(records: seq<AdapterRecord>): seq<NetworkAdapterInfo>
  {
    if records == [] then []
    else Kept(records[..|records| - 1]) + (if IsSystemAdapter(records[|records| - 1].description) then [] else [Describe(records[|records| - 1])])
  }

  lemma {:induction false} KeptAppend(a: seq<AdapterRecord>, b: seq<AdapterRecord>)
    ensures Kept(a + b) == Kept(a) + Kept(b)
    decreases |b|
  {
    if b == [] {
      assert a + b == a;
    } else {
      assert (a + b)[..|a + b| - 1] == a + b[..|b| - 1];
      KeptAppend(a, b[..|b| - 1]);
    }
  }

  /** Kept retains exactly the non-system adapters: none of them is a system adapter and every other one appears. */
  lemma {:induction false} KeptExactlyNonSystem(records: seq<AdapterRecord>)
    ensures forall a :: a in Kept(records) ==> !IsSystemAdapter(a.name)
    ensures forall i :: 0 <= i < |records| && !IsSystemAdapter(records[i].description) ==> Describe(records[i]) in Kept(records)
    ensures |Kept(records)| <= |records|
    decreases |records|
  {
    if records != [] {
      var prefix := records[..|records| - 1];
      KeptExactlyNonSystem(prefix);
      forall i | 0 <= i < |records| - 1
        ensures records[i] == prefix[i]
      {
      }
    }
  }

  class NetworkList {
    var adapters: seq<NetworkAdapterInfo>
    var initialized: bool
    var lastError: NetworkError

    /** NetworkList(): default members, then Initialize. */
    constructor (chain: Option<seq<AdapterRecord>>)
      ensures chain.Some? ==> adapters == Kept(chain.value) && initialized && lastError == Success
      ensures chain.None? ==> adapters == [] && !initialized && lastError == AdapterInfoFailed
    {
      adapters := [];
      initialized := false;
      lastError := Success;
      new;
      Initialize(chain);
    }

    /**
     * Initialize: `chain` is what GetAdaptersInfo returned after the buffer-overflow retry, or
     * None when it failed. The list is appended to, not cleared.
     */
    method Initialize(chain: Option<seq<AdapterRecord>>)
      modifies this
      ensures chain.None? ==> adapters == old(adapters) && initialized == old(initialized) && lastError == AdapterInfoFailed
      ensures chain.Some? ==> adapters == old(adapters) + Kept(chain.value) && initialized && lastError == Success
    {
      if chain.None? {
        lastError := AdapterInfoFailed;
        return;
      }
      var records := chain.value;
      var i := 0;
      while i < |records|
        invariant 0 <= i <= |records|
        invariant adapters == old(adapters) + Kept(records[..i])
        decreases |records| - i
      {
        var adapter := records[i];
        if !IsSystemAdapter(adapter.description) {
          var macAddress := FormatMacAddress(Some(adapter.address), |adapter.address|);
          var ipAddress := NoIpAddress;
          var status := NotConnected;
          if IsValidIpAddress(Some(adapter.ipAddress)) {
            ipAddress := adapter.ipAddress;
            status := Connected;
          }
          assert adapter.address[..|adapter.address|] == adapter.address;
          adapters := adapters + [NetworkAdapterInfo(adapter.description, macAddress, ipAddress, status, adapter.adapterType)];
        }
        assert records[..i + 1][..i] == records[..i];
        i := i + 1;
      }
      assert records[..i] == records;
      initialized := true;
      lastError := Success;
    }

    /** GetCount. */
    method GetCount() returns (count: nat)
      ensures count == |adapters|
    {
      return |adapters|;
    }

    /** GetAdapter: the adapter at `index`, or None (nullptr) past the end. */
    method GetAdapter(index: nat) returns (adapter: Option<NetworkAdapterInfo>)
      ensures adapter.Some? <==> index < |adapters|
      ensures adapter.Some? ==> adapter.value == adapters[index]
    {
      if index < |adapters| {
        return Some(adapters[index]);
      }
      return None;
    }
  }
}
