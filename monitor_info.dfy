/**
 * The monitor collector of src/main/monitor_info.cpp: the bounds clamp, device-id escaping,
 * manufacturer extraction, aspect-ratio reduction, resolution strings, the EDID image-size
 * decode and MonitorList. What Windows reports (GetMonitorInfoA, EnumDisplayDevicesA,
 * EnumDisplaySettingsA, the SetupAPI interface walk and the registry EDID value) is an input.
 */
module Monitors {

  import opened Wrappers
  import opened Text

  /** MonitorError of include/nysys/main/monitor_info.hpp. */
  datatype MonitorError =
    | Success
    | EnumerationFailed
    | DeviceInfoFailed
    | RegistryAccessFailed
    | EdidRetrievalFailed
    | InvalidParameter

  const UnknownManufacturer := "Unknown"
  const DefaultAspectRatio := "0:0"
  const DefaultResolution := "Unknown"
  const UnknownDeviceId := "Unknown"

  const MaxDimension := 32767
  const FallbackWidth := 1920
  const FallbackHeight := 1080
  const MaxRefreshRate := 1000
  const FallbackRefreshRate := 60

  /**
   * The screen size text: empty before it is set, "Unknown" (kDefaultScreenSize), or the diagonal
   * of a physical size, whose "x.y inch" rendering is floating point and is not modelled.
   */
  datatype ScreenSize = UnsetScreenSize | UnknownScreenSize | DiagonalOf(widthMm: int, heightMm: int)

  /** The fields of a MonitorInfo; the object is copied into the list by value. */
  datatype MonitorInfo = MonitorInfo(
    width: int,
    height: int,
    isPrimary: bool,
    deviceId: string,
    manufacturer: string,
    aspectRatio: string,
    nativeResolution: string,
    refreshRate: int,
    currentResolution: string,
    physicalWidthMm: int,
    physicalHeightMm: int,
    screenSize: ScreenSize)

  /** The default member initialisers of MonitorInfo. */
  const DefaultMonitorInfo := MonitorInfo(0, 0, false, "", "", "", "", 0, "", 0, 0, UnsetScreenSize)

  // ---------------------------------------------------------------- clamp

  /** SafeNumericConversion: the value when it lies in [minValue, maxValue], else the fallback. */
  function SafeNumericConversion(value: int, minValue: int, maxValue: int, fallback: int): (r: int)
    ensures minValue <= value <= maxValue ==> r == value
    ensures !(minValue <= value <= maxValue) ==> r == fallback
    ensures minValue <= fallback <= maxValue ==> minValue <= r <= maxValue
  {
    if value >= minValue && value <= maxValue then value else fallback
  }

  // ---------------------------------------------------------------- device id

  /** The device id with every backslash doubled, read one character at a time. */
  function Escape(s: string): string
  {
    if s == [] then [] else (if s[0] == '\\' then "\\\\" else [s[0]]) + Escape(s[1..])
  }

  /** Undoes Escape: a doubled backslash becomes one. */
  function Unescape(s: string): string
    decreases |s|
  {
    if s == [] then []
    else if |s| >= 2 && s[0] == '\\' && s[1] == '\\' then "\\" + Unescape(s[2..])
    else [s[0]] + Unescape(s[1..])
  }

  lemma {:induction false} EscapeAppend(a: string, b: string)
    ensures Escape(a + b) == Escape(a) + Escape(b)
    decreases |a|
  {
    if a == [] {
      assert a + b == b;
    } else {
      assert (a + b)[1..] == a[1..] + b;
      EscapeAppend(a[1..], b);
    }
  }

  lemma {:induction false} EscapeWithoutBackslash(s: string)
    requires forall i :: 0 <= i < |s| ==> s[i] != '\\'
    ensures Escape(s) == s
    decreases |s|
  {
    if s != [] {
      EscapeWithoutBackslash(s[1..]);
    }
  }

  /** Un-doubling recovers the stored id. */
  lemma {:induction false} UnescapeEscape(s: string)
    ensures Unescape(Escape(s)) == s
    decreases |s|
  {
    if s != [] {
      UnescapeEscape(s[1..]);
      if s[0] == '\\' {
        assert Escape(s) == "\\\\" + Escape(s[1..]);
        assert (Escape(s))[2..] == Escape(s[1..]);
      } else {
        assert Escape(s) == [s[0]] + Escape(s[1..]);
        assert (Escape(s))[1..] == Escape(s[1..]);
      }
    }
  }

  /** The escaped id is longer by exactly the number of backslashes. */
  lemma {:induction false} EscapeLength(s: string)
    ensures |Escape(s)| == |s| + CountChar(s, '\\')
    decreases |s|
  {
    if s != [] {
      EscapeLength(s[1..]);
      CountCharAppend([s[0]], s[1..], '\\');
      assert [s[0]] + s[1..] == s;
    }
  }

  /** Escaping changes nothing but the backslashes: removing them from both sides gives the same text. */
  function WithoutBackslashes(s: string): string
  {
    if s == [] then [] else (if s[0] == '\\' then [] else [s[0]]) + WithoutBackslashes(s[1..])
  }

  lemma {:induction false} EscapeKeepsOtherCharacters(s: string)
    ensures WithoutBackslashes(Escape(s)) == WithoutBackslashes(s)
    decreases |s|
  {
    if s != [] {
      EscapeKeepsOtherCharacters(s[1..]);
      WithoutBackslashesAppend(if s[0] == '\\' then "\\\\" else [s[0]], Escape(s[1..]));
    }
  }

  lemma {:induction false} WithoutBackslashesAppend(a: string, b: string)
    ensures WithoutBackslashes(a + b) == WithoutBackslashes(a) + WithoutBackslashes(b)
    decreases |a|
  {
    if a == [] {
      assert a + b == b;
    } else {
      assert (a + b)[1..] == a[1..] + b;
      WithoutBackslashesAppend(a[1..], b);
    }
  }

  /** One replacement of the loop: the backslash at k + j is the first at or after k. */
  lemma EscapePrefixStep(id: string, k: nat, j: nat)
    requires k + j < |id| && id[k + j] == '\\'
    requires forall t :: k <= t < k + j ==> id[t] != '\\'
    ensures Escape(id[..k + j + 1]) == Escape(id[..k]) + id[k..k + j] + "\\\\"
  {
    assert id[..k + j + 1] == id[..k] + id[k..k + j] + [id[k + j]];
    EscapeAppend(id[..k] + id[k..k + j], [id[k + j]]);
    EscapeAppend(id[..k], id[k..k + j]);
    EscapeWithoutBackslash(id[k..k + j]);
    assert Escape([id[k + j]]) == "\\\\" + Escape([]);
  }

  /** The loop state of GetDeviceId: the first k characters of the id are escaped, the search resumes at pos. */
  predicate EscapedUpTo(id: string, k: nat, escaped: string, pos: nat)
  {
    k <= |id| && escaped == Escape(id[..k]) + id[k..] && pos == |Escape(id[..k])|
  }

  /** Replacing the backslash the search found at p keeps the loop state, one source character further on. */
  lemma EscapeLoopStep(id: string, k: nat, escaped: string, pos: nat, p: nat)
    requires EscapedUpTo(id, k, escaped, pos)
    requires pos <= p < |escaped| && escaped[p] == '\\'
    requires forall t :: pos <= t < p ==> escaped[t] != '\\'
    ensures k + (p - pos) + 1 <= |id|
    ensures EscapedUpTo(id, k + (p - pos) + 1, escaped[..p] + "\\\\" + escaped[p + 1..], p + 2)
  {
    var j := p - pos;
    assert escaped[pos..] == id[k..];
    assert id[k + j] == '\\' by {
      assert escaped[p] == escaped[pos..][j];
    }
    forall t | k <= t < k + j
      ensures id[t] != '\\'
    {
      assert escaped[pos + (t - k)] == escaped[pos..][t - k];
    }
    EscapePrefixStep(id, k, j);
    assert escaped[..p] == Escape(id[..k]) + id[k..k + j];
    assert escaped[p + 1..] == id[k + j + 1..];
  }

  /** When the search finds no further backslash, the whole id is escaped. */
  lemma EscapeLoopDone(id: string, k: nat, escaped: string, pos: nat)
    requires EscapedUpTo(id, k, escaped, pos)
    requires forall t :: pos <= t < |escaped| ==> escaped[t] != '\\'
    ensures escaped == Escape(id)
  {
    assert escaped[pos..] == id[k..];
    forall t | 0 <= t < |id[k..]|
      ensures id[k..][t] != '\\'
    {
      assert escaped[pos + t] == escaped[pos..][t];
    }
    EscapeWithoutBackslash(id[k..]);
    EscapeAppend(id[..k], id[k..]);
    assert id[..k] + id[k..] == id;
  }

  /** MonitorInfo::GetDeviceId: the find/replace loop that doubles every backslash. */
  method GetDeviceId(monitor: MonitorInfo) returns (escapedId: string)
    ensures escapedId == Escape(monitor.deviceId)
  {
    var id := monitor.deviceId;
    escapedId := id;
    var pos: nat := 0;
    ghost var k: nat := 0;
    while true
      invariant EscapedUpTo(id, k, escapedId, pos)
      decreases |id| - k
    {
      var found := FindChar(escapedId, '\\', pos);
      if found.None? {
        EscapeLoopDone(id, k, escapedId, pos);
        return;
      }
      var p := found.value;
      EscapeLoopStep(id, k, escapedId, pos, p);
      k := k + (p - pos) + 1;
      escapedId := escapedId[..p] + "\\\\" + escapedId[p + 1..];
      pos := p + 2;
    }
  }

  // ---------------------------------------------------------------- manufacturer

  /** The manufacturer read from a DeviceID such as MONITOR\ABC1234\{...}. */
  function Manufacturer(deviceId: string): string
  {
    match FindChar(deviceId, '\\', 0)
    case None => UnknownManufacturer
    case Some(start) =>
      match FindChar(deviceId, '\\', start + 1)
      case None => UnknownManufacturer
      case Some(end) => deviceId[start + 1..end]
  }

  /** The text strictly between the first two backslashes, or "Unknown" when there are fewer than two. */
  lemma ManufacturerBetweenBackslashes(deviceId: string)
    ensures forall i, j :: 0 <= i < j < |deviceId| && deviceId[i] == '\\' && deviceId[j] == '\\' &&
                           (forall t :: 0 <= t < j && t != i ==> deviceId[t] != '\\')
              ==> Manufacturer(deviceId) == deviceId[i + 1..j]
    ensures (forall i, j :: 0 <= i < j < |deviceId| ==> !(deviceId[i] == '\\' && deviceId[j] == '\\'))
              ==> Manufacturer(deviceId) == UnknownManufacturer
    ensures Manufacturer(deviceId) != UnknownManufacturer ==> '\\' !in Manufacturer(deviceId)
  {
    var first := FindChar(deviceId, '\\', 0);
    if first.Some? {
      var second := FindChar(deviceId, '\\', first.value + 1);
      if second.Some? {
        forall i, j | 0 <= i < j < |deviceId| && deviceId[i] == '\\' && deviceId[j] == '\\' &&
                      (forall t :: 0 <= t < j && t != i ==> deviceId[t] != '\\')
          ensures Manufacturer(deviceId) == deviceId[i + 1..j]
        {
          assert first.value == i;
          assert second.value == j;
        }
      }
    }
  }

  // ---------------------------------------------------------------- gcd and aspect ratio

  /** std::gcd on unsigned values, by Euclid's algorithm. */
  function Gcd(a: nat, b: nat): nat
    decreases b
  {
    if b == 0 then a else Gcd(b, a % b)
  }

  predicate Divides(d: nat, n: nat) { d > 0 && n % d == 0 }

  lemma MultipleIsDivisible(d: int, k: int)
    requires d > 0 && k >= 0
    ensures Divides(d, d * k)
  {
    var n := d * k;
    var q, r := n / d, n % d;
    assert n == d * q + r;
    var e := k - q;
    assert d * e == r;
  }

  lemma DivisibleIsMultiple(d: nat, n: nat)
    requires Divides(d, n)
    ensures n == d * (n / d)
  {
  }

  lemma DividesRemainder(a: nat, b: nat, d: nat)
    requires b > 0 && Divides(d, a) && Divides(d, b)
    ensures Divides(d, a % b)
  {
    var q := a / b;
    var x, y := a / d, b / d;
    DivisibleIsMultiple(d, a);
    DivisibleIsMultiple(d, b);
    var m := x - y * q;
    assert a % b == a - b * q;
    assert a % b == d * x - (d * y) * q;
    assert (d * y) * q == d * (y * q);
    assert a % b == d * m;
    MultipleIsDivisible(d, m);
  }

  lemma DividesDividend(a: nat, b: nat, d: nat)
    requires b > 0 && Divides(d, b) && Divides(d, a % b)
    ensures Divides(d, a)
  {
    var q := a / b;
    var y, z := b / d, (a % b) / d;
    DivisibleIsMultiple(d, b);
    DivisibleIsMultiple(d, a % b);
    assert a == b * q + a % b;
    assert (d * y) * q == d * (y * q);
    assert a == d * (y * q) + d * z;
    assert a == d * (y * q + z);
    MultipleIsDivisible(d, y * q + z);
  }

  /** The gcd is a positive common divisor ... */
  lemma {:induction false} GcdDivides(a: nat, b: nat)
    requires a > 0 || b > 0
    ensures Gcd(a, b) > 0 && Divides(Gcd(a, b), a) && Divides(Gcd(a, b), b)
    decreases b
  {
    if b == 0 {
      MultipleIsDivisible(a, 0);
      MultipleIsDivisible(a, 1);
    } else {
      GcdDivides(b, a % b);
      DividesDividend(a, b, Gcd(b, a % b));
    }
  }

  /** ... and every common divisor divides it. */
  lemma {:induction false} GcdGreatest(a: nat, b: nat, d: nat)
    requires Divides(d, a) && Divides(d, b)
    ensures Divides(d, Gcd(a, b))
    decreases b
  {
    if b > 0 {
      DividesRemainder(a, b, d);
      GcdGreatest(b, a % b, d);
    }
  }

  lemma ScaledDivisor(g: nat, c: nat, n: nat)
    requires g > 0 && Divides(c, n)
    ensures Divides(g * c, g * n)
  {
    DivisibleIsMultiple(c, n);
    var k := n / c;
    assert g * n == (g * c) * k by {
      assert g * n == g * (c * k);
    }
    MultipleIsDivisible(g * c, k);
  }

  lemma DivisorOfSelf(g: nat, c: nat)
    requires g > 0 && c > 0 && Divides(g * c, g)
    ensures c == 1
  {
    DivisibleIsMultiple(g * c, g);
    var m := g / (g * c);
    assert g * 1 == g * (c * m);
    assert c * m == 1;
  }

  /** Dividing both sides by their gcd leaves coprime parts. */
  lemma ReducedCoprime(a: nat, b: nat)
    requires a > 0 && b > 0
    ensures var g := Gcd(a, b); g > 0 && a == g * (a / g) && b == g * (b / g) && Gcd(a / g, b / g) == 1
  {
    GcdDivides(a, b);
    var g := Gcd(a, b);
    var x, y := a / g, b / g;
    DivisibleIsMultiple(g, a);
    DivisibleIsMultiple(g, b);
    assert x > 0;
    GcdDivides(x, y);
    var c := Gcd(x, y);
    ScaledDivisor(g, c, x);
    ScaledDivisor(g, c, y);
    GcdGreatest(a, b, g * c);
    DivisorOfSelf(g, c);
  }

  /** Unsigned division, as std::gcd's caller performs it. */
  function Quotient(a: nat, b: nat): (q: nat)
    requires b > 0
    ensures q == a / b
  {
    DivisionOfNat(a, b);
    a / b
  }

  lemma DivisionOfNat(a: nat, b: nat)
    requires b > 0
    ensures a / b >= 0
  {
  }

  /** The aspect ratio text of a w x h mode. */
  function AspectRatio(width: UInt32, height: UInt32): string
  {
    if width > 0 && height > 0 then
      var g := Gcd(width, height);
      if g > 0 then NatToString(Quotient(width, g)) + ":" + NatToString(Quotient(height, g)) else DefaultAspectRatio
    else
      DefaultAspectRatio
  }

  /** For positive dimensions the ratio is "x:y" with x:y = w:h in lowest terms; otherwise "0:0". */
  lemma AspectRatioReduced(width: UInt32, height: UInt32)
    ensures width > 0 && height > 0 ==>
              var g := Gcd(width, height);
              g > 0 && width == g * (width / g) && height == g * (height / g) && Gcd(width / g, height / g) == 1 &&
              AspectRatio(width, height) == NatToString(width / g) + ":" + NatToString(height / g)
    ensures width == 0 || height == 0 ==> AspectRatio(width, height) == DefaultAspectRatio
  {
    if width > 0 && height > 0 {
      ReducedCoprime(width, height);
    }
  }

  /** The length of the run of digits a string starts with. */
  function DigitRun(s: string): nat
  {
    if s == [] || !IsDigit(s[0]) then 0 else 1 + DigitRun(s[1..])
  }

  lemma {:induction false} LeadingDigits(digits: string, rest: string)
    requires IsDigits(digits) && |rest| > 0 && !IsDigit(rest[0])
    ensures DigitRun(digits + rest) == |digits|
    decreases |digits|
  {
    if digits == [] {
      assert digits + rest == rest;
    } else {
      assert (digits + rest)[1..] == digits[1..] + rest;
      LeadingDigits(digits[1..], rest);
    }
  }

  /** Two digit strings joined by a separator that starts with a non-digit split back uniquely. */
  lemma SplitAtSeparator(a: string, b: string, c: string, d: string, sep: string)
    requires IsDigits(a) && IsDigits(c) && |sep| > 0 && !IsDigit(sep[0])
    requires a + sep + b == c + sep + d
    ensures a == c && b == d
  {
    var s := a + sep + b;
    LeadingDigits(a, sep + b);
    LeadingDigits(c, sep + d);
    assert a + (sep + b) == s && c + (sep + d) == s;
    assert a == s[..|a|];
    assert c == s[..|c|];
    assert b == s[|a| + |sep|..];
    assert d == s[|c| + |sep|..];
  }

  /** Equal aspect-ratio texts mean proportional screens. */
  lemma AspectRatioProportional(w1: UInt32, h1: UInt32, w2: UInt32, h2: UInt32)
    requires w1 > 0 && h1 > 0 && w2 > 0 && h2 > 0
    requires AspectRatio(w1, h1) == AspectRatio(w2, h2)
    ensures w1 * h2 == w2 * h1
  {
    ReducedCoprime(w1, h1);
    ReducedCoprime(w2, h2);
    var g1, g2 := Gcd(w1, h1), Gcd(w2, h2);
    var x1, y1, x2, y2 := w1 / g1, h1 / g1, w2 / g2, h2 / g2;
    NatToStringRoundTrip(x1);
    NatToStringRoundTrip(x2);
    SplitAtSeparator(NatToString(x1), NatToString(y1), NatToString(x2), NatToString(y2), ":");
    NatToStringInjective(x1, x2);
    NatToStringInjective(y1, y2);
    CrossProducts(g1, g2, x1, y1);
  }

  lemma CrossProducts(g1: int, g2: int, x: int, y: int)
    ensures (g1 * x) * (g2 * y) == (g2 * x) * (g1 * y)
  {
    assert (g1 * x) * (g2 * y) == g1 * g2 * (x * y);
    assert (g2 * x) * (g1 * y) == g1 * g2 * (x * y);
  }

  // ---------------------------------------------------------------- resolution strings

  /** The native resolution "W x H" of a mode with positive dimensions, else "Unknown". */
  function NativeResolution(width: UInt32, height: UInt32): string
  {
    if width > 0 && height > 0 then NatToString(width) + " x " + NatToString(height) else DefaultResolution
  }

  /** The current resolution: the native one followed by " @ R Hz". */
  function CurrentResolution(width: UInt32, height: UInt32, refreshRate: int): string
  {
    if width > 0 && height > 0 then NativeResolution(width, height) + " @ " + IntToString(refreshRate) + " Hz"
    else DefaultResolution
  }

  /** A native resolution text names one mode: the width and height read back from it. */
  lemma NativeResolutionReadsBack(w1: UInt32, h1: UInt32, w2: UInt32, h2: UInt32)
    requires w1 > 0 && h1 > 0
    requires NativeResolution(w1, h1) == NativeResolution(w2, h2)
    ensures w1 == w2 && h1 == h2
  {
    NativeResolutionKnown(w1, h1);
    if w2 > 0 && h2 > 0 {
      NatToStringRoundTrip(w1);
      NatToStringRoundTrip(w2);
      SplitAtSeparator(NatToString(w1), NatToString(h1), NatToString(w2), NatToString(h2), " x ");
      NatToStringInjective(w1, w2);
      NatToStringInjective(h1, h2);
    }
  }

  /** A mode with positive dimensions never reads "Unknown": its text starts with a digit. */
  lemma NativeResolutionKnown(width: UInt32, height: UInt32)
    requires width > 0 && height > 0
    ensures NativeResolution(width, height) != DefaultResolution
  {
    NatToStringRoundTrip(width);
    assert NativeResolution(width, height)[0] == NatToString(width)[0];
  }

  /** A current resolution text names one mode and one refresh rate. */
  lemma CurrentResolutionReadsBack(w1: UInt32, h1: UInt32, r1: nat, w2: UInt32, h2: UInt32, r2: nat)
    requires w1 > 0 && h1 > 0 && w2 > 0 && h2 > 0
    requires CurrentResolution(w1, h1, r1) == CurrentResolution(w2, h2, r2)
    ensures w1 == w2 && h1 == h2 && r1 == r2
  {
    NatToStringRoundTrip(w1);
    NatToStringRoundTrip(w2);
    NatToStringRoundTrip(h1);
    NatToStringRoundTrip(h2);
    NatToStringRoundTrip(r1);
    NatToStringRoundTrip(r2);
    ThreeFieldsReadBack(NatToString(w1), NatToString(h1), NatToString(r1), NatToString(w2), NatToString(h2), NatToString(r2));
    NatToStringInjective(w1, w2);
    NatToStringInjective(h1, h2);
    NatToStringInjective(r1, r2);
  }

  /** "W x H @ R Hz" splits back into its three digit fields. */
  lemma ThreeFieldsReadBack(w1: string, h1: string, r1: string, w2: string, h2: string, r2: string)
    requires IsDigits(w1) && IsDigits(h1) && IsDigits(r1) && IsDigits(w2) && IsDigits(h2) && IsDigits(r2)
    requires w1 + " x " + h1 + " @ " + r1 + " Hz" == w2 + " x " + h2 + " @ " + r2 + " Hz"
    ensures w1 == w2 && h1 == h2 && r1 == r2
  {
    var tail1 := h1 + " @ " + (r1 + " Hz" + []);
    var tail2 := h2 + " @ " + (r2 + " Hz" + []);
    assert w1 + " x " + h1 + " @ " + r1 + " Hz" == w1 + " x " + tail1;
    assert w2 + " x " + h2 + " @ " + r2 + " Hz" == w2 + " x " + tail2;
    SplitAtSeparator(w1, tail1, w2, tail2, " x ");
    SplitAtSeparator(h1, r1 + " Hz" + [], h2, r2 + " Hz" + [], " @ ");
    SplitAtSeparator(r1, [], r2, [], " Hz");
  }

  // ---------------------------------------------------------------- EDID

  /** The 1024-byte buffer RegQueryValueExA fills with the EDID value. */
  type EdidBuffer = b: seq<bv8> | |b| == 1024 witness seq(1024, _ => 0)

  /**
   * Horizontal and vertical image size in millimetres from bytes 66, 67 and 68, the image-size
   * fields of the first detailed timing descriptor (section 3.10.2 of VESA E-EDID Release A Rev. 2).
   * The sums cannot overflow 16 bits, so adding in bv16 gives the value C computes in int.
   */
  function EdidWidthMm(b66: bv8, b68: bv8): int
  {
    ((((b68 & 0xF0) as bv16) << 4) + b66 as bv16) as int
  }

  function EdidHeightMm(b67: bv8, b68: bv8): int
  {
    ((((b68 & 0x0F) as bv16) << 8) + b67 as bv16) as int
  }

  /** The upper nibble of byte 68 is bits 11-8 of the width, the lower nibble bits 11-8 of the height. */
  lemma EdidImageSizeFields(b66: bv8, b67: bv8, b68: bv8)
    ensures EdidWidthMm(b66, b68) == (b68 >> 4) as int * 256 + b66 as int
    ensures EdidHeightMm(b67, b68) == (b68 & 0x0F) as int * 256 + b67 as int
    ensures 0 <= EdidWidthMm(b66, b68) <= 4095 && 0 <= EdidHeightMm(b67, b68) <= 4095
  {
  }

  /** The bytes a display stores for a w x h mm image; the partner of the decode. */
  function EncodeImageSize(widthMm: bv16, heightMm: bv16): (bv8, bv8, bv8)
    requires widthMm < 4096 && heightMm < 4096
  {
    ((widthMm & 0xFF) as bv8, (heightMm & 0xFF) as bv8, (((widthMm >> 8) << 4) | (heightMm >> 8)) as bv8)
  }

  lemma DecodeEncodeImageSize(widthMm: bv16, heightMm: bv16)
    requires widthMm < 4096 && heightMm < 4096
    ensures var bytes := EncodeImageSize(widthMm, heightMm);
            EdidWidthMm(bytes.0, bytes.2) == widthMm as int && EdidHeightMm(bytes.1, bytes.2) == heightMm as int
  {
  }

  /** The decoded size is under 1000 inches diagonally, so the range condition at the inch formatting always holds. */
  lemma EdidDiagonalUnderLimit(b66: bv8, b67: bv8, b68: bv8)
    ensures var w, h := EdidWidthMm(b66, b68), EdidHeightMm(b67, b68);
            w * w + h * h < 25400 * 25400
  {
    EdidImageSizeFields(b66, b67, b68);
    var w, h := EdidWidthMm(b66, b68), EdidHeightMm(b67, b68);
    MulMonotone(w, 4095, w, 4095);
    MulMonotone(h, 4095, h, 4095);
  }

  lemma MulMonotone(a: nat, b: nat, c: nat, d: nat)
    requires a <= b && c <= d
    ensures a * c <= b * d
  {
    assert (b - a) * c >= 0;
    assert b * (d - c) >= 0;
  }

  /** One monitor device interface: whether its detail could be read, and the EDID value when the key opened and the query succeeded. */
  datatype MonitorInterface = MonitorInterface(detailRead: bool, edid: Option<EdidBuffer>)

  /** What SetupDiGetClassDevs returned: no device set, or the enumerated monitor interfaces. */
  type EdidSource = Option<seq<MonitorInterface>>

  predicate Readable(i: MonitorInterface) { i.detailRead && i.edid.Some? }

  /** The EDID of the first interface whose detail and registry value could both be read. */
  function FirstEdid(interfaces: seq<MonitorInterface>): (r: Option<EdidBuffer>)
    ensures r.None? <==> forall i :: 0 <= i < |interfaces| ==> !Readable(interfaces[i])
    ensures r.Some? ==> exists i :: 0 <= i < |interfaces| && Readable(interfaces[i]) && interfaces[i].edid.value == r.value &&
                                    forall j :: 0 <= j < i ==> !Readable(interfaces[j])
  {
    if interfaces == [] then None
    else if Readable(interfaces[0]) then interfaces[0].edid
    else
      var r := FirstEdid(interfaces[1..]);
      assert forall i :: 1 <= i < |interfaces| ==> interfaces[i] == interfaces[1..][i - 1];
      if r.Some? then
        ghost var i :| 0 <= i < |interfaces[1..]| && Readable(interfaces[1..][i]) && interfaces[1..][i].edid.value == r.value &&
                       forall j :: 0 <= j < i ==> !Readable(interfaces[1..][j]);
        assert Readable(interfaces[i + 1]) && forall j :: 0 <= j < i + 1 ==> !Readable(interfaces[j]);
        r
      else r
  }

  /** GetMonitorSizeFromEDID as (found, widthMm, heightMm). */
  function EdidLookup(deviceName: string, source: EdidSource): (int, int, int)
  {
    if deviceName == [] || source.None? then (0, 0, 0)
    else match FirstEdid(source.value)
      case None => (0, 0, 0)
      case Some(edid) => (1, EdidWidthMm(edid[66], edid[68]), EdidHeightMm(edid[67], edid[68]))
  }

  /** GetMonitorSizeFromEDID: walks the monitor interfaces and decodes the first readable EDID. */
  method GetMonitorSizeFromEdid(deviceName: string, source: EdidSource) returns (found: bool, widthMm: int, heightMm: int)
    ensures (if found then 1 else 0, widthMm, heightMm) == EdidLookup(deviceName, source)
  {
    if deviceName == [] {
      return false, 0, 0;
    }
    widthMm, heightMm := 0, 0;
    if source.None? {
      return false, widthMm, heightMm;
    }
    var interfaces := source.value;
    var monitorIndex := 0;
    while monitorIndex < |interfaces|
      invariant 0 <= monitorIndex <= |interfaces|
      invariant FirstEdid(interfaces) == FirstEdid(interfaces[monitorIndex..])
      decreases |interfaces| - monitorIndex
    {
      var current := interfaces[monitorIndex];
      assert interfaces[monitorIndex..][1..] == interfaces[monitorIndex + 1..];
      monitorIndex := monitorIndex + 1;
      if !current.detailRead {
        continue;
      }
      if current.edid.Some? {
        var edid := current.edid.value;
        widthMm := EdidWidthMm(edid[66], edid[68]);
        heightMm := EdidHeightMm(edid[67], edid[68]);
        return true, widthMm, heightMm;
      }
    }
    return false, widthMm, heightMm;
  }

  /** The lookup uses the device name only to see whether it is empty: every named monitor gets the same EDID. */
  lemma EdidLookupIgnoresDeviceName(name1: string, name2: string, source: EdidSource)
    requires name1 != [] && name2 != []
    ensures EdidLookup(name1, source) == EdidLookup(name2, source)
    ensures EdidLookup(name1, source).0 == 1 <==> source.Some? && exists i :: 0 <= i < |source.value| && Readable(source.value[i])
  {
  }

  // ---------------------------------------------------------------- MonitorEnumProc

  /** What GetMonitorInfoA reported: the rcMonitor extent and dwFlags. */
  datatype MonitorGeometry = MonitorGeometry(rectWidth: int, rectHeight: int, flags: bv32)

  /** What EnumDisplaySettingsA reported for the current mode. */
  datatype DisplaySettings = DisplaySettings(displayFrequency: UInt32, pelsWidth: UInt32, pelsHeight: UInt32)

  /**
   * What Windows reports about one monitor handed to MonitorEnumProc: the geometry (None when
   * GetMonitorInfoA fails), the DeviceID (None when EnumDisplayDevicesA fails), the current
   * display settings (None when EnumDisplaySettingsA fails) and the EDID interfaces.
   */
  datatype MonitorProbe = MonitorProbe(
    geometry: Option<MonitorGeometry>,
    displayDevice: Option<string>,
    settings: Option<DisplaySettings>,
    edid: EdidSource)

  const MonitorInfoFlagPrimary: bv32 := 1

  /** The DeviceID buffer handed to the EDID lookup: zero-filled, hence empty, when EnumDisplayDevicesA failed. */
  function DeviceName(displayDevice: Option<string>): string
  {
    if displayDevice.Some? then displayDevice.value else ""
  }

  /** The MonitorInfo MonitorEnumProc stores for a monitor whose geometry was read. */
  function DescribeMonitor(g: MonitorGeometry, probe: MonitorProbe): MonitorInfo
  {
    var refreshRate :=
      if probe.settings.Some? then SafeNumericConversion(probe.settings.value.displayFrequency, 1, MaxRefreshRate, FallbackRefreshRate)
      else FallbackRefreshRate;
    var (found, w, h) := EdidLookup(DeviceName(probe.displayDevice), probe.edid);
    var physical := found == 1 && w > 0 && h > 0;
    MonitorInfo(
      SafeNumericConversion(g.rectWidth, 1, MaxDimension, FallbackWidth),
      SafeNumericConversion(g.rectHeight, 1, MaxDimension, FallbackHeight),
      g.flags & MonitorInfoFlagPrimary != 0,
      if probe.displayDevice.Some? then probe.displayDevice.value else UnknownDeviceId,
      if probe.displayDevice.Some? then Manufacturer(probe.displayDevice.value) else UnknownManufacturer,
      if probe.settings.Some? then AspectRatio(probe.settings.value.pelsWidth, probe.settings.value.pelsHeight) else DefaultAspectRatio,
      if probe.settings.Some? then NativeResolution(probe.settings.value.pelsWidth, probe.settings.value.pelsHeight) else DefaultResolution,
      refreshRate,
      if probe.settings.Some? then CurrentResolution(probe.settings.value.pelsWidth, probe.settings.value.pelsHeight, refreshRate)
      else DefaultResolution,
      if physical then w else 0,
      if physical then h else 0,
      if physical then DiagonalOf(w, h) else UnknownScreenSize)
  }

  /** The bounds every stored monitor satisfies. */
  predicate WellFormed(m: MonitorInfo)
  {
    && 1 <= m.width <= MaxDimension
    && 1 <= m.height <= MaxDimension
    && 1 <= m.refreshRate <= MaxRefreshRate
    && 0 <= m.physicalWidthMm <= 4095
    && 0 <= m.physicalHeightMm <= 4095
    && (m.screenSize.DiagonalOf? <==> m.physicalWidthMm > 0 && m.physicalHeightMm > 0)
  }

  /** Width and height lie in [1, 32767] and the refresh rate in [1, 1000], whatever Windows reports. */
  lemma DescribeMonitorWellFormed(g: MonitorGeometry, probe: MonitorProbe)
    ensures WellFormed(DescribeMonitor(g, probe))
  {
    var (found, w, h) := EdidLookup(DeviceName(probe.displayDevice), probe.edid);
    if found == 1 {
      var edid := FirstEdid(probe.edid.value).value;
      EdidImageSizeFields(edid[66], edid[67], edid[68]);
    }
  }

  /** The monitors MonitorEnumProc stores for one callback: none when GetMonitorInfoA failed. */
  function Stored(probe: MonitorProbe): seq<MonitorInfo>
  {
    if probe.geometry.Some? then [DescribeMonitor(probe.geometry.value, probe)] else []
  }

  /** The monitors a whole enumeration stores, in callback order. */
  function DescribeAll(probes: seq<MonitorProbe>): seq<MonitorInfo>
  {
    if probes == [] then [] else DescribeAll(probes[..|probes| - 1]) + Stored(probes[|probes| - 1])
  }

  /** At most one monitor per callback, and every stored monitor is within bounds. */
  lemma {:induction false} DescribeAllWellFormed(probes: seq<MonitorProbe>)
    ensures |DescribeAll(probes)| <= |probes|
    ensures forall i :: 0 <= i < |DescribeAll(probes)| ==> WellFormed(DescribeAll(probes)[i])
    decreases |probes|
  {
    if probes != [] {
      var last := probes[|probes| - 1];
      DescribeAllWellFormed(probes[..|probes| - 1]);
      if last.geometry.Some? {
        DescribeMonitorWellFormed(last.geometry.value, last);
      }
    }
  }

  class MonitorList {
    var monitors: seq<MonitorInfo>
    var initialized: bool
    var lastError: MonitorError

    /** MonitorList(): runs Initialize over what EnumDisplayMonitors reports. */
    constructor (probes: seq<MonitorProbe>, enumerated: bool)
      ensures monitors == DescribeAll(probes)
      ensures initialized == enumerated
      ensures lastError == (if enumerated then Success else EnumerationFailed)
    {
      monitors := [];
      initialized := false;
      lastError := Success;
      new;
      Initialize(probes, enumerated);
    }

    /**
     * Initialize: EnumDisplayMonitors calls MonitorEnumProc on each of `probes` and returns
     * `enumerated`; the monitors gathered before a failure stay in the list.
     */
    method Initialize(probes: seq<MonitorProbe>, enumerated: bool)
      modifies this
      ensures monitors == DescribeAll(probes)
      ensures initialized == enumerated
      ensures lastError == (if enumerated then Success else EnumerationFailed)
    {
      monitors := [];
      lastError := Success;
      initialized := false;
      var i := 0;
      while i < |probes|
        invariant 0 <= i <= |probes|
        invariant monitors == DescribeAll(probes[..i])
        invariant lastError == Success && !initialized
        decreases |probes| - i
      {
        var continueEnumeration := MonitorEnumProc(probes[i]);
        assert probes[..i + 1][..i] == probes[..i];
        i := i + 1;
      }
      assert probes[..i] == probes;
      if !enumerated {
        lastError := EnumerationFailed;
        return;
      }
      initialized := true;
    }

    /** MonitorEnumProc: fills a MonitorInfo through the setters and appends it; always asks for more monitors. */
    method MonitorEnumProc(probe: MonitorProbe) returns (continueEnumeration: bool)
      modifies this
      ensures continueEnumeration
      ensures monitors == old(monitors) + Stored(probe)
      ensures initialized == old(initialized) && lastError == old(lastError)
    {
      var monitor := DefaultMonitorInfo;
      if probe.geometry.None? {
        return true;
      }
      var g := probe.geometry.value;
      var width := SafeNumericConversion(g.rectWidth, 1, MaxDimension, FallbackWidth);
      var height := SafeNumericConversion(g.rectHeight, 1, MaxDimension, FallbackHeight);
      var isPrimary := g.flags & MonitorInfoFlagPrimary != 0;
      monitor := monitor.(width := width, height := height, isPrimary := isPrimary);

      if probe.displayDevice.Some? {
        monitor := monitor.(deviceId := probe.displayDevice.value);
        monitor := monitor.(manufacturer := Manufacturer(probe.displayDevice.value));
      } else {
        monitor := monitor.(deviceId := UnknownDeviceId, manufacturer := UnknownManufacturer);
      }

      var refreshRate := FallbackRefreshRate;
      if probe.settings.Some? {
        var dm := probe.settings.value;
        refreshRate := SafeNumericConversion(dm.displayFrequency, 1, MaxRefreshRate, FallbackRefreshRate);
        monitor := monitor.(refreshRate := refreshRate);
        if dm.pelsWidth > 0 && dm.pelsHeight > 0 {
          monitor := monitor.(aspectRatio := AspectRatio(dm.pelsWidth, dm.pelsHeight));
          var resolution := NatToString(dm.pelsWidth) + " x " + NatToString(dm.pelsHeight);
          monitor := monitor.(nativeResolution := resolution);
          monitor := monitor.(currentResolution := resolution + " @ " + IntToString(refreshRate) + " Hz");
        } else {
          monitor := monitor.(aspectRatio := DefaultAspectRatio, nativeResolution := DefaultResolution,
                              currentResolution := DefaultResolution);
        }
      } else {
        monitor := monitor.(refreshRate := refreshRate, aspectRatio := DefaultAspectRatio,
                            nativeResolution := DefaultResolution, currentResolution := DefaultResolution);
      }

      var gotEdid, physicalWidthMm, physicalHeightMm := GetMonitorSizeFromEdid(DeviceName(probe.displayDevice), probe.edid);
      if gotEdid && physicalWidthMm > 0 && physicalHeightMm > 0 {
        monitor := monitor.(physicalWidthMm := physicalWidthMm, physicalHeightMm := physicalHeightMm,
                            screenSize := DiagonalOf(physicalWidthMm, physicalHeightMm));
      } else {
        monitor := monitor.(physicalWidthMm := 0, physicalHeightMm := 0, screenSize := UnknownScreenSize);
      }

      AddMonitor(monitor);
      return true;
    }

    /** GetCount. */
    function Count(): (n: nat)
      reads this
      ensures n == |monitors|
    {
      |monitors|
    }

    /** GetMonitor: the monitor at `index`, or None (nullptr) past the end. */
    method GetMonitor(index: nat) returns (monitor: Option<MonitorInfo>)
      ensures monitor.Some? <==> index < |monitors|
      ensures monitor.Some? ==> monitor.value == monitors[index]
    {
      if index < |monitors| {
        return Some(monitors[index]);
      }
      return None;
    }

    /** AddMonitor: appends at the end; earlier entries are unchanged. */
    method AddMonitor(monitor: MonitorInfo)
      modifies this
      ensures monitors == old(monitors) + [monitor]
      ensures initialized == old(initialized) && lastError == old(lastError)
    {
      monitors := monitors + [monitor];
    }
  }
}
