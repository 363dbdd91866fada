/**
 * What the collectors read out of a WMI class object (src/helper/wmi_helper.cpp): a map from
 * property name to VARIANT, where a name outside the map is a property whose Get fails. The
 * COM session and the enumerators themselves are inputs of the collectors that use them.
 */
module Wmi {

  import opened Wrappers
  import opened Text

  /** The VARTYPE tags the collectors tell apart; every other tag is VtOther. */
  datatype VarType = VtEmpty | VtNull | VtI4 | VtUI4 | VtBstr | VtOther(code: nat)

  /**
   * A VARIANT: its tag; the low 32 bits of its value union (what uintVal and ulVal read, and lVal
   * reads as two's complement); the text a BSTR designates (None for a null BSTR); and, for a tag
   * the model does not enumerate, the text that GetPropertyString's std::to_string or
   * VariantChangeType branch yields for it.
   */
  datatype Variant = Variant(vt: VarType, low32: UInt32, bstrVal: Option<string>, converted: string)

  /** A class object: property name to value. */
  type WmiObject = map<string, Variant>

  /** A VT_I4 variant holding `value`. */
  function I4(value: Int32): Variant
  {
    Variant(VtI4, if value < 0 then value + 0x1_0000_0000 else value, None, "")
  }

  /** A VT_UI4 variant holding `value`. */
  function UI4(value: UInt32): Variant
  {
    Variant(VtUI4, value, None, "")
  }

  /** A VT_BSTR variant pointing at `text`. */
  function Bstr(text: string): Variant
  {
    Variant(VtBstr, 0, Some(text), "")
  }

  /** lVal: the union's low 32 bits read as a signed 32-bit integer. */
  function LVal(v: Variant): (r: Int32)
    ensures 0 <= r ==> r == v.low32
    ensures r < 0 ==> r + 0x1_0000_0000 == v.low32
  {
    if v.low32 < 0x8000_0000 then v.low32 else v.low32 - 0x1_0000_0000
  }

  /** Reading lVal back from a VT_I4 variant gives the value it was built from. */
  lemma I4RoundTrip(value: Int32)
    ensures I4(value).vt == VtI4 && LVal(I4(value)) == value
  {
  }

  /**
   * wmi::GetPropertyString: "" for a null object, an empty property name, a failed Get, VT_NULL or
   * VT_EMPTY, and for a null BSTR (BstrToUtf8); the decimal rendering of VT_I4 and VT_UI4 values.
   * UTF-16 to UTF-8 conversion is the identity on `string`.
   */
  function GetPropertyString(obj: Option<WmiObject>, property: string): (r: string)
    ensures obj.None? || property == [] || property !in obj.value ==> r == []
    ensures obj.Some? && property != [] && property in obj.value && obj.value[property].vt == VtBstr ==>
              r == (if obj.value[property].bstrVal.Some? then obj.value[property].bstrVal.value else [])
  {
    if obj.None? || property == [] || property !in obj.value then []
    else
      var v := obj.value[property];
      match v.vt
      case VtEmpty => []
      case VtNull => []
      case VtBstr => if v.bstrVal.Some? then v.bstrVal.value else []
      case VtI4 => IntToString(LVal(v))
      case VtUI4 => NatToString(v.low32)
      case VtOther(_) => v.converted
  }

  /** An integer property reads back as its decimal text, so it is never empty. */
  lemma GetPropertyStringNumbers(obj: WmiObject, property: string)
    requires property != [] && property in obj
    ensures obj[property].vt == VtUI4 ==> GetPropertyString(Some(obj), property) == NatToString(obj[property].low32)
    ensures obj[property].vt == VtI4 ==> GetPropertyString(Some(obj), property) == IntToString(LVal(obj[property]))
    ensures obj[property].vt in {VtI4, VtUI4} ==> GetPropertyString(Some(obj), property) != []
  {
    NatToStringRoundTrip(obj[property].low32);
    if LVal(obj[property]) < 0 {
      NatToStringRoundTrip(-(LVal(obj[property]) as int));
    } else {
      NatToStringRoundTrip(LVal(obj[property]));
    }
  }

  /**
   * The GetSafeStringProperty of src/main/storage_info.cpp and the GetSafeMemoryProperty of
   * src/main/memory_info.cpp, which are the same function: the fallback for a null object or an
   * empty property text, otherwise the text.
   */
  function GetSafeProperty(obj: Option<WmiObject>, property: string, fallback: string): (r: string)
    ensures obj.None? ==> r == fallback
    ensures obj.Some? && GetPropertyString(obj, property) == [] ==> r == fallback
    ensures obj.Some? && GetPropertyString(obj, property) != [] ==> r == GetPropertyString(obj, property)
    ensures fallback != [] ==> r != []
  {
    if obj.None? then fallback
    else
      var result := GetPropertyString(obj, property);
      if result == [] then fallback else result
  }

  const Int64Min: int := -0x8000_0000_0000_0000
  const Int64Max: int := 0x7FFF_FFFF_FFFF_FFFF

  /** The longest prefix of `s` made of decimal digits. */
  function DigitPrefix(s: string): (r: string)
    ensures IsDigits(r) && r <= s
    ensures r == s || !IsDigit(s[|r|])
  {
    if s == [] || !IsDigit(s[0]) then [] else [s[0]] + DigitPrefix(s[1..])
  }

  lemma {:induction false} DigitPrefixOfDigits(s: string)
    requires IsDigits(s)
    ensures DigitPrefix(s) == s
  {
    if s != [] {
      DigitPrefixOfDigits(s[1..]);
    }
  }

  /** The value of an optionally signed digit run, saturated to the 64-bit signed range as _wtoi64 reports overflow. */
  function Saturate(negative: bool, magnitude: nat): (r: int)
    ensures Int64Min <= r <= Int64Max
  {
    if negative then (if magnitude > -Int64Min then Int64Min else -(magnitude as int))
    else (if magnitude > Int64Max then Int64Max else magnitude)
  }

  /**
   * _wtoi64: leading white space is skipped, one optional sign is read, then the longest run of
   * decimal digits; anything after it is ignored, and no digits give 0.
   */
  function Wtoi64(s: string): (r: int)
    ensures Int64Min <= r <= Int64Max
    decreases |s|
  {
    if s != [] && IsWhiteSpace(s[0]) then Wtoi64(s[1..])
    else if s != [] && (s[0] == '-' || s[0] == '+') then Saturate(s[0] == '-', DecimalValue(DigitPrefix(s[1..])))
    else Saturate(false, DecimalValue(DigitPrefix(s)))
  }

  /** A uint64_t initialised from an int64 value: negative values wrap modulo 2^64. */
  function ToUInt64(v: int): (r: UInt64)
    requires Int64Min <= v <= Int64Max
    ensures v >= 0 ==> r == v
    ensures v < 0 ==> r == v + 0x1_0000_0000_0000_0000
  {
    if v < 0 then v + 0x1_0000_0000_0000_0000 else v
  }

  /** A number rendered in decimal parses back to itself as long as it fits in 63 bits. */
  lemma Wtoi64ReadsDecimal(n: nat)
    requires n <= Int64Max
    ensures Wtoi64(NatToString(n)) == n
  {
    NatToStringRoundTrip(n);
    DigitPrefixOfDigits(NatToString(n));
    assert IsDigit(NatToString(n)[0]);
  }
}
