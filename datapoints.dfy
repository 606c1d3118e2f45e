/** Raw datapoint values of the Tuya protocol and the Python conversions the vacuum applies to them. */
module Datapoints {
  import opened Wrappers

  /** A datapoint key. */
  type DpId = nat

  /** A raw datapoint value. `DNone` is Python's None: what a lookup of an absent key yields. */
  datatype DpValue = DNone | DBool(b: bool) | DInt(i: int) | DStr(s: string)

  /** The cached status of the device: the latest value of every datapoint it reported. */
  type Snapshot = map<DpId, DpValue>

  /** `dps(dp)`: the cached value of a datapoint, None when the device never reported it. */
  function Dps(snapshot: Snapshot, dp: DpId): (v: DpValue)
    ensures dp !in snapshot ==> v == DNone
    ensures dp in snapshot ==> v == snapshot[dp]
  {
    if dp in snapshot then snapshot[dp] else DNone
  }

  /** `dps_conf(option)`: the value of the datapoint an option is bound to; an unbound option
      looks up a key no device reports, hence None. */
  function DpsConf(snapshot: Snapshot, dp: Option<DpId>): (v: DpValue)
    ensures dp.None? ==> v == DNone
    ensures dp.Some? ==> v == Dps(snapshot, dp.value)
  {
    match dp
    case Some(d) => Dps(snapshot, d)
    case None => DNone
  }

  /** Python's `v != 0`. `False == 0` and `True == 1` in Python; None and strings never equal 0. */
  predicate DiffersFromZero(v: DpValue)
    ensures DiffersFromZero(v) <==> v != DInt(0) && v != DBool(false)
  {
    match v
    case DNone => true
    case DBool(b) => b
    case DInt(i) => i != 0
    case DStr(_) => true
  }

  // ---------------------------------------------------------------------------------------------
  // str(v)

  function DigitChar(d: nat): (c: char)
    requires d < 10
    ensures '0' <= c <= '9' && (c as int) - ('0' as int) == d
  {
    "0123456789"[d]
  }

  /** The value of a string of decimal digits. */
  function DecimalValue(s: string): nat
    requires forall k :: 0 <= k < |s| ==> '0' <= s[k] <= '9'
  {
    if s == [] then 0
    else DecimalValue(s[..|s| - 1]) * 10 + ((s[|s| - 1] as int) - ('0' as int))
  }

  /** Python's `str(n)` for a natural number: its decimal digits, without leading zeros. */
  function NatToString(n: nat): (s: string)
    ensures |s| > 0
    ensures forall k :: 0 <= k < |s| ==> '0' <= s[k] <= '9'
    ensures |s| > 1 ==> s[0] != '0'
    ensures DecimalValue(s) == n
  {
    if n < 10 then
      [DigitChar(n)]
    else
      var prefix := NatToString(n / 10);
      var s := prefix + [DigitChar(n % 10)];
      assert s[..|s| - 1] == prefix;
      s
  }

  /** Python's `str(v)`, the form in which the primary status is compared with the configured lists. */
  function PyStr(v: DpValue): (s: string)
    ensures v == DNone ==> s == "None"
    ensures v.DBool? ==> s == if v.b then "True" else "False"
    ensures v.DStr? ==> s == v.s
    ensures v.DInt? ==> |s| > 0 && (s[0] == '-' <==> v.i < 0)
    ensures v.DInt? && v.i >= 0 ==> (forall k :: 0 <= k < |s| ==> '0' <= s[k] <= '9') && DecimalValue(s) == v.i
    ensures v.DInt? && v.i >= 0 && |s| > 1 ==> s[0] != '0'
    ensures v.DInt? && v.i < 0 ==>
              (forall k :: 1 <= k < |s| ==> '0' <= s[k] <= '9') && DecimalValue(s[1..]) == -v.i
    ensures v.DInt? && v.i < 0 ==> |s| > 1 && s[1] != '0'
  {
    match v
    case DNone => "None"
    case DBool(b) => if b then "True" else "False"
    case DInt(i) =>
      if i < 0 then
        var digits := NatToString(-i);
        // a single digit is the whole magnitude, which is at least 1
        assert |digits| == 1 ==> digits[0] != '0' by {
          if |digits| == 1 { assert digits[..0] == []; }
        }
        "-" + digits
      else NatToString(i)
    case DStr(s) => s
  }

  // ---------------------------------------------------------------------------------------------
  // str.split(",")

  /** The position of the first occurrence of `c` in `s`. */
  function IndexOf(s: string, c: char): (i: nat)
    requires c in s
    ensures i < |s| && s[i] == c && c !in s[..i]
  {
    if s[0] == c then 0
    else
      assert s == [s[0]] + s[1..];
      var i := 1 + IndexOf(s[1..], c);
      assert s[..i] == [s[0]] + s[1..][..i - 1];
      i
  }

  /** `sep.join(parts)`. */
  function Join(parts: seq<string>, sep: char): string
    requires |parts| > 0
  {
    if |parts| == 1 then parts[0] else parts[0] + [sep] + Join(parts[1..], sep)
  }

  /** Python's `s.split(sep)` for a one-character separator: the maximal separator-free pieces,
      which joined back with the separator give `s` again (`"".split(",") == [""]`). */
  function Split(s: string, sep: char): (parts: seq<string>)
    ensures |parts| > 0
    ensures forall k :: 0 <= k < |parts| ==> sep !in parts[k]
    ensures Join(parts, sep) == s
    decreases |s|
  {
    if sep !in s then
      [s]
    else
      var i := IndexOf(s, sep);
      var rest := Split(s[i + 1..], sep);
      var parts := [s[..i]] + rest;
      assert parts[1..] == rest;
      assert s == s[..i] + [sep] + s[i + 1..];
      parts
  }

  /** A comma-separated option parsed as `__init__` does: its pieces if configured, else the empty list. */
  function ParseList(option: Option<string>): (list: seq<string>)
    ensures option.None? ==> list == []
    ensures option.Some? ==> |list| > 0
    ensures forall k :: 0 <= k < |list| ==> ',' !in list[k]
    ensures option.Some? ==> Join(list, ',') == option.value
  {
    match option
    case Some(s) => Split(s, ',')
    case None => []
  }
}
