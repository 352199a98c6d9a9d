/** Sensor identifiers shared by the server and the client: the 30 keys
    `sensor_1` .. `sensor_30`, their decimal suffixes, and the client's
    "missing reading counts as 0" lookup. */
module Sensors {

  datatype Option<+T> = None | Some(value: T)

  /** Number of pressure channels on the rig (15 per foot). */
  const SensorCount: nat := 30

  const KeyPrefix: string := "sensor_"

  predicate IsDigit(c: char) {
    '0' <= c <= '9'
  }

  predicate AllDigits(s: string) {
    forall i | 0 <= i < |s| :: IsDigit(s[i])
  }

  function DigitChar(d: nat): (c: char)
    requires d < 10
    ensures IsDigit(c)
  {
    (('0' as int) + d) as char
  }

  function DigitValue(c: char): (d: nat)
    requires IsDigit(c)
    ensures d < 10 && DigitChar(d) == c
  {
    (c as int) - ('0' as int)
  }

  /** Decimal text of a natural number, as Python's f-string formats it:
      no sign, no leading zero. */
  function Decimal(n: nat): (s: string)
    ensures |s| >= 1 && AllDigits(s)
    ensures (|s| == 1) == (n < 10)
    ensures |s| > 1 ==> s[0] != '0'
  {
    if n < 10 then [DigitChar(n)] else Decimal(n / 10) + [DigitChar(n % 10)]
  }

  /** Value of a string of decimal digits (what `parseInt` yields for it). */
  function ParseDigits(s: string): (n: nat)
    requires AllDigits(s)
    decreases |s|
  {
    if s == [] then 0 else ParseDigits(s[..|s| - 1]) * 10 + DigitValue(s[|s| - 1])
  }

  /** Parsing the decimal text of `n` gives `n` back. */
  lemma {:induction false} ParseDecimal(n: nat)
    ensures ParseDigits(Decimal(n)) == n
  {
    var s := Decimal(n);
    if n >= 10 {
      ParseDecimal(n / 10);
      assert s[..|s| - 1] == Decimal(n / 10);
    }
  }

  /** Different numbers have different decimal texts. */
  lemma DecimalInjective(a: nat, b: nat)
    requires Decimal(a) == Decimal(b)
    ensures a == b
  {
    ParseDecimal(a);
    ParseDecimal(b);
  }

  /** The key `sensor_<i>` under which the server stores channel `i`. */
  function SensorKey(i: nat): (k: string)
    ensures |k| > |KeyPrefix| && k[..|KeyPrefix|] == KeyPrefix
  {
    KeyPrefix + Decimal(i)
  }

  lemma SensorKeyInjective(a: nat, b: nat)
    requires SensorKey(a) == SensorKey(b)
    ensures a == b
  {
    assert Decimal(a) == SensorKey(a)[|KeyPrefix|..];
    assert Decimal(b) == SensorKey(b)[|KeyPrefix|..];
    DecimalInjective(a, b);
  }

  /** The keys of channels `lo` .. `hi`, both included. */
  function KeyRange(lo: nat, hi: nat): set<string> {
    set i: nat | lo <= i <= hi :: SensorKey(i)
  }

  /** The 30 keys of the server's store. */
  function AllSensorKeys(): set<string> {
    KeyRange(1, SensorCount)
  }

  /** `KeyRange(lo, hi)` holds exactly one key per channel. */
  lemma {:induction false} KeyRangeSize(lo: nat, hi: nat)
    requires lo <= hi + 1
    ensures |KeyRange(lo, hi)| == hi + 1 - lo
    decreases hi + 1 - lo
  {
    if lo == hi + 1 {
      assert KeyRange(lo, hi) == {};
    } else {
      KeyRangeSize(lo + 1, hi);
      assert KeyRange(lo, hi) == KeyRange(lo + 1, hi) + {SensorKey(lo)};
      if SensorKey(lo) in KeyRange(lo + 1, hi) {
        var i: nat :| lo + 1 <= i <= hi && SensorKey(i) == SensorKey(lo);
        SensorKeyInjective(i, lo);
        assert false;
      }
    }
  }

  /** Cutting a range of channels in two splits its keys into two disjoint parts. */
  lemma KeyRangeSplit(lo: nat, mid: nat, hi: nat)
    requires lo <= mid + 1 && mid <= hi
    ensures KeyRange(lo, mid) !! KeyRange(mid + 1, hi)
    ensures KeyRange(lo, mid) + KeyRange(mid + 1, hi) == KeyRange(lo, hi)
  {
    forall k | k in KeyRange(lo, mid) ensures k !in KeyRange(mid + 1, hi) {
      SuffixInRange(k, lo, mid);
      if k in KeyRange(mid + 1, hi) {
        SuffixInRange(k, mid + 1, hi);
      }
    }
    forall k | k in KeyRange(lo, hi) ensures k in KeyRange(lo, mid) || k in KeyRange(mid + 1, hi) {
      var i: nat :| lo <= i <= hi && k == SensorKey(i);
      if i <= mid {
        assert k in KeyRange(lo, mid);
      } else {
        assert k in KeyRange(mid + 1, hi);
      }
    }
  }

  /** Channel number a key names: `parseInt(key.replace('sensor_', ''))`
      for keys of the form `sensor_<digits>`; `None` for any other key. */
  function Suffix(key: string): (r: Option<nat>)
    ensures r.Some? ==> |key| > |KeyPrefix| && key[..|KeyPrefix|] == KeyPrefix
  {
    if |key| > |KeyPrefix| && key[..|KeyPrefix|] == KeyPrefix && AllDigits(key[|KeyPrefix|..])
    then Some(ParseDigits(key[|KeyPrefix|..]))
    else None
  }

  /** The channel number of `sensor_<i>` is `i`. */
  lemma SuffixOfSensorKey(i: nat)
    ensures Suffix(SensorKey(i)) == Some(i)
  {
    assert SensorKey(i)[|KeyPrefix|..] == Decimal(i);
    ParseDecimal(i);
  }

  /** Every key in `KeyRange(lo, hi)` names a channel between `lo` and `hi`. */
  lemma SuffixInRange(k: string, lo: nat, hi: nat)
    requires k in KeyRange(lo, hi)
    ensures Suffix(k).Some? && lo <= Suffix(k).value <= hi
  {
    var i: nat :| lo <= i <= hi && SensorKey(i) == k;
    SuffixOfSensorKey(i);
  }

  /** The client's `sensorValues[key] || 0`: a missing reading counts as 0. */
  function ValueOr0(values: map<string, int>, key: string): (v: int)
    ensures key in values ==> v == values[key]
    ensures key !in values ==> v == 0
  {
    if key in values then values[key] else 0
  }
}
