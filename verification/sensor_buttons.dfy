/** The sensor button grid: one button per sensor key, ordered by the key's
    channel number, coloured by a three-threshold band of the reading. */
module SensorButtons {
  import opened Sensors

  datatype Colour = White | Black | Green | Yellow | Red {
    /** The CSS colour name the component writes. */
    function Css(): string {
      match this
      case White => "white"
      case Black => "black"
      case Green => "green"
      case Yellow => "yellow"
      case Red => "red"
    }
  }

  /** `getSensorColor`: zero is white, anything else up to 30 (negative
      readings included) green, 31..70 yellow, above 70 red. */
  function SensorColour(value: int): (c: Colour)
    ensures c == White <==> value == 0
    ensures c == Green <==> value != 0 && value <= 30
    ensures c == Yellow <==> 30 < value <= 70
    ensures c == Red <==> 70 < value
  {
    if value == 0 then White
    else if value <= 30 then Green
    else if value <= 70 then Yellow
    else Red
  }

  /** `getTextColor`: black on the white and yellow bands, white on green and red. */
  function TextColour(value: int): (c: Colour)
    ensures c == Black <==> value == 0 || 30 < value <= 70
    ensures c == White <==> value != 0 && (value <= 30 || 70 < value)
  {
    if value == 0 then Black
    else if value <= 30 then White
    else if value <= 70 then Black
    else White
  }

  /** The two colour functions always agree on the band: background and text
      come only in the pairs white/black, green/white, yellow/black, red/white. */
  lemma ColourPairs(value: int)
    ensures (SensorColour(value), TextColour(value)) in
      {(White, Black), (Green, White), (Yellow, Black), (Red, White)}
  {
  }

  /** Raising a positive reading never moves its background to a lower band. */
  lemma BandsAreMonotone(a: int, b: int)
    requires 0 < a <= b
    ensures Rank(SensorColour(a)) <= Rank(SensorColour(b))
  {
  }

  /** Position of a background colour in the green-yellow-red scale. */
  function Rank(c: Colour): nat {
    match c
    case Green => 1
    case Yellow => 2
    case Red => 3
    case _ => 0
  }

  /** One rendered button. */
  datatype Button = Button(caption: string, value: int, background: Colour, text: Colour, border: string)

  /** Keys of the form `sensor_` followed by digits. Other keys are left
      out: the client only ever holds the server's keys `sensor_1` .. `sensor_30`. */
  predicate WellFormedKeys(keys: seq<string>) {
    forall k | k in keys :: Suffix(k).Some?
  }

  /** The number the comparator compares for a key:
      `parseInt(key.replace('sensor_', ''))` on a well-formed key. */
  function KeyNumber(key: string): (n: nat)
    ensures Suffix(key).Some? ==> n == Suffix(key).value
  {
    match Suffix(key)
    case Some(n) => n
    case None => 0
  }

  predicate SortedBy(s: seq<string>, num: string -> nat) {
    forall i, j | 0 <= i < j < |s| :: num(s[i]) <= num(s[j])
  }

  /** Insert `x` before the first element whose number is not smaller. */
  function InsertBy(x: string, sorted: seq<string>, num: string -> nat): (r: seq<string>)
    ensures multiset(r) == multiset(sorted) + multiset{x}
  {
    if sorted == [] || num(x) <= num(sorted[0]) then
      [x] + sorted
    else
      assert sorted == [sorted[0]] + sorted[1..];
      [sorted[0]] + InsertBy(x, sorted[1..], num)
  }

  /** An element no larger than the head of a sorted sequence can go in front. */
  lemma PrependKeepsOrder(x: string, sorted: seq<string>, num: string -> nat)
    requires SortedBy(sorted, num)
    requires sorted == [] || num(x) <= num(sorted[0])
    ensures SortedBy([x] + sorted, num)
  {
    var r := [x] + sorted;
    forall i, j | 0 <= i < j < |r| ensures num(r[i]) <= num(r[j]) {
      if i == 0 {
        assert r[j] == sorted[j - 1];
      } else {
        assert r[i] == sorted[i - 1] && r[j] == sorted[j - 1];
      }
    }
  }

  /** The head of a sorted sequence stays in front of the rest with a
      larger element inserted into it. */
  lemma HeadKeepsOrder(x: string, sorted: seq<string>, rest: seq<string>, num: string -> nat)
    requires SortedBy(sorted, num) && sorted != [] && num(x) > num(sorted[0])
    requires SortedBy(rest, num) && multiset(rest) == multiset(sorted[1..]) + multiset{x}
    ensures SortedBy([sorted[0]] + rest, num)
  {
    forall y | y in rest ensures num(sorted[0]) <= num(y) {
      assert y in multiset(rest);
      if y != x {
        assert y in multiset(sorted[1..]);
        var j :| 0 <= j < |sorted[1..]| && sorted[1..][j] == y;
        assert sorted[j + 1] == y;
      }
    }
    var r := [sorted[0]] + rest;
    forall i, j | 0 <= i < j < |r| ensures num(r[i]) <= num(r[j]) {
      if i == 0 {
        assert r[j] == rest[j - 1] && rest[j - 1] in rest;
      } else {
        assert r[i] == rest[i - 1] && r[j] == rest[j - 1];
      }
    }
  }

  /** Inserting into a sorted sequence keeps it sorted. */
  lemma {:induction false} InsertKeepsOrder(x: string, sorted: seq<string>, num: string -> nat)
    requires SortedBy(sorted, num)
    ensures SortedBy(InsertBy(x, sorted, num), num)
  {
    if sorted == [] || num(x) <= num(sorted[0]) {
      PrependKeepsOrder(x, sorted, num);
    } else {
      assert SortedBy(sorted[1..], num);
      InsertKeepsOrder(x, sorted[1..], num);
      HeadKeepsOrder(x, sorted, InsertBy(x, sorted[1..], num), num);
    }
  }

  /** Insertion sort by `num`: a sorted permutation of `s`. */
  function SortBy(s: seq<string>, num: string -> nat): (r: seq<string>)
    ensures multiset(r) == multiset(s)
    ensures SortedBy(r, num)
  {
    if s == [] then []
    else
      assert s == [s[0]] + s[1..];
      var rest := SortBy(s[1..], num);
      InsertKeepsOrder(s[0], rest, num);
      InsertBy(s[0], rest, num)
  }

  /** `Object.keys(sensorValues).sort((a, b) => numA - numB)`: the keys in
      ascending channel-number order, each key kept exactly as often as given. */
  function SortKeys(keys: seq<string>): (r: seq<string>)
    requires WellFormedKeys(keys)
    ensures multiset(r) == multiset(keys) && |r| == |keys|
    ensures WellFormedKeys(r)
    ensures forall i, j | 0 <= i < j < |r| :: Suffix(r[i]).value <= Suffix(r[j]).value
  {
    var r := SortBy(keys, KeyNumber);
    assert |r| == |multiset(r)| == |multiset(keys)| == |keys|;
    assert forall k | k in r :: k in multiset(r);
    r
  }

  /** No two distinct elements of `s` have the same number. */
  predicate NumbersDistinct(s: seq<string>, num: string -> nat) {
    forall x, y | x in s && y in s && num(x) == num(y) :: x == y
  }

  /** Dropping the head keeps a sequence sorted and its numbers distinct. */
  lemma TailKeepsOrder(s: seq<string>, num: string -> nat)
    requires s != []
    ensures SortedBy(s, num) ==> SortedBy(s[1..], num)
    ensures NumbersDistinct(s, num) ==> NumbersDistinct(s[1..], num)
  {
    assert forall x | x in s[1..] :: x in s;
  }

  lemma TailMultiset(s: seq<string>)
    requires s != []
    ensures multiset(s[1..]) == multiset(s) - multiset{s[0]}
  {
    assert s == [s[0]] + s[1..];
  }

  /** Two sorted arrangements of the same elements with distinct numbers
      start with the same element: the one with the smallest number. */
  lemma SameFirst(s: seq<string>, t: seq<string>, num: string -> nat)
    requires SortedBy(s, num) && SortedBy(t, num)
    requires multiset(s) == multiset(t) && NumbersDistinct(s, num) && s != []
    ensures t != [] && s[0] == t[0]
  {
    assert s[0] in multiset(t);
    var j :| 0 <= j < |t| && t[j] == s[0];
    assert t[0] in multiset(s);
    var i :| 0 <= i < |s| && s[i] == t[0];
    assert num(s[0]) <= num(s[i]) == num(t[0]) <= num(t[j]) == num(s[0]);
  }

  /** Two sorted arrangements of the same elements with distinct numbers
      agree on their head, and their tails are again such a pair. */
  lemma TailsAgain(s: seq<string>, t: seq<string>, num: string -> nat)
    requires SortedBy(s, num) && SortedBy(t, num)
    requires multiset(s) == multiset(t) && NumbersDistinct(s, num) && s != []
    ensures t != [] && s[0] == t[0]
    ensures SortedBy(s[1..], num) && SortedBy(t[1..], num)
    ensures multiset(s[1..]) == multiset(t[1..]) && NumbersDistinct(s[1..], num)
  {
    SameFirst(s, t, num);
    TailMultiset(s);
    TailMultiset(t);
    TailKeepsOrder(s, num);
    TailKeepsOrder(t, num);
  }

  lemma SameHeadSameTail(s: seq<string>, t: seq<string>)
    requires s != [] && t != [] && s[0] == t[0] && s[1..] == t[1..]
    ensures s == t
  {
    assert s == [s[0]] + s[1..];
    assert t == [t[0]] + t[1..];
  }

  /** Two sorted arrangements of the same elements with distinct numbers
      are the same sequence. */
  lemma {:induction false} SortedArrangementUnique(s: seq<string>, t: seq<string>, num: string -> nat)
    requires SortedBy(s, num) && SortedBy(t, num)
    requires multiset(s) == multiset(t) && NumbersDistinct(s, num)
    ensures s == t
  {
    if s == [] {
      assert |t| == |multiset(t)| == 0;
    } else {
      TailsAgain(s, t, num);
      SortedArrangementUnique(s[1..], t[1..], num);
      SameHeadSameTail(s, t);
    }
  }

  /** `sensor_lo` .. `sensor_hi` in channel order. */
  function KeySeq(lo: nat, hi: nat): (r: seq<string>)
    requires lo <= hi + 1
    ensures |r| == hi + 1 - lo
    ensures forall i | 0 <= i < |r| :: r[i] == SensorKey(lo + i)
  {
    seq(hi + 1 - lo, i requires 0 <= i => SensorKey(lo + i))
  }

  /** `KeySeq` is already in channel order, one key per channel. */
  lemma KeySeqSorted(lo: nat, hi: nat)
    requires lo <= hi + 1
    ensures WellFormedKeys(KeySeq(lo, hi))
    ensures SortedBy(KeySeq(lo, hi), KeyNumber) && NumbersDistinct(KeySeq(lo, hi), KeyNumber)
  {
    var r := KeySeq(lo, hi);
    forall i | 0 <= i < |r| ensures KeyNumber(r[i]) == lo + i && Suffix(r[i]).Some? {
      SuffixOfSensorKey(lo + i);
    }
  }

  /** Whatever order the server's 30 keys arrive in, the grid lists them
      `sensor_1`, `sensor_2`, ..., `sensor_30` (so `sensor_2` before `sensor_10`). */
  lemma ServerKeysSorted(keys: seq<string>)
    requires multiset(keys) == multiset(KeySeq(1, SensorCount))
    ensures WellFormedKeys(keys)
    ensures SortKeys(keys) == KeySeq(1, SensorCount)
  {
    var ks := KeySeq(1, SensorCount);
    KeySeqSorted(1, SensorCount);
    assert forall k | k in keys :: k in multiset(ks);
    SortedArrangementUnique(ks, SortBy(keys, KeyNumber), KeyNumber);
  }

  /** The button for one key; `sensorValues[key] || 0` is its reading. */
  function ButtonFor(values: map<string, int>, key: string): (b: Button)
    requires Suffix(key).Some?
    ensures b.value == ValueOr0(values, key)
    ensures b.background == SensorColour(b.value) && b.text == TextColour(b.value)
    ensures key == KeyPrefix + b.caption && AllDigits(b.caption)
    ensures (b.background, b.text) in {(White, Black), (Green, White), (Yellow, Black), (Red, White)}
    ensures b.border == "#ccc" <==> b.background == White
    ensures b.background != White ==> b.border == b.background.Css()
  {
    var v := ValueOr0(values, key);
    var bg := SensorColour(v);
    ColourPairs(v);
    assert key == KeyPrefix + key[|KeyPrefix|..];
    Button(key[|KeyPrefix|..], v, bg, TextColour(v), if bg == White then "#ccc" else bg.Css())
  }

  /** A sensor with no reading shows white with black text and a grey border. */
  lemma MissingReadingIsWhite(values: map<string, int>, key: string)
    requires Suffix(key).Some? && key !in values
    ensures ButtonFor(values, key).value == 0
    ensures ButtonFor(values, key).background == White
    ensures ButtonFor(values, key).text == Black && ButtonFor(values, key).border == "#ccc"
  {
  }

  /** The grid: one button per key, in sorted order. */
  function Buttons(keys: seq<string>, values: map<string, int>): (r: seq<Button>)
    requires WellFormedKeys(keys)
    ensures |r| == |keys|
    ensures forall i | 0 <= i < |r| :: r[i] == ButtonFor(values, SortKeys(keys)[i])
  {
    var sorted := SortKeys(keys);
    assert |sorted| == |multiset(sorted)| == |keys|;
    seq(|keys|, i requires 0 <= i < |keys| => ButtonFor(values, sorted[i]))
  }

  /** For the server's 30 keys, button `i` is labelled with channel `i + 1`. */
  lemma ServerGridLabels(keys: seq<string>, values: map<string, int>, i: nat)
    requires multiset(keys) == multiset(KeySeq(1, SensorCount))
    requires i < SensorCount
    ensures WellFormedKeys(keys) && |Buttons(keys, values)| == SensorCount
    ensures Buttons(keys, values)[i].caption == Decimal(i + 1)
    ensures Buttons(keys, values)[i].value == ValueOr0(values, SensorKey(i + 1))
  {
    ServerKeysSorted(keys);
    assert |keys| == |multiset(keys)| == SensorCount;
    var b := Buttons(keys, values)[i];
    assert KeyPrefix + b.caption == SensorKey(i + 1) == KeyPrefix + Decimal(i + 1);
    assert b.caption == (KeyPrefix + b.caption)[|KeyPrefix|..];
  }
}
