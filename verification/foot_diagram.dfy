/** The two-foot diagram: fixed positions for the 30 sensor points, split
    between the two feet, and a green-to-red colour for each point's reading. */
module FootDiagram {
  import opened Sensors

  /** Where a sensor point is drawn on the foot image, as CSS percentages. */
  datatype Position = Position(top: string, left: string)

  /** `leftFootSensorPositions`. */
  const LeftFootSensorPositions: map<string, Position> := map[
    "sensor_1" := Position("85%", "50%"),
    "sensor_2" := Position("75%", "40%"),
    "sensor_3" := Position("70%", "60%"),
    "sensor_4" := Position("60%", "65%"),
    "sensor_5" := Position("50%", "72%"),
    "sensor_6" := Position("42%", "75%"),
    "sensor_7" := Position("36%", "65%"),
    "sensor_8" := Position("32%", "55%"),
    "sensor_9" := Position("28%", "40%"),
    "sensor_10" := Position("25%", "25%"),
    "sensor_11" := Position("20%", "75%"),
    "sensor_12" := Position("16%", "66%"),
    "sensor_13" := Position("13.5%", "56%"),
    "sensor_14" := Position("11%", "45%"),
    "sensor_15" := Position("9%", "28%")
  ]

  /** `rightFootSensorPositions`. */
  const RightFootSensorPositions: map<string, Position> := map[
    "sensor_16" := Position("85%", "50%"),
    "sensor_17" := Position("75%", "60%"),
    "sensor_18" := Position("70%", "40%"),
    "sensor_19" := Position("60%", "35%"),
    "sensor_20" := Position("50%", "28%"),
    "sensor_21" := Position("42%", "25%"),
    "sensor_22" := Position("36%", "35%"),
    "sensor_23" := Position("32%", "45%"),
    "sensor_24" := Position("28%", "60%"),
    "sensor_25" := Position("25%", "75%"),
    "sensor_26" := Position("20%", "25%"),
    "sensor_27" := Position("16%", "34%"),
    "sensor_28" := Position("13.5%", "44%"),
    "sensor_29" := Position("11%", "55%"),
    "sensor_30" := Position("9%", "72%")
  ]

  /** The keys of channels 1..15 as the left map spells them. */
  lemma LeftKeyTexts()
    ensures SensorKey(1) == "sensor_1" && SensorKey(2) == "sensor_2" && SensorKey(3) == "sensor_3"
    ensures SensorKey(4) == "sensor_4" && SensorKey(5) == "sensor_5" && SensorKey(6) == "sensor_6"
    ensures SensorKey(7) == "sensor_7" && SensorKey(8) == "sensor_8" && SensorKey(9) == "sensor_9"
    ensures SensorKey(10) == "sensor_10" && SensorKey(11) == "sensor_11" && SensorKey(12) == "sensor_12"
    ensures SensorKey(13) == "sensor_13" && SensorKey(14) == "sensor_14" && SensorKey(15) == "sensor_15"
  {
  }

  /** The keys of channels 16..22 as the right map spells them. */
  lemma RightKeyTextsLow()
    ensures SensorKey(16) == "sensor_16" && SensorKey(17) == "sensor_17" && SensorKey(18) == "sensor_18"
    ensures SensorKey(19) == "sensor_19" && SensorKey(20) == "sensor_20" && SensorKey(21) == "sensor_21"
    ensures SensorKey(22) == "sensor_22"
  {
    assert Decimal(1) == "1" && Decimal(2) == "2";
  }

  /** The keys of channels 23..30 as the right map spells them. */
  lemma RightKeyTextsHigh()
    ensures SensorKey(23) == "sensor_23" && SensorKey(24) == "sensor_24"
    ensures SensorKey(25) == "sensor_25" && SensorKey(26) == "sensor_26" && SensorKey(27) == "sensor_27"
    ensures SensorKey(28) == "sensor_28" && SensorKey(29) == "sensor_29" && SensorKey(30) == "sensor_30"
  {
    assert Decimal(2) == "2" && Decimal(3) == "3";
  }

  /** The left map holds exactly the keys of channels 1..15. */
  lemma LeftFootKeys()
    ensures LeftFootSensorPositions.Keys == KeyRange(1, 15)
  {
    LeftKeyTexts();
    forall k | k in KeyRange(1, 15) ensures k in LeftFootSensorPositions {
      var i: nat :| 1 <= i <= 15 && k == SensorKey(i);
    }
  }

  /** The right map holds exactly the keys of channels 16..30. */
  lemma RightFootKeys()
    ensures RightFootSensorPositions.Keys == KeyRange(16, 30)
  {
    RightKeyTextsLow();
    RightKeyTextsHigh();
    forall k | k in KeyRange(16, 30) ensures k in RightFootSensorPositions {
      var i: nat :| 16 <= i <= 30 && k == SensorKey(i);
    }
  }

  /** The two feet split the server's 30 keys between them: no key on both,
      none left out. */
  lemma FeetPartitionSensors()
    ensures LeftFootSensorPositions.Keys !! RightFootSensorPositions.Keys
    ensures LeftFootSensorPositions.Keys + RightFootSensorPositions.Keys == AllSensorKeys()
  {
    LeftFootKeys();
    RightFootKeys();
    KeyRangeSplit(1, 15, SensorCount);
  }

  /** Each foot carries 15 distinct sensors. */
  lemma FifteenPerFoot()
    ensures |LeftFootSensorPositions.Keys| == 15 && |RightFootSensorPositions.Keys| == 15
  {
    LeftFootKeys();
    RightFootKeys();
    KeyRangeSize(1, 15);
    KeyRangeSize(16, 30);
  }

  /** `Math.min(100, Math.max(0, value))`. */
  function Clamp(value: int): (c: int)
    ensures 0 <= c <= 100
    ensures 0 <= value <= 100 ==> c == value
    ensures value > 100 ==> c == 100
    ensures value < 0 ==> c == 0
  {
    if value < 0 then 0 else if value > 100 then 100 else value
  }

  datatype Rgb = Rgb(r: int, g: int, b: int)

  /** `getColorIntensity`: below half of the clamped scale, red rises from 0
      with green held at 255; from half on, green falls to 0 with red held at
      255; blue is always 0. The gradient is taken with exact arithmetic:
      `floor(255 * 2c / 100)` and `floor(255 * (1 - (c / 100 - 0.5) * 2))`. */
  function ColourIntensity(value: int): (rgb: Rgb)
    ensures rgb.b == 0
    ensures 0 <= rgb.r <= 255 && 0 <= rgb.g <= 255
    ensures Clamp(value) < 50 ==> rgb.g == 255
    ensures Clamp(value) >= 50 ==> rgb.r == 255
  {
    var c := Clamp(value);
    if c < 50 then Rgb(51 * c / 10, 255, 0)
    else Rgb(255, 51 * (100 - c) / 10, 0)
  }

  /** Out-of-range readings colour like the nearest end of the scale. */
  lemma ClampedColours(value: int)
    ensures value > 100 ==> ColourIntensity(value) == ColourIntensity(100)
    ensures value < 0 ==> ColourIntensity(value) == ColourIntensity(0)
  {
  }

  /** The ends of the scale: pure green at 0, pure red at 100. */
  lemma ColourEndpoints()
    ensures ColourIntensity(0) == Rgb(0, 255, 0)
    ensures ColourIntensity(100) == Rgb(255, 0, 0)
  {
  }

  /** A higher reading is never less red and never more green. */
  lemma ColourMonotone(a: int, b: int)
    requires a <= b
    ensures ColourIntensity(a).r <= ColourIntensity(b).r
    ensures ColourIntensity(a).g >= ColourIntensity(b).g
  {
    var ca, cb := Clamp(a), Clamp(b);
    assert 51 * ca <= 51 * cb;
    assert 51 * (100 - cb) <= 51 * (100 - ca);
    if ca < 50 && cb < 50 {
      DivMonotone(51 * ca, 51 * cb);
    } else if ca >= 50 && cb >= 50 {
      DivMonotone(51 * (100 - cb), 51 * (100 - ca));
    }
  }

  lemma DivMonotone(x: nat, y: nat)
    requires x <= y
    ensures x / 10 <= y / 10
  {
  }

  /** Colour of one sensor point: `sensorValues[key] || 0`, so a missing
      reading is drawn pure green. */
  function PointColour(values: map<string, int>, key: string): (rgb: Rgb)
    ensures key !in values ==> rgb == Rgb(0, 255, 0)
    ensures key in values ==> rgb == ColourIntensity(values[key])
  {
    ColourIntensity(ValueOr0(values, key))
  }

  /** The colours drawn on one foot: one per key of its position map. */
  function FootColours(positions: map<string, Position>, values: map<string, int>): (colours: map<string, Rgb>)
    ensures colours.Keys == positions.Keys
    ensures forall k | k in colours :: colours[k] == PointColour(values, k)
    ensures forall k | k in colours :: colours[k].b == 0 && (k !in values ==> colours[k] == Rgb(0, 255, 0))
  {
    map k | k in positions :: PointColour(values, k)
  }

  /** Between them the two feet draw every one of the server's 30 sensors once. */
  lemma DiagramCoversStore(values: map<string, int>)
    ensures FootColours(LeftFootSensorPositions, values).Keys
          + FootColours(RightFootSensorPositions, values).Keys == AllSensorKeys()
    ensures FootColours(LeftFootSensorPositions, values).Keys
         !! FootColours(RightFootSensorPositions, values).Keys
  {
    FeetPartitionSensors();
  }
}
