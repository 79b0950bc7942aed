/** The value pipeline of a sensor: choose the snapshot to read, run the descriptor's
    extractor on it, validate the result against the descriptor's device class. An
    extractor that raises and a numeric value that cannot be coerced or is out of range
    both end in "no value". */
module Pipeline {
  import opened Values
  import opened Strings
  import opened Descriptors

  /** Lowest and highest reading accepted for a numeric device class. */
  const MinReading: real := -1000.0
  const MaxReading: real := 10000.0

  /** The device classes whose values are coerced to a number and range checked. */
  predicate IsNumericClass(c: Option<DeviceClass>) {
    c == Some(Voltage) || c == Some(Current) || c == Some(Temperature) || c == Some(Power)
  }

  /** A reading passes the range check unless it is below the minimum or above the maximum. */
  predicate InRange(x: real) {
    !(x < MinReading || x > MaxReading)
  }

  /** What a sensor may publish: for a numeric class a number within range, anything otherwise. */
  predicate Admissible(d: Descriptor, v: Value) {
    IsNumericClass(d.deviceClass) ==> v.Num? && InRange(v.x)
  }

  /** The snapshot a sensor reads: the bound device's parsed data when it holds anything,
      else the coordinator's data. An empty result means there is nothing to read. */
  function SelectData(deviceData: Option<Snapshot>, coordinatorData: Snapshot): (r: Snapshot)
    ensures deviceData.Some? && deviceData.value != map[] ==> r == deviceData.value
    ensures (deviceData.None? || deviceData.value == map[]) ==> r == coordinatorData
    ensures r == map[] <==> (deviceData.None? || deviceData.value == map[]) && coordinatorData == map[]
  {
    if deviceData.Some? && deviceData.value != map[] then deviceData.value else coordinatorData
  }

  /** Validation of an extracted value: numeric classes get `float(value)` and the range
      check, the other classes publish the value as it is. */
  function Validate(d: Descriptor, v: Value): (r: Option<Value>)
    ensures r.Some? ==> Admissible(d, r.value)
    ensures r.Some? ==> Coerce(r.value) == Coerce(v)
    ensures !IsNumericClass(d.deviceClass) ==> r == Some(v)
    ensures IsNumericClass(d.deviceClass) ==>
      (r.Some? <==> Coerce(v).Some? && InRange(Coerce(v).value))
  {
    if IsNumericClass(d.deviceClass) then
      match Coerce(v)
      case None => None
      case Some(x) => if x < MinReading || x > MaxReading then None else Some(Num(x))
    else Some(v)
  }

  /** The value a sensor with descriptor d computes from a snapshot, or None: nothing to
      read, the key missing, the extractor raising, or validation failing. */
  function Evaluate(d: Descriptor, data: Snapshot): (r: Option<Value>)
    ensures data == map[] ==> r == None
    ensures ReadKey(d.extractor) !in data ==> r == None
    ensures Extract(d.extractor, data) == Failed ==> r == None
    ensures r.Some? ==> Admissible(d, r.value)
    ensures r.Some? ==>
      Extract(d.extractor, data).Present? && Validate(d, Extract(d.extractor, data).value) == r
    ensures data != map[] && Extract(d.extractor, data).Present? ==>
      r == Validate(d, Extract(d.extractor, data).value)
  {
    if data == map[] then None
    else match Extract(d.extractor, data)
      case Absent => None
      case Failed => None
      case Present(v) => Validate(d, v)
  }

  /** A sensor's value depends only on the one key its extractor reads. */
  lemma EvaluateReadsOnlyItsKey(d: Descriptor, d1: Snapshot, d2: Snapshot)
    requires ReadKey(d.extractor) in d1 <==> ReadKey(d.extractor) in d2
    requires ReadKey(d.extractor) in d1 ==> d1[ReadKey(d.extractor)] == d2[ReadKey(d.extractor)]
    ensures Evaluate(d, d1) == Evaluate(d, d2)
  {
    ExtractReadsOnlyItsKey(d.extractor, d1, d2);
  }

  /** The range check is inclusive at both ends: -1000 and 10000 pass, anything beyond fails. */
  lemma RangeBoundaries(d: Descriptor, x: real)
    requires IsNumericClass(d.deviceClass)
    ensures Validate(d, Num(x)) == if MinReading <= x <= MaxReading then Some(Num(x)) else None
    ensures Validate(d, Num(MinReading)) == Some(Num(MinReading))
    ensures Validate(d, Num(MaxReading)) == Some(Num(MaxReading))
    ensures Validate(d, Num(MaxReading + 0.001)) == None
    ensures Validate(d, Num(MinReading - 0.001)) == None
  {
  }

  /** Text holding a character that is not part of a decimal number is rejected by a
      numeric sensor. */
  lemma NonNumericTextRejected(d: Descriptor, s: string, i: nat)
    requires IsNumericClass(d.deviceClass)
    requires i < |s| && !NumberChar(s[i])
    ensures Validate(d, Text(s)) == None
  {
    Values.NonNumericTextRejected(s, i);
  }

  /** A numeric sensor accepts an in-range integer sent as decimal text and publishes it
      as a number. */
  lemma NumericTextAccepted(d: Descriptor, n: int)
    requires IsNumericClass(d.deviceClass)
    requires -1000 <= n <= 10000
    ensures Validate(d, Text(IntToString(n))) == Some(Num(n as real))
  {
    ParseIntToString(n);
  }

  /** A numeric sensor rejects an out-of-range integer even when it arrives as text. */
  lemma NumericTextOutOfRange(d: Descriptor, n: int)
    requires IsNumericClass(d.deviceClass)
    requires n < -1000 || n > 10000
    ensures Validate(d, Text(IntToString(n))) == None
  {
    ParseIntToString(n);
  }

  /** Re-validating a published value changes nothing. */
  lemma ValidateIdempotent(d: Descriptor, v: Value)
    requires Validate(d, v).Some?
    ensures Validate(d, Validate(d, v).value) == Validate(d, v)
  {
  }

  /** A kilo-scaled energy counter publishes the raw number divided by 1000, nothing when
      the key is missing, and nothing when the raw value is text (the division raises). */
  lemma KiloScaledEvaluate(d: Descriptor, data: Snapshot)
    requires d.extractor.KiloScaled? && !IsNumericClass(d.deviceClass)
    ensures Evaluate(d, data) ==
      if d.extractor.key !in data then None
      else match data[d.extractor.key]
        case Num(x) => Some(Num(x / 1000.0))
        case Text(_) => None
  {
  }
}
