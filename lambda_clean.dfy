/** `lambda_fetch_clean/lambda_function.py`: the scheduled Lambda that
    fetches (here: simulates) GDELT events, normalises each record to a fixed
    schema, stores the batch in S3 and answers with a status document.

    Python values are `PyValue`; a raw record is a `dict` from field names to
    values. Parsing a number out of a string (`float('2.5')`, `int('8')`) is
    Python's own and is taken as the parameter `parse`; `datetime.utcnow()`,
    the S3 upload and the SNS notification are parameters or left out. */
module LambdaClean {
  import opened Wrappers
  import opened Decimal

  datatype PyValue =
    | PStr(s: string)
    | PInt(i: int)
    | PFloat(f: real)
    | PBool(b: bool)
    | PNone
    | PContainer   // a list or dict: `float()` and `int()` reject it

  type RawRecord = map<string, PyValue>

  /** A cleaned record: its 22 fields in the order of the dict literal. */
  type Record = seq<(string, PyValue)>

  /** What `float(s)` and `int(s)` make of a string, `None` when they raise `ValueError`. */
  datatype Parsers = Parsers(toFloat: string -> Option<real>, toInt: string -> Option<int>)

  /** The exception that aborts the run, with the field being converted. */
  datatype Failure =
    | ConversionTypeError(field: string, value: PyValue)
    | ConversionValueError(field: string, value: PyValue)
    | StorageFailure(reason: string)

  /** How each field of the cleaned record is obtained. */
  datatype Kind = Text | FloatField | IntField | ProcessedAt

  const Schema: seq<(string, Kind)> := [
    ("event_id", Text), ("date", Text), ("time", Text),
    ("actor1_name", Text), ("actor2_name", Text),
    ("event_code", Text), ("event_base_code", Text), ("event_root_code", Text),
    ("quad_class", Text),
    ("goldstein_scale", FloatField),
    ("num_mentions", IntField), ("num_sources", IntField), ("num_articles", IntField),
    ("avg_tone", FloatField),
    ("actor1_geo_country_code", Text), ("actor2_geo_country_code", Text),
    ("action_geo_country_code", Text),
    ("action_geo_lat", FloatField), ("action_geo_long", FloatField),
    ("action_geo_full_name", Text), ("date_added", Text),
    ("processed_at", ProcessedAt)
  ]

  function SchemaKeys(): (ks: seq<string>)
    ensures |ks| == |Schema|
    ensures forall i :: 0 <= i < |Schema| ==> ks[i] == Schema[i].0
  {
    seq(|Schema|, i requires 0 <= i < |Schema| => Schema[i].0)
  }

  /** Python's `int(x)` of a float truncates toward zero. */
  function Truncate(f: real): (n: int)
    ensures f >= 0.0 ==> n as real <= f < n as real + 1.0
    ensures f < 0.0 ==> n as real - 1.0 < f <= n as real
  {
    if f >= 0.0 then f.Floor else -((-f).Floor)
  }

  /** `float(v)`. */
  function ToFloat(parse: Parsers, field: string, v: PyValue): Result<PyValue, Failure> {
    match v
    case PInt(i) => Ok(PFloat(i as real))
    case PFloat(f) => Ok(PFloat(f))
    case PBool(b) => Ok(PFloat(if b then 1.0 else 0.0))
    case PStr(s) =>
      (match parse.toFloat(s)
       case Some(f) => Ok(PFloat(f))
       case None => Err(ConversionValueError(field, v)))
    case PNone => Err(ConversionTypeError(field, v))
    case PContainer => Err(ConversionTypeError(field, v))
  }

  /** `int(v)`. */
  function ToInt(parse: Parsers, field: string, v: PyValue): Result<PyValue, Failure> {
    match v
    case PInt(i) => Ok(PInt(i))
    case PFloat(f) => Ok(PInt(Truncate(f)))
    case PBool(b) => Ok(PInt(if b then 1 else 0))
    case PStr(s) =>
      (match parse.toInt(s)
       case Some(n) => Ok(PInt(n))
       case None => Err(ConversionValueError(field, v)))
    case PNone => Err(ConversionTypeError(field, v))
    case PContainer => Err(ConversionTypeError(field, v))
  }

  /** `record.get(key, default)`. */
  function GetOr(raw: RawRecord, key: string, default: PyValue): PyValue {
    if key in raw then raw[key] else default
  }

  /** One entry of the dict literal. */
  function CleanField(parse: Parsers, raw: RawRecord, processedAt: string, field: (string, Kind)): Result<PyValue, Failure> {
    var (k, kind) := field;
    match kind
    case Text => Ok(GetOr(raw, k, PStr("")))
    case FloatField => ToFloat(parse, k, GetOr(raw, k, PInt(0)))
    case IntField => ToInt(parse, k, GetOr(raw, k, PInt(0)))
    case ProcessedAt => Ok(PStr(processedAt))
  }

  /** The dict literal, evaluated left to right: the first conversion that
      raises aborts the record. */
  function CleanFields(parse: Parsers, raw: RawRecord, processedAt: string, fields: seq<(string, Kind)>): Result<Record, Failure>
    decreases |fields|
  {
    if fields == [] then Ok([])
    else
      match CleanFields(parse, raw, processedAt, fields[..|fields| - 1])
      case Err(e) => Err(e)
      case Ok(r) =>
        match CleanField(parse, raw, processedAt, fields[|fields| - 1])
        case Err(e) => Err(e)
        case Ok(v) => Ok(r + [(fields[|fields| - 1].0, v)])
  }

  function CleanRecord(parse: Parsers, raw: RawRecord, processedAt: string): Result<Record, Failure> {
    CleanFields(parse, raw, processedAt, Schema)
  }

  /** `clean_gdelt_data`: record `i` is stamped with the `i`-th reading of the clock. */
  function CleanAll(parse: Parsers, raws: seq<RawRecord>, clock: nat -> string): Result<seq<Record>, Failure>
    decreases |raws|
  {
    if raws == [] then Ok([])
    else
      match CleanAll(parse, raws[..|raws| - 1], clock)
      case Err(e) => Err(e)
      case Ok(rs) =>
        match CleanRecord(parse, raws[|raws| - 1], clock(|raws| - 1))
        case Err(e) => Err(e)
        case Ok(r) => Ok(rs + [r])
  }

  /** The loop of `clean_gdelt_data`, appending to `cleaned_data`. */
  method CleanData(parse: Parsers, raws: seq<RawRecord>, clock: nat -> string) returns (result: Result<seq<Record>, Failure>)
    ensures result == CleanAll(parse, raws, clock)
  {
    var cleaned: seq<Record> := [];
    var i := 0;
    while i < |raws|
      invariant 0 <= i <= |raws|
      invariant CleanAll(parse, raws[..i], clock) == Ok(cleaned)
    {
      assert raws[..i + 1][..i] == raws[..i];
      var r := CleanRecord(parse, raws[i], clock(i));
      if r.Err? {
        CleanAllFirstFailure(parse, raws, clock, i + 1);
        return Err(r.error);
      }
      cleaned := cleaned + [r.value];
      i := i + 1;
    }
    assert raws[..i] == raws;
    return Ok(cleaned);
  }

  // ---------------------------------------------------------------------
  // Properties of the record normaliser.

  /** A cleaned record has exactly the schema's keys, in order, and each
      value is what the field's rule makes of the raw record. */
  lemma {:induction false} CleanFieldsShape(parse: Parsers, raw: RawRecord, processedAt: string, fields: seq<(string, Kind)>)
    requires CleanFields(parse, raw, processedAt, fields).Ok?
    ensures var r := CleanFields(parse, raw, processedAt, fields).value;
      |r| == |fields| &&
      forall i :: 0 <= i < |fields| ==>
        r[i].0 == fields[i].0 && CleanField(parse, raw, processedAt, fields[i]) == Ok(r[i].1)
    decreases |fields|
  {
    if fields != [] {
      CleanFieldsShape(parse, raw, processedAt, fields[..|fields| - 1]);
    }
  }

  /** A record fails exactly when one of its fields fails, and then with the
      failure of the first such field. */
  lemma {:induction false} CleanFieldsFails(parse: Parsers, raw: RawRecord, processedAt: string, fields: seq<(string, Kind)>)
    ensures CleanFields(parse, raw, processedAt, fields).Err? <==>
      exists i :: 0 <= i < |fields| && CleanField(parse, raw, processedAt, fields[i]).Err?
    ensures CleanFields(parse, raw, processedAt, fields).Err? ==>
      exists i :: 0 <= i < |fields| &&
        CleanField(parse, raw, processedAt, fields[i]) == Err(CleanFields(parse, raw, processedAt, fields).error) &&
        forall j :: 0 <= j < i ==> CleanField(parse, raw, processedAt, fields[j]).Ok?
    decreases |fields|
  {
    if fields != [] {
      var n := |fields| - 1;
      var init := fields[..n];
      CleanFieldsFails(parse, raw, processedAt, init);
      assert forall i :: 0 <= i < n ==> init[i] == fields[i];
      if CleanFields(parse, raw, processedAt, init).Ok? {
        CleanFieldsShape(parse, raw, processedAt, init);
        if CleanField(parse, raw, processedAt, fields[n]).Err? {
          assert forall j :: 0 <= j < n ==> CleanField(parse, raw, processedAt, fields[j]).Ok?;
        }
      }
    }
  }

  lemma SchemaKeysDistinct()
    ensures forall i, j :: 0 <= i < j < |Schema| ==> Schema[i].0 != Schema[j].0
  {
  }

  /** Every cleaned record has the same 22 keys, whatever keys the raw
      record had: extra keys are dropped and missing ones filled in. */
  lemma CleanRecordKeys(parse: Parsers, raw: RawRecord, processedAt: string)
    requires CleanRecord(parse, raw, processedAt).Ok?
    ensures var r := CleanRecord(parse, raw, processedAt).value;
      |r| == 22 && forall i :: 0 <= i < 22 ==> r[i].0 == SchemaKeys()[i]
  {
    CleanFieldsShape(parse, raw, processedAt, Schema);
  }

  /** Text fields are copied as they are, `''` when missing; numeric fields
      are converted, `0` when missing; `processed_at` is the clock reading. */
  lemma CleanRecordValues(parse: Parsers, raw: RawRecord, processedAt: string, i: nat)
    requires CleanRecord(parse, raw, processedAt).Ok? && i < |Schema|
    ensures |CleanRecord(parse, raw, processedAt).value| == |Schema|
    ensures var v := CleanRecord(parse, raw, processedAt).value[i].1;
      var k := Schema[i].0;
      && (Schema[i].1 == Text ==> v == (if k in raw then raw[k] else PStr("")))
      && (Schema[i].1 == FloatField && k !in raw ==> v == PFloat(0.0))
      && (Schema[i].1 == FloatField && k in raw ==> v.PFloat?)
      && (Schema[i].1 == IntField && k !in raw ==> v == PInt(0))
      && (Schema[i].1 == IntField && k in raw ==> v.PInt?)
      && (Schema[i].1 == ProcessedAt ==> v == PStr(processedAt))
  {
    CleanFieldsShape(parse, raw, processedAt, Schema);
  }

  /** The values `float()` and `int()` accept without a parser: numbers and booleans. */
  predicate Numeric(v: PyValue) {
    v.PInt? || v.PFloat? || v.PBool?
  }

  /** A record whose numeric fields are all missing, or all numbers, never fails. */
  lemma NumbersNeverFail(parse: Parsers, raw: RawRecord, processedAt: string)
    requires forall i :: 0 <= i < |Schema| && (Schema[i].1 == FloatField || Schema[i].1 == IntField) && Schema[i].0 in raw ==>
      Numeric(raw[Schema[i].0])
    ensures CleanRecord(parse, raw, processedAt).Ok?
  {
    CleanFieldsFails(parse, raw, processedAt, Schema);
  }

  /** A missing-valued numeric field aborts the record: `float(None)` raises. */
  lemma NoneAborts(parse: Parsers, raw: RawRecord, processedAt: string)
    requires "num_mentions" in raw && raw["num_mentions"] == PNone
    ensures CleanRecord(parse, raw, processedAt).Err?
  {
    CleanFieldsFails(parse, raw, processedAt, Schema);
    assert Schema[10] == ("num_mentions", IntField);
    assert CleanField(parse, raw, processedAt, Schema[10]).Err?;
  }

  /** One output record per input record, in the same order. */
  lemma {:induction false} CleanAllShape(parse: Parsers, raws: seq<RawRecord>, clock: nat -> string)
    requires CleanAll(parse, raws, clock).Ok?
    ensures var rs := CleanAll(parse, raws, clock).value;
      |rs| == |raws| &&
      forall i :: 0 <= i < |raws| ==> CleanRecord(parse, raws[i], clock(i)) == Ok(rs[i])
    decreases |raws|
  {
    if raws != [] {
      var n := |raws| - 1;
      CleanAllShape(parse, raws[..n], clock);
      assert forall i :: 0 <= i < n ==> raws[..n][i] == raws[i];
    }
  }

  /** The batch fails exactly when some record fails. */
  lemma {:induction false} CleanAllFails(parse: Parsers, raws: seq<RawRecord>, clock: nat -> string)
    ensures CleanAll(parse, raws, clock).Err? <==>
      exists i :: 0 <= i < |raws| && CleanRecord(parse, raws[i], clock(i)).Err?
    decreases |raws|
  {
    if raws != [] {
      var n := |raws| - 1;
      CleanAllFails(parse, raws[..n], clock);
      assert forall i :: 0 <= i < n ==> raws[..n][i] == raws[i];
      if CleanAll(parse, raws[..n], clock).Ok? {
        CleanAllShape(parse, raws[..n], clock);
      }
    }
  }

  /** A failing record stops the batch with its own failure when every
      record before it cleans. */
  lemma {:induction false} CleanAllFirstFailure(parse: Parsers, raws: seq<RawRecord>, clock: nat -> string, n: nat)
    requires 0 < n <= |raws|
    requires CleanRecord(parse, raws[n - 1], clock(n - 1)).Err?
    requires CleanAll(parse, raws[..n - 1], clock).Ok?
    ensures CleanAll(parse, raws, clock) == Err(CleanRecord(parse, raws[n - 1], clock(n - 1)).error)
    decreases |raws|
  {
    var m := |raws| - 1;
    if n == |raws| {
      assert raws[..m] == raws[..n - 1];
    } else {
      assert raws[..m][..n - 1] == raws[..n - 1];
      CleanAllFirstFailure(parse, raws[..m], clock, n);
    }
  }

  // ---------------------------------------------------------------------
  // Timestamps and the S3 key.

  /** A `datetime` value (UTC). */
  datatype Timestamp = Timestamp(year: nat, month: nat, day: nat, hour: nat, minute: nat, second: nat, micro: nat)

  /** The ranges `datetime` enforces; years before 1000 are excluded (see README). */
  predicate ValidTimestamp(t: Timestamp) {
    1000 <= t.year <= 9999 && 1 <= t.month <= 12 && 1 <= t.day <= 31 &&
    t.hour < 24 && t.minute < 60 && t.second < 60 && t.micro < 1000000
  }

  /** `strftime('%Y%m%d')`. */
  function DateDigits(t: Timestamp): (r: string)
    requires ValidTimestamp(t)
    ensures |r| == 8 && AllDigits(r)
  {
    Padded(t.year, 4) + Padded(t.month, 2) + Padded(t.day, 2)
  }

  /** `strftime('%H%M%S')`. */
  function TimeDigits(t: Timestamp): (r: string)
    requires ValidTimestamp(t)
    ensures |r| == 6 && AllDigits(r)
  {
    Padded(t.hour, 2) + Padded(t.minute, 2) + Padded(t.second, 2)
  }

  /** `isoformat()`: the microseconds are written only when they are not zero. */
  function IsoFormat(t: Timestamp): (r: string)
    requires ValidTimestamp(t)
    ensures |r| == (if t.micro == 0 then 19 else 26)
  {
    Padded(t.year, 4) + "-" + Padded(t.month, 2) + "-" + Padded(t.day, 2) + "T" +
    Padded(t.hour, 2) + ":" + Padded(t.minute, 2) + ":" + Padded(t.second, 2) +
    (if t.micro == 0 then "" else "." + Padded(t.micro, 6))
  }

  /** `strftime('%Y/%m/%d')`. */
  function DatePath(t: Timestamp): (r: string)
    requires ValidTimestamp(t)
    ensures |r| == 10
  {
    Padded(t.year, 4) + "/" + Padded(t.month, 2) + "/" + Padded(t.day, 2)
  }

  /** `strftime('%Y%m%d_%H%M%S')`. */
  function Stamp(t: Timestamp): (r: string)
    requires ValidTimestamp(t)
    ensures |r| == 15
  {
    DateDigits(t) + "_" + TimeDigits(t)
  }

  /** The object key of `store_to_s3`:
      `processed/YYYY/MM/DD/gdelt_YYYYMMDD_HHMMSS.json`. */
  function S3Key(t: Timestamp): (key: string)
    requires ValidTimestamp(t)
    ensures |key| == 47
  {
    "processed/" + DatePath(t) + "/gdelt_" + Stamp(t) + ".json"
  }

  const Bucket := "gdelt-processed-worldsense"

  /** Year, month and day read back from `YYYY/MM/DD`. */
  function ParseDatePath(p: string): Option<(nat, nat, nat)> {
    if |p| == 10 && p[4] == '/' && p[7] == '/' &&
       AllDigits(p[..4]) && AllDigits(p[5..7]) && AllDigits(p[8..])
    then Some((ParseDigits(p[..4]), ParseDigits(p[5..7]), ParseDigits(p[8..])))
    else None
  }

  /** The six fields read back from `YYYYMMDD_HHMMSS`. */
  function ParseStamp(s: string): Option<(nat, nat, nat, nat, nat, nat)> {
    if |s| == 15 && s[8] == '_' &&
       AllDigits(s[..4]) && AllDigits(s[4..6]) && AllDigits(s[6..8]) &&
       AllDigits(s[9..11]) && AllDigits(s[11..13]) && AllDigits(s[13..])
    then Some((ParseDigits(s[..4]), ParseDigits(s[4..6]), ParseDigits(s[6..8]),
               ParseDigits(s[9..11]), ParseDigits(s[11..13]), ParseDigits(s[13..])))
    else None
  }

  /** The fields a key names, read back from its two timestamps, which must
      agree on the date; `None` for a string that is not such a key. */
  function ParseKey(key: string): Option<(nat, nat, nat, nat, nat, nat)> {
    if |key| == 47 && key[..10] == "processed/" && key[20..27] == "/gdelt_" && key[42..] == ".json" then
      var date, stamp := ParseDatePath(key[10..20]), ParseStamp(key[27..42]);
      if date.Some? && stamp.Some? && date.value == (stamp.value.0, stamp.value.1, stamp.value.2)
      then stamp
      else None
    else None
  }

  lemma DatePathRoundTrip(t: Timestamp)
    requires ValidTimestamp(t)
    ensures ParseDatePath(DatePath(t)) == Some((t.year, t.month, t.day))
  {
    var p := DatePath(t);
    assert p[..4] == Padded(t.year, 4) && p[5..7] == Padded(t.month, 2) && p[8..] == Padded(t.day, 2);
    PaddedRoundTrip(t.year, 4);
    PaddedRoundTrip(t.month, 2);
    PaddedRoundTrip(t.day, 2);
  }

  lemma DatePathExact(p: string, t: Timestamp)
    requires ValidTimestamp(t) && ParseDatePath(p) == Some((t.year, t.month, t.day))
    ensures DatePath(t) == p
  {
    ParsePaddedRoundTrip(p[..4]);
    ParsePaddedRoundTrip(p[5..7]);
    ParsePaddedRoundTrip(p[8..]);
    assert p == p[..4] + [p[4]] + p[5..7] + [p[7]] + p[8..];
  }

  lemma StampRoundTrip(t: Timestamp)
    requires ValidTimestamp(t)
    ensures ParseStamp(Stamp(t)) == Some((t.year, t.month, t.day, t.hour, t.minute, t.second))
  {
    var s := Stamp(t);
    assert s[..4] == Padded(t.year, 4) && s[4..6] == Padded(t.month, 2) && s[6..8] == Padded(t.day, 2);
    assert s[9..11] == Padded(t.hour, 2) && s[11..13] == Padded(t.minute, 2) && s[13..] == Padded(t.second, 2);
    PaddedRoundTrip(t.year, 4);
    PaddedRoundTrip(t.month, 2);
    PaddedRoundTrip(t.day, 2);
    PaddedRoundTrip(t.hour, 2);
    PaddedRoundTrip(t.minute, 2);
    PaddedRoundTrip(t.second, 2);
  }

  lemma StampExact(s: string, t: Timestamp)
    requires ValidTimestamp(t) && ParseStamp(s) == Some((t.year, t.month, t.day, t.hour, t.minute, t.second))
    ensures Stamp(t) == s
  {
    assert DateDigits(t) == s[..8] by {
      ParsePaddedRoundTrip(s[..4]);
      ParsePaddedRoundTrip(s[4..6]);
      ParsePaddedRoundTrip(s[6..8]);
      assert s[..8] == s[..4] + s[4..6] + s[6..8];
    }
    assert TimeDigits(t) == s[9..] by {
      ParsePaddedRoundTrip(s[9..11]);
      ParsePaddedRoundTrip(s[11..13]);
      ParsePaddedRoundTrip(s[13..]);
      assert s[9..] == s[9..11] + s[11..13] + s[13..];
    }
    assert s == s[..8] + [s[8]] + s[9..];
  }

  /** Where the two timestamps sit in the key. */
  lemma S3KeyLayout(t: Timestamp)
    requires ValidTimestamp(t)
    ensures var key := S3Key(t);
      key[..10] == "processed/" && key[10..20] == DatePath(t) && key[20..27] == "/gdelt_" &&
      key[27..42] == Stamp(t) && key[42..] == ".json"
  {
  }

  /** The key names the timestamp it was built from, down to the second, and
      its directory and file name carry the same date. */
  lemma S3KeyRoundTrip(t: Timestamp)
    requires ValidTimestamp(t)
    ensures ParseKey(S3Key(t)) == Some((t.year, t.month, t.day, t.hour, t.minute, t.second))
  {
    S3KeyLayout(t);
    DatePathRoundTrip(t);
    StampRoundTrip(t);
  }

  /** The converse: a string the parser accepts, with fields in range, is
      the key of the timestamp it names. */
  lemma ParseKeyExact(key: string, t: Timestamp)
    requires ValidTimestamp(t)
    requires ParseKey(key) == Some((t.year, t.month, t.day, t.hour, t.minute, t.second))
    ensures S3Key(t) == key
  {
    DatePathExact(key[10..20], t);
    StampExact(key[27..42], t);
    KeyPieces(key);
  }

  lemma KeyPieces(key: string)
    requires |key| == 47
    ensures key == key[..10] + key[10..20] + key[20..27] + key[27..42] + key[42..]
  {
  }

  /** Timestamps in different seconds get different keys, so one run never
      overwrites the object of another run in another second. */
  lemma S3KeyInjective(t: Timestamp, u: Timestamp)
    requires ValidTimestamp(t) && ValidTimestamp(u)
    requires (t.year, t.month, t.day, t.hour, t.minute, t.second) != (u.year, u.month, u.day, u.hour, u.minute, u.second)
    ensures S3Key(t) != S3Key(u)
  {
    S3KeyRoundTrip(t);
    S3KeyRoundTrip(u);
  }

  /** The simulated `event_id`: `EVENT_YYYYMMDDHHMMSS_001`. */
  function EventId(t: Timestamp): (id: string)
    requires ValidTimestamp(t)
    ensures |id| == 24
  {
    "EVENT_" + DateDigits(t) + TimeDigits(t) + "_001"
  }

  /** `simulate_gdelt_fetch`: one fixed sample record stamped with `t`. */
  function SimulateFetch(t: Timestamp): (raws: seq<RawRecord>)
    requires ValidTimestamp(t)
    ensures |raws| == 1
  {
    [map[
      "event_id" := PStr(EventId(t)),
      "date" := PStr(DateDigits(t)),
      "time" := PStr(TimeDigits(t)),
      "actor1_name" := PStr("Sample Actor 1"),
      "actor2_name" := PStr("Sample Actor 2"),
      "event_code" := PStr("14"),
      "event_base_code" := PStr("14"),
      "event_root_code" := PStr("1"),
      "quad_class" := PStr("1"),
      "goldstein_scale" := PFloat(2.5),
      "num_mentions" := PInt(5),
      "num_sources" := PInt(3),
      "num_articles" := PInt(8),
      "avg_tone" := PFloat(-1.2),
      "actor1_geo_country_code" := PStr("US"),
      "actor2_geo_country_code" := PStr("CN"),
      "action_geo_country_code" := PStr("US"),
      "action_geo_lat" := PFloat(39.8283),
      "action_geo_long" := PFloat(-98.5795),
      "action_geo_full_name" := PStr("United States"),
      "date_added" := PStr(IsoFormat(t))
    ]]
  }

  /** The sample record holds numbers in all seven numeric fields. */
  lemma SimulatedFetchNumeric(t: Timestamp)
    requires ValidTimestamp(t)
    ensures var raw := SimulateFetch(t)[0];
      forall i :: 0 <= i < |Schema| && (Schema[i].1 == FloatField || Schema[i].1 == IntField) && Schema[i].0 in raw ==>
        Numeric(raw[Schema[i].0])
  {
  }

  // ---------------------------------------------------------------------
  // The handler.

  /** The `body` document of the response. */
  datatype Body =
    | Completed(message: string, timestamp: string, recordsProcessed: nat)
    | Failed(message: string, error: Failure)

  datatype Response = Response(statusCode: int, body: Body)

  /** The handler's work once the records are fetched: clean, store, answer.
      `store` says whether `put_object` raised, and with what. */
  function Process(parse: Parsers, now: Timestamp, raws: seq<RawRecord>, clock: nat -> string, store: Option<string>): (r: Response)
    requires ValidTimestamp(now)
  {
    match CleanAll(parse, raws, clock)
    case Err(e) => Response(500, Failed("GDELT data fetch and clean failed", e))
    case Ok(cleaned) =>
      match store
      case Some(reason) => Response(500, Failed("GDELT data fetch and clean failed", StorageFailure(reason)))
      case None => Response(200, Completed("GDELT data fetch and clean completed", IsoFormat(now), |cleaned|))
  }

  /** `lambda_handler` at time `now`. */
  function Handler(parse: Parsers, now: Timestamp, clock: nat -> string, store: Option<string>): Response
    requires ValidTimestamp(now)
  {
    Process(parse, now, SimulateFetch(now), clock, store)
  }

  /** Status 200 exactly when every record cleans and the upload succeeds, and
      then it reports how many records were processed; otherwise status 500
      with the exception. */
  lemma ProcessOutcome(parse: Parsers, now: Timestamp, raws: seq<RawRecord>, clock: nat -> string, store: Option<string>)
    requires ValidTimestamp(now)
    ensures var r := Process(parse, now, raws, clock, store);
      && (r.statusCode == 200 || r.statusCode == 500)
      && (r.statusCode == 200 <==>
           store.None? && forall i :: 0 <= i < |raws| ==> CleanRecord(parse, raws[i], clock(i)).Ok?)
      && (r.statusCode == 200 ==> r.body == Completed("GDELT data fetch and clean completed", IsoFormat(now), |raws|))
      && (r.statusCode == 500 ==> r.body.Failed?)
    ensures CleanAll(parse, raws, clock).Err? ==>
      Process(parse, now, raws, clock, store).body == Failed("GDELT data fetch and clean failed", CleanAll(parse, raws, clock).error)
    ensures CleanAll(parse, raws, clock).Ok? && store.Some? ==>
      Process(parse, now, raws, clock, store).body == Failed("GDELT data fetch and clean failed", StorageFailure(store.value))
  {
    CleanAllFails(parse, raws, clock);
    if CleanAll(parse, raws, clock).Ok? {
      CleanAllShape(parse, raws, clock);
    }
  }

  /** A failing record whose predecessors all clean makes the handler answer
      500 with that record's exception. */
  lemma ProcessFirstFailure(parse: Parsers, now: Timestamp, raws: seq<RawRecord>, clock: nat -> string, store: Option<string>, i: nat)
    requires ValidTimestamp(now)
    requires i < |raws|
    requires forall j :: 0 <= j < i ==> CleanRecord(parse, raws[j], clock(j)).Ok?
    requires CleanRecord(parse, raws[i], clock(i)).Err?
    ensures Process(parse, now, raws, clock, store) ==
      Response(500, Failed("GDELT data fetch and clean failed", CleanRecord(parse, raws[i], clock(i)).error))
  {
    CleanAllFails(parse, raws[..i], clock);
    assert forall j :: 0 <= j < i ==> raws[..i][j] == raws[j];
    CleanAllFirstFailure(parse, raws, clock, i + 1);
    assert raws[..i + 1 - 1] == raws[..i];
  }

  /** The simulated record always cleans, so the handler answers 200 with one
      record unless the upload fails. */
  lemma HandlerOutcome(parse: Parsers, now: Timestamp, clock: nat -> string, store: Option<string>)
    requires ValidTimestamp(now)
    ensures Handler(parse, now, clock, store).statusCode == 200 <==> store.None?
    ensures store.None? ==> Handler(parse, now, clock, store).body.recordsProcessed == 1
  {
    var raws := SimulateFetch(now);
    SimulatedFetchNumeric(now);
    NumbersNeverFail(parse, raws[0], clock(0));
    ProcessOutcome(parse, now, raws, clock, store);
  }
}
