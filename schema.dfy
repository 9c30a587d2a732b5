/** The TATP schema: cardinality constants, the four record types with their
    generating and key-only constructors, the schemas that fix field order
    and key layout, and the status checks that turn store replies into
    errors. Random draws are parameters; each carries the range its draw has. */
module TatpSchema {
  import opened Common
  import Decimal

  // Rows per subscriber and per special facility that the generator draws.
  const MAX_SF_ID_PER_SUBS: nat := 4
  const MIN_SF_ID_PER_SUBS: nat := 1
  const MAX_AINFO_PER_SUBS: nat := 4
  const MIN_AINFO_PER_SUBS: nat := 1
  const MIN_CF_PER_SF: nat := 0
  const MAX_CF_PER_SF: nat := 3

  /** Collection that holds the four tables. */
  const TATP_COLLECTION: string := "TATP"

  /** Call-forwarding start hours, indexed by a slot in 0..2. */
  const START_TIMES: seq<int> := [0, 8, 16]

  // ---------------------------------------------------------------- status checks

  datatype TatpError = ReadRowsFailed | WriteRowFailed | PartialUpdateRowFailed

  /** What the store returns for a write or a partial update. */
  datatype WriteResult = WriteResult(status: Status)

  /** `writeRow`: a non-2xx write becomes the "writeRow failed!" error; a 2xx
      result is passed through unchanged. */
  function WriteRow(result: WriteResult): (r: Result<WriteResult, TatpError>)
    ensures r.Ok? <==> result.status.Is2xxOK()
    ensures r.Ok? ==> r.value == result
    ensures r.Err? ==> r.error == WriteRowFailed
  {
    if result.status.Is2xxOK() then Ok(result) else Err(WriteRowFailed)
  }

  /** `partialUpdateRow`: likewise with "partialUpdateRow failed!". */
  function PartialUpdateRow(result: WriteResult): (r: Result<WriteResult, TatpError>)
    ensures r.Ok? <==> result.status.Is2xxOK()
    ensures r.Ok? ==> r.value == result
    ensures r.Err? ==> r.error == PartialUpdateRowFailed
  {
    if result.status.Is2xxOK() then Ok(result) else Err(PartialUpdateRowFailed)
  }

  /** `CHECK_READ_STATUS` and `CHECK_READ_STATUS_TYPE`: continue with the
      status on 2xx, otherwise leave the continuation with "TATP failed to
      read rows". */
  function CheckReadStatus(status: Status): (r: Result<Status, TatpError>)
    ensures r.Ok? <==> status.Is2xxOK()
    ensures r.Ok? ==> r.value == status
    ensures r.Err? ==> r.error == ReadRowsFailed
  {
    if status.Is2xxOK() then Ok(status) else Err(ReadRowsFailed)
  }

  // ---------------------------------------------------------------- schemas

  datatype FieldType = INT16T | INT32T | INT64T | STRING

  datatype SchemaField = SchemaField(fieldType: FieldType, name: string)

  datatype Schema = Schema(
    name: string,
    version: int,
    fields: seq<SchemaField>,
    partitionKeyFields: seq<nat>,
    rangeKeyFields: seq<nat>)

  /** A field value as the store holds it. */
  datatype Value = IntValue(i: int) | StrValue(s: string)

  function IntField(x: Option<int>): Option<Value> {
    match x
    case Some(v) => Some(IntValue(v))
    case None => None
  }

  function StrField(x: Option<string>): Option<Value> {
    match x
    case Some(v) => Some(StrValue(v))
    case None => None
  }

  /** Partition key fields followed by range key fields. */
  function KeyIndices(s: Schema): seq<nat> {
    s.partitionKeyFields + s.rangeKeyFields
  }

  predicate WellFormedSchema(s: Schema) {
    && (forall k | 0 <= k < |KeyIndices(s)| :: KeyIndices(s)[k] < |s.fields|)
    && Distinct(KeyIndices(s))
  }

  /** A record's values, one per schema field, fit the declared field types. */
  predicate Conforms(s: Schema, values: seq<Option<Value>>) {
    && |values| == |s.fields|
    && forall i | 0 <= i < |values| && values[i].Some? ::
         match s.fields[i].fieldType
         case INT16T => values[i].value.IntValue? && InInt16(values[i].value.i)
         case INT32T => values[i].value.IntValue? && InInt32(values[i].value.i)
         case INT64T => values[i].value.IntValue? && InInt64(values[i].value.i)
         case STRING => values[i].value.StrValue?
  }

  /** The key of a record: its values at the key fields, in key order. */
  function KeyOf(s: Schema, values: seq<Option<Value>>): (k: seq<Option<Value>>)
    requires WellFormedSchema(s) && |values| == |s.fields|
    ensures |k| == |KeyIndices(s)|
    ensures forall j | 0 <= j < |k| :: k[j] == values[KeyIndices(s)[j]]
  {
    seq(|KeyIndices(s)|, j requires 0 <= j < |KeyIndices(s)| => values[KeyIndices(s)[j]])
  }

  /** Exactly the key fields hold a value. */
  predicate OnlyKeyFieldsSet(s: Schema, values: seq<Option<Value>>) {
    forall i | 0 <= i < |values| :: values[i].Some? <==> i in KeyIndices(s)
  }

  predicate AllFieldsSet(values: seq<Option<Value>>) {
    forall i | 0 <= i < |values| :: values[i].Some?
  }

  const SUBSCRIBER_SCHEMA: Schema := Schema(
    "subscriber", 1,
    [ SchemaField(INT32T, "s_id"), SchemaField(STRING, "sub_nbr"), SchemaField(INT16T, "bits"),
      SchemaField(INT64T, "hexes"), SchemaField(INT32T, "msc_location"), SchemaField(INT32T, "vlr_location") ],
    [0], [])

  const ACCESS_INFO_SCHEMA: Schema := Schema(
    "Access_Info", 1,
    [ SchemaField(INT32T, "s_id"), SchemaField(INT16T, "ai_type"), SchemaField(INT16T, "data1"),
      SchemaField(INT16T, "data2"), SchemaField(STRING, "data3"), SchemaField(STRING, "data4") ],
    [0], [1])

  const SPECIAL_FACILITY_SCHEMA: Schema := Schema(
    "Special_Facility", 1,
    [ SchemaField(INT32T, "s_id"), SchemaField(INT16T, "sf_type"), SchemaField(INT16T, "is_active"),
      SchemaField(INT16T, "error_cntrl"), SchemaField(INT16T, "data_a"), SchemaField(STRING, "data_b") ],
    [0], [1])

  const CALL_FORWARDING_SCHEMA: Schema := Schema(
    "Call_Forwarding", 1,
    [ SchemaField(INT32T, "s_id"), SchemaField(INT16T, "sf_type"), SchemaField(INT16T, "start_time"),
      SchemaField(INT16T, "end_time"), SchemaField(STRING, "numberx") ],
    [0], [1, 2])

  function KeyNames(s: Schema): seq<string>
    requires WellFormedSchema(s)
  {
    seq(|KeyIndices(s)|, j requires 0 <= j < |KeyIndices(s)| => s.fields[KeyIndices(s)[j]].name)
  }

  /** Every key field index is a field of its schema, and none repeats. */
  lemma SchemasWellFormed()
    ensures WellFormedSchema(SUBSCRIBER_SCHEMA) && WellFormedSchema(ACCESS_INFO_SCHEMA)
    ensures WellFormedSchema(SPECIAL_FACILITY_SCHEMA) && WellFormedSchema(CALL_FORWARDING_SCHEMA)
  {
    assert KeyIndices(CALL_FORWARDING_SCHEMA) == [0, 1, 2];
  }

  /** Key layout: Subscriber by (s_id), AccessInfo by (s_id, ai_type),
      SpecialFacility by (s_id, sf_type), CallForwarding by
      (s_id, sf_type, start_time); s_id is the partition key of all four. */
  lemma KeyLayout()
    ensures WellFormedSchema(SUBSCRIBER_SCHEMA) && KeyNames(SUBSCRIBER_SCHEMA) == ["s_id"]
    ensures WellFormedSchema(ACCESS_INFO_SCHEMA) && KeyNames(ACCESS_INFO_SCHEMA) == ["s_id", "ai_type"]
    ensures WellFormedSchema(SPECIAL_FACILITY_SCHEMA) && KeyNames(SPECIAL_FACILITY_SCHEMA) == ["s_id", "sf_type"]
    ensures WellFormedSchema(CALL_FORWARDING_SCHEMA)
    ensures KeyNames(CALL_FORWARDING_SCHEMA) == ["s_id", "sf_type", "start_time"]
    ensures SUBSCRIBER_SCHEMA.partitionKeyFields == ACCESS_INFO_SCHEMA.partitionKeyFields
              == SPECIAL_FACILITY_SCHEMA.partitionKeyFields == CALL_FORWARDING_SCHEMA.partitionKeyFields == [0]
  {
    SchemasWellFormed();
    assert KeyNames(SUBSCRIBER_SCHEMA)[0] == "s_id";
    assert KeyNames(ACCESS_INFO_SCHEMA)[1] == "ai_type";
    assert KeyNames(SPECIAL_FACILITY_SCHEMA)[1] == "sf_type";
    assert KeyNames(CALL_FORWARDING_SCHEMA)[2] == "start_time";
  }

  // ---------------------------------------------------------------- records

  datatype Subscriber = Subscriber(
    sID: Option<int>, subNBR: Option<string>, bits: Option<int>,
    hexes: Option<int>, mscLocation: Option<int>, vlrLocation: Option<int>)

  datatype AccessInfo = AccessInfo(
    sID: Option<int>, aiType: Option<int>, data1: Option<int>,
    data2: Option<int>, data3: Option<string>, data4: Option<string>)

  datatype SpecialFacility = SpecialFacility(
    sID: Option<int>, sfType: Option<int>, isActive: Option<int>,
    errorCntrl: Option<int>, dataA: Option<int>, dataB: Option<string>)

  datatype CallForwarding = CallForwarding(
    sID: Option<int>, sfType: Option<int>, startTime: Option<int>,
    endTime: Option<int>, numberx: Option<string>)

  // Field lists in schema order (the order of SKV_RECORD_FIELDS).

  function SubscriberFields(r: Subscriber): (v: seq<Option<Value>>)
    ensures |v| == |SUBSCRIBER_SCHEMA.fields|
  {
    [IntField(r.sID), StrField(r.subNBR), IntField(r.bits), IntField(r.hexes),
     IntField(r.mscLocation), IntField(r.vlrLocation)]
  }

  function AccessInfoFields(r: AccessInfo): (v: seq<Option<Value>>)
    ensures |v| == |ACCESS_INFO_SCHEMA.fields|
  {
    [IntField(r.sID), IntField(r.aiType), IntField(r.data1), IntField(r.data2),
     StrField(r.data3), StrField(r.data4)]
  }

  function SpecialFacilityFields(r: SpecialFacility): (v: seq<Option<Value>>)
    ensures |v| == |SPECIAL_FACILITY_SCHEMA.fields|
  {
    [IntField(r.sID), IntField(r.sfType), IntField(r.isActive), IntField(r.errorCntrl),
     IntField(r.dataA), StrField(r.dataB)]
  }

  function CallForwardingFields(r: CallForwarding): (v: seq<Option<Value>>)
    ensures |v| == |CALL_FORWARDING_SCHEMA.fields|
  {
    [IntField(r.sID), IntField(r.sfType), IntField(r.startTime), IntField(r.endTime),
     StrField(r.numberx)]
  }

  /** A string of exactly n characters, each in [lo, hi] (`RandomString(n, n, lo, hi)`). */
  predicate CharsIn(s: string, n: nat, lo: char, hi: char) {
    |s| == n && forall i | 0 <= i < |s| :: lo <= s[i] <= hi
  }

  /** The 15-character phone number of subscriber `id`: the decimal form of
      `uint32_t(id)`, left-padded with '0'. */
  function SubscriberNumber(id: int): (nbr: string)
    ensures |nbr| == 15 && Decimal.AllDigits(nbr)
    ensures Decimal.ValueOf(nbr) == ToUint32(id)
  {
    var str := Decimal.ToDecimal(ToUint32(id));
    Decimal.ToDecimalLength(ToUint32(id), 10);
    Decimal.ValueOfToDecimal(ToUint32(id));
    Decimal.LeadingZeros(15 - |str|, str);
    if |str| < 15 then Decimal.Zeros(15 - |str|) + str else str
  }

  /** Generating constructor of a Subscriber. */
  function NewSubscriber(id: int, bits: int, hexes: int, mscLocation: int, vlrLocation: int): (r: Subscriber)
    requires InInt32(id) && InInt16(bits) && InInt64(hexes) && InInt32(mscLocation) && InInt32(vlrLocation)
    ensures r.subNBR.Some? && |r.subNBR.value| == 15 && Decimal.AllDigits(r.subNBR.value)
    ensures Decimal.ValueOf(r.subNBR.value) == ToUint32(id)
  {
    Subscriber(Some(id), Some(SubscriberNumber(id)), Some(bits), Some(hexes), Some(mscLocation), Some(vlrLocation))
  }

  /** A generated Subscriber is keyed by its id and sets every field, each within its declared type. */
  lemma NewSubscriberLayout(id: int, bits: int, hexes: int, mscLocation: int, vlrLocation: int)
    requires InInt32(id) && InInt16(bits) && InInt64(hexes) && InInt32(mscLocation) && InInt32(vlrLocation)
    ensures var v := SubscriberFields(NewSubscriber(id, bits, hexes, mscLocation, vlrLocation));
            KeyOf(SUBSCRIBER_SCHEMA, v) == [Some(IntValue(id))]
    ensures var v := SubscriberFields(NewSubscriber(id, bits, hexes, mscLocation, vlrLocation));
            Conforms(SUBSCRIBER_SCHEMA, v) && AllFieldsSet(v)
  {
  }

  /** Key-only constructor of a Subscriber; it takes an `int16_t`. */
  function SubscriberKey(id: int): (r: Subscriber)
    requires InInt16(id)
    ensures KeyOf(SUBSCRIBER_SCHEMA, SubscriberFields(r)) == [Some(IntValue(id))]
    ensures OnlyKeyFieldsSet(SUBSCRIBER_SCHEMA, SubscriberFields(r))
    ensures Conforms(SUBSCRIBER_SCHEMA, SubscriberFields(r))
  {
    Subscriber(Some(id), None, None, None, None, None)
  }

  /** Generating constructor of an AccessInfo. */
  function NewAccessInfo(sid: int, aiType: int, data1: int, data2: int, data3: string, data4: string): (r: AccessInfo)
    requires InInt32(sid) && InInt16(aiType)
    requires 0 <= data1 <= 256 && 0 <= data2 <= 256
    requires CharsIn(data3, 3, 'A', 'Z') && CharsIn(data4, 4, 'A', 'Z')
    ensures r.data1.Some? && 0 <= r.data1.value <= 256 && r.data2.Some? && 0 <= r.data2.value <= 256
    ensures r.data3.Some? && CharsIn(r.data3.value, 3, 'A', 'Z')
    ensures r.data4.Some? && CharsIn(r.data4.value, 4, 'A', 'Z')
  {
    AccessInfo(Some(sid), Some(aiType), Some(data1), Some(data2), Some(data3), Some(data4))
  }

  /** A generated AccessInfo is keyed by (s_id, ai_type) and sets every field, each within its declared type. */
  lemma NewAccessInfoLayout(sid: int, aiType: int, data1: int, data2: int, data3: string, data4: string)
    requires InInt32(sid) && InInt16(aiType)
    requires 0 <= data1 <= 256 && 0 <= data2 <= 256
    requires CharsIn(data3, 3, 'A', 'Z') && CharsIn(data4, 4, 'A', 'Z')
    ensures var v := AccessInfoFields(NewAccessInfo(sid, aiType, data1, data2, data3, data4));
            KeyOf(ACCESS_INFO_SCHEMA, v) == [Some(IntValue(sid)), Some(IntValue(aiType))]
    ensures var v := AccessInfoFields(NewAccessInfo(sid, aiType, data1, data2, data3, data4));
            Conforms(ACCESS_INFO_SCHEMA, v) && AllFieldsSet(v)
  {
  }

  /** Key-only constructor of an AccessInfo. */
  function AccessInfoKey(sid: int, aiType: int): (r: AccessInfo)
    requires InInt32(sid) && InInt16(aiType)
    ensures KeyOf(ACCESS_INFO_SCHEMA, AccessInfoFields(r)) == [Some(IntValue(sid)), Some(IntValue(aiType))]
    ensures OnlyKeyFieldsSet(ACCESS_INFO_SCHEMA, AccessInfoFields(r))
    ensures Conforms(ACCESS_INFO_SCHEMA, AccessInfoFields(r))
  {
    AccessInfo(Some(sid), Some(aiType), None, None, None, None)
  }

  /** `is_active` from the percentage draw: inactive for 1..15, active otherwise. */
  function IsActiveFlag(pct: int): (flag: int)
    ensures flag == 0 || flag == 1
    ensures flag == 0 <==> pct <= 15
  {
    if pct <= 15 then 0 else 1
  }

  /** Generating constructor of a SpecialFacility. */
  function NewSpecialFacility(sid: int, sfType: int, pct: int, errorCntrl: int, dataA: int, dataB: string)
    : (r: SpecialFacility)
    requires InInt32(sid) && InInt16(sfType)
    requires 1 <= pct <= 100 && 0 <= errorCntrl <= 255 && 0 <= dataA <= 255
    requires CharsIn(dataB, 5, 'A', 'Z')
    ensures r.isActive.Some? && (r.isActive.value == 0 <==> pct <= 15) && (r.isActive.value == 1 <==> pct > 15)
    ensures r.errorCntrl.Some? && 0 <= r.errorCntrl.value <= 255
    ensures r.dataA.Some? && 0 <= r.dataA.value <= 255
    ensures r.dataB.Some? && CharsIn(r.dataB.value, 5, 'A', 'Z')
  {
    SpecialFacility(Some(sid), Some(sfType), Some(IsActiveFlag(pct)), Some(errorCntrl), Some(dataA), Some(dataB))
  }

  /** A generated SpecialFacility is keyed by (s_id, sf_type) and sets every field, each within its declared type. */
  lemma NewSpecialFacilityLayout(sid: int, sfType: int, pct: int, errorCntrl: int, dataA: int, dataB: string)
    requires InInt32(sid) && InInt16(sfType)
    requires 1 <= pct <= 100 && 0 <= errorCntrl <= 255 && 0 <= dataA <= 255
    requires CharsIn(dataB, 5, 'A', 'Z')
    ensures var v := SpecialFacilityFields(NewSpecialFacility(sid, sfType, pct, errorCntrl, dataA, dataB));
            KeyOf(SPECIAL_FACILITY_SCHEMA, v) == [Some(IntValue(sid)), Some(IntValue(sfType))]
    ensures var v := SpecialFacilityFields(NewSpecialFacility(sid, sfType, pct, errorCntrl, dataA, dataB));
            Conforms(SPECIAL_FACILITY_SCHEMA, v) && AllFieldsSet(v)
  {
  }

  /** Key-only constructor of a SpecialFacility. */
  function SpecialFacilityKey(sid: int, sfType: int): (r: SpecialFacility)
    requires InInt32(sid) && InInt16(sfType)
    ensures KeyOf(SPECIAL_FACILITY_SCHEMA, SpecialFacilityFields(r)) == [Some(IntValue(sid)), Some(IntValue(sfType))]
    ensures OnlyKeyFieldsSet(SPECIAL_FACILITY_SCHEMA, SpecialFacilityFields(r))
    ensures Conforms(SPECIAL_FACILITY_SCHEMA, SpecialFacilityFields(r))
  {
    SpecialFacility(Some(sid), Some(sfType), None, None, None, None)
  }

  /** Generating constructor of a CallForwarding: `end_time` is its own draw
      in [1, 8] and does not depend on `start_time`. */
  function NewCallForwarding(sid: int, sfType: int, startTime: int, endTime: int, numberx: string)
    : (r: CallForwarding)
    requires InInt32(sid) && InInt16(sfType) && InInt16(startTime)
    requires 1 <= endTime <= 8 && CharsIn(numberx, 15, '0', '9')
    ensures r.endTime == Some(endTime) && 1 <= r.endTime.value <= 8
    ensures r.numberx.Some? && CharsIn(r.numberx.value, 15, '0', '9')
  {
    CallForwarding(Some(sid), Some(sfType), Some(startTime), Some(endTime), Some(numberx))
  }

  /** A generated CallForwarding is keyed by (s_id, sf_type, start_time) and sets every field, each within its declared type. */
  lemma NewCallForwardingLayout(sid: int, sfType: int, startTime: int, endTime: int, numberx: string)
    requires InInt32(sid) && InInt16(sfType) && InInt16(startTime)
    requires 1 <= endTime <= 8 && CharsIn(numberx, 15, '0', '9')
    ensures var v := CallForwardingFields(NewCallForwarding(sid, sfType, startTime, endTime, numberx));
            KeyOf(CALL_FORWARDING_SCHEMA, v) == [Some(IntValue(sid)), Some(IntValue(sfType)), Some(IntValue(startTime))]
    ensures var v := CallForwardingFields(NewCallForwarding(sid, sfType, startTime, endTime, numberx));
            Conforms(CALL_FORWARDING_SCHEMA, v) && AllFieldsSet(v)
  {
  }

  /** Key-only constructor of a CallForwarding. */
  function CallForwardingKey(sid: int, sfType: int, startTime: int): (r: CallForwarding)
    requires InInt32(sid) && InInt16(sfType) && InInt16(startTime)
    ensures KeyOf(CALL_FORWARDING_SCHEMA, CallForwardingFields(r))
              == [Some(IntValue(sid)), Some(IntValue(sfType)), Some(IntValue(startTime))]
    ensures OnlyKeyFieldsSet(CALL_FORWARDING_SCHEMA, CallForwardingFields(r))
    ensures Conforms(CALL_FORWARDING_SCHEMA, CallForwardingFields(r))
  {
    CallForwarding(Some(sid), Some(sfType), Some(startTime), None, None)
  }

  // ---------------------------------------------------------------- facts

  /** The set of integers in [lo, hi), with its size. */
  function Range(lo: int, hi: int): (r: set<int>)
    requires lo <= hi
    ensures forall x :: x in r <==> lo <= x < hi
    ensures |r| == hi - lo
    decreases hi - lo
  {
    if lo == hi then {} else Range(lo, hi - 1) + {hi - 1}
  }

  /** Exactly 15 of the 100 percentage draws make a facility inactive. */
  lemma InactiveShare()
    ensures |set pct | 1 <= pct <= 100 && IsActiveFlag(pct) == 0| == 15
  {
    var inactive := set pct | 1 <= pct <= 100 && IsActiveFlag(pct) == 0;
    assert inactive == Range(1, 16);
  }

  /** The other 85 make it active. */
  lemma ActiveShare()
    ensures |set pct | 1 <= pct <= 100 && IsActiveFlag(pct) == 1| == 85
  {
    var active := set pct | 1 <= pct <= 100 && IsActiveFlag(pct) == 1;
    assert active == Range(16, 101);
  }

  /** The padded phone number determines the subscriber id it was built from
      (for every id the generator produces, which are uint32 values). */
  lemma SubscriberNumberInjective(u: int, v: int)
    requires InUint32(u) && InUint32(v)
    ensures SubscriberNumber(ToInt32(u)) == SubscriberNumber(ToInt32(v)) <==> u == v
  {
    Int32RoundTrip(u);
    Int32RoundTrip(v);
  }

  /** The Subscriber key-only constructor narrows its argument to int16: the
      key's s_id is the id itself exactly when the id is below 32768, and it
      is the loaded row's s_id, `int32_t(id)`, exactly when the id is below
      32768 or within 32768 of 2^32 (where both narrowings give the same
      negative value). */
  lemma SubscriberKeyNarrowing(id: int)
    requires InUint32(id)
    ensures SubscriberKey(ToInt16(id)).sID == Some(id) <==> id < 0x8000
    ensures SubscriberKey(ToInt16(id)).sID == Some(ToInt32(id)) <==> id < 0x8000 || id >= TWO_TO_32 - 0x8000
  {
  }

  // ---------------------------------------------------------------- partial update

  /** A partial update as the store applies it: the listed fields take the
      request's values, every other field keeps the stored value. */
  function ApplyPartialUpdate(stored: seq<Option<Value>>, request: seq<Option<Value>>, fieldsToUpdate: seq<nat>)
    : (r: seq<Option<Value>>)
    requires |stored| == |request|
    ensures |r| == |stored|
    ensures forall i | 0 <= i < |r| :: r[i] == if i in fieldsToUpdate then request[i] else stored[i]
  {
    seq(|stored|, i requires 0 <= i < |stored| => if i in fieldsToUpdate then request[i] else stored[i])
  }
}
