/** The four TATP transactions. The store is replaced by its replies: whether
    the transaction began, the status of each operation, the row a read
    returns and, for the call-forwarding query, an in-memory table the query
    runs over. An attempt yields its boolean outcome and the calls it issued,
    in order; the two branches of a `when_all_succeed` are evaluated one
    after the other. */
module TatpTxns {
  import opened Common
  import opened TatpSchema
  import Bits
  import Retry

  // ---------------------------------------------------------------- TATPTxn

  /** How the future returned by `attempt()` resolves. */
  datatype AttemptResult = AttemptRaised | AttemptValue(value: bool)

  /** `TATPTxn::run`: an exception from `attempt()` becomes false, any value
      is passed on unchanged. */
  function TxnRun(a: AttemptResult): (ok: bool)
    ensures a.AttemptRaised? ==> !ok
    ensures a.AttemptValue? ==> ok == a.value
  {
    match a
    case AttemptRaised => false
    case AttemptValue(b) => b
  }

  /** The base `attempt()`: a transaction that does nothing and succeeds. */
  function BaseAttempt(): (a: AttemptResult)
    ensures a.AttemptValue? && TxnRun(a)
  {
    AttemptValue(true)
  }

  /** `run()` never fails, so when a `FixedRetryStrategy` retries it every
      call is a `Returned` outcome. */
  function RetryOutcomes(attempts: seq<AttemptResult>): (outcomes: seq<Retry.Outcome>)
    ensures |outcomes| == |attempts|
    ensures forall k | 0 <= k < |attempts| :: outcomes[k] == Retry.Returned(TxnRun(attempts[k]))
  {
    seq(|attempts|, k requires 0 <= k < |attempts| => Retry.Returned(TxnRun(attempts[k])))
  }

  /** Retrying a transaction's `run()` on a fresh strategy: the retry loop
      itself never fails, and the strategy reports "Attempt failed" exactly
      when none of the attempts it made yielded true. */
  lemma {:induction false} RetriedTxn(retries: int, attempts: seq<AttemptResult>)
    requires |attempts| >= Retry.Budget(0, false, retries)
    ensures var e := Retry.Loop(0, false, retries, RetryOutcomes(attempts));
            && !e.loopFailed
            && (Retry.Resolution(e) == Retry.AttemptFailed <==>
                  forall k | 0 <= k < e.calls :: attempts[k] != AttemptValue(true))
  {
    var outcomes := RetryOutcomes(attempts);
    var e := Retry.Loop(0, false, retries, outcomes);
    Retry.StopsAtFirstSuccess(0, retries, outcomes);
    Retry.ErrorIffNoSuccess(0, retries, outcomes);
    forall k | 0 <= k < e.calls
      ensures Retry.Succeeded(outcomes[k]) <==> attempts[k] == AttemptValue(true)
    {
      assert outcomes[k] == Retry.Returned(TxnRun(attempts[k]));
    }
  }

  // ---------------------------------------------------------------- calls and traces

  /** A filter expression over the fields of a row. */
  datatype Expr =
    | Lte(field: string, literal: int)
    | Gt(field: string, literal: int)
    | And(left: Expr, right: Expr)

  /** A range query: scan bounds (key prefixes), result limit (-1 is
      unlimited), direction and filter. */
  datatype CallForwardingQuery = CallForwardingQuery(
    startScan: seq<int>, endScan: seq<int>, limit: int, reverse: bool, filter: Expr)

  /** What a transaction asks of the store, in the order it asks. */
  datatype Call =
    | BeginTxn
    | ReadSubscriber(subscriberKey: Subscriber)
    | ReadSpecialFacility(facilityKey: SpecialFacility)
    | ReadAccessInfo(accessKey: AccessInfo)
    | CreateQuery(collection: string, schemaName: string)
    | RunQuery(query: CallForwardingQuery)
    | PartialUpdateSubscriber(subscriberRow: Subscriber, subscriberFields: seq<nat>)
    | PartialUpdateSpecialFacility(facilityRow: SpecialFacility, facilityFields: seq<nat>)
    | EndTxn(commit: bool)

  /** The outcome of one attempt and the calls it issued. */
  datatype Trace = Trace(ok: bool, calls: seq<Call>)

  /** The transaction was ended. */
  predicate Ended(calls: seq<Call>) {
    exists i | 0 <= i < |calls| :: calls[i].EndTxn?
  }

  /** Every `end` issued carries the given commit flag. */
  predicate EndsWith(calls: seq<Call>, commit: bool) {
    forall i | 0 <= i < |calls| && calls[i].EndTxn? :: calls[i].commit == commit
  }

  /** Replies to a transaction made of one read. */
  datatype ReadReplies = ReadReplies(beginOk: bool, read: Status)

  // ---------------------------------------------------------------- GetSubscriberData

  /** One attempt of GetSubscriberData: read the subscriber under the key
      `Subscriber(int16_t)` and end the transaction whatever the read gave. */
  function SubscriberDataTrace(subId: int, abort: bool, r: ReadReplies): (t: Trace)
    ensures t.ok <==> r.beginOk && r.read.Is2xxOK()
    ensures Ended(t.calls) <==> r.beginOk
    ensures EndsWith(t.calls, !abort)
    ensures |t.calls| >= 1 && t.calls[0] == BeginTxn
    ensures r.beginOk ==> |t.calls| == 3 && t.calls[1] == ReadSubscriber(SubscriberKey(ToInt16(subId)))
  {
    if !r.beginOk then Trace(false, [BeginTxn])
    else
      var calls := [BeginTxn, ReadSubscriber(SubscriberKey(ToInt16(subId))), EndTxn(!abort)];
      assert calls[2].EndTxn?;
      Trace(r.read.Is2xxOK(), calls)
  }

  class GetSubscriberDataT {
    const subId: int
    const abort: bool

    /** The subscriber id is a uniform draw in [1, max_s_id]. */
    constructor (maxSubId: int, subIdDraw: int)
      requires InUint32(maxSubId) && 1 <= subIdDraw <= maxSubId
      ensures subId == subIdDraw && 1 <= subId <= maxSubId && !abort
    {
      subId := subIdDraw;
      abort := false;
    }

    method Attempt(r: ReadReplies) returns (ok: bool, calls: seq<Call>)
      ensures Trace(ok, calls) == SubscriberDataTrace(subId, abort, r)
    {
      calls := [BeginTxn];
      if !r.beginOk {
        return false, calls;
      }
      calls := calls + [ReadSubscriber(SubscriberKey(ToInt16(subId)))];
      ok := r.read.Is2xxOK();
      calls := calls + [EndTxn(!abort)];
    }
  }

  // ---------------------------------------------------------------- the call-forwarding query

  /** Key of a CallForwarding row in the in-memory table. */
  datatype ForwardingKey = ForwardingKey(sID: int, sfType: int, startTime: int)

  /** The value of a named integer field of a CallForwarding row. */
  function FieldByName(row: CallForwarding, name: string): Option<int> {
    if name == "s_id" then row.sID
    else if name == "sf_type" then row.sfType
    else if name == "start_time" then row.startTime
    else if name == "end_time" then row.endTime
    else None
  }

  /** The filter as the store evaluates it; a comparison with an absent field
      does not hold. */
  function Eval(e: Expr, row: CallForwarding): bool {
    match e
    case Lte(f, c) => FieldByName(row, f).Some? && FieldByName(row, f).value <= c
    case Gt(f, c) => FieldByName(row, f).Some? && FieldByName(row, f).value > c
    case And(a, b) => Eval(a, row) && Eval(b, row)
  }

  /** The keys a single-prefix scan returns: rows under the (s_id, sf_type)
      prefix that pass the filter. */
  function ExecuteQuery(table: map<ForwardingKey, CallForwarding>, q: CallForwardingQuery): set<ForwardingKey>
    requires |q.startScan| == 2 && q.endScan == q.startScan
  {
    set k | k in table && k.sID == q.startScan[0] && k.sfType == q.startScan[1] && Eval(q.filter, table[k])
  }

  /** The query GetNewDestination builds: scan the prefix (int32 s_id,
      int16 sf_type) without limit, forwards, keeping rows with
      start_time <= the start parameter and end_time > the end parameter. */
  function NewDestinationQuery(subId: int, sfType: int, startTime: int, endTime: int): (q: CallForwardingQuery)
    ensures |q.startScan| == 2 && q.endScan == q.startScan
    ensures q.limit == -1 && !q.reverse
  {
    CallForwardingQuery(
      [ToInt32(subId), ToInt16(sfType)], [ToInt32(subId), ToInt16(sfType)], -1, false,
      And(Lte("start_time", ToInt32(startTime)), Gt("end_time", ToInt32(endTime))))
  }

  /** A reference statement of what GetNewDestination looks for: a forwarding
      row of this subscriber and facility type that has started by the start
      parameter and ends after the end parameter. */
  predicate HasForwarding(table: map<ForwardingKey, CallForwarding>, subId: int, sfType: int, startTime: int, endTime: int) {
    exists k | k in table ::
      && k.sID == ToInt32(subId) && k.sfType == ToInt16(sfType)
      && table[k].startTime.Some? && table[k].startTime.value <= ToInt32(startTime)
      && table[k].endTime.Some? && table[k].endTime.value > ToInt32(endTime)
  }

  /** The query returns exactly the rows `HasForwarding` speaks of. */
  lemma NewDestinationMatches(table: map<ForwardingKey, CallForwarding>, subId: int, sfType: int, startTime: int, endTime: int, k: ForwardingKey)
    ensures k in ExecuteQuery(table, NewDestinationQuery(subId, sfType, startTime, endTime)) <==>
      && k in table && k.sID == ToInt32(subId) && k.sfType == ToInt16(sfType)
      && table[k].startTime.Some? && table[k].startTime.value <= ToInt32(startTime)
      && table[k].endTime.Some? && table[k].endTime.value > ToInt32(endTime)
  {
    var q := NewDestinationQuery(subId, sfType, startTime, endTime);
    if k in table {
      var row := table[k];
      assert FieldByName(row, "start_time") == row.startTime;
      assert FieldByName(row, "end_time") == row.endTime;
      assert Eval(q.filter, row) <==>
        && row.startTime.Some? && row.startTime.value <= ToInt32(startTime)
        && row.endTime.Some? && row.endTime.value > ToInt32(endTime);
    }
  }

  /** Some record comes back exactly when `HasForwarding` holds. */
  lemma NewDestinationFinds(table: map<ForwardingKey, CallForwarding>, subId: int, sfType: int, startTime: int, endTime: int)
    ensures |ExecuteQuery(table, NewDestinationQuery(subId, sfType, startTime, endTime))| > 0 <==>
              HasForwarding(table, subId, sfType, startTime, endTime)
  {
    var found := ExecuteQuery(table, NewDestinationQuery(subId, sfType, startTime, endTime));
    if |found| > 0 {
      var k :| k in found;
      NewDestinationMatches(table, subId, sfType, startTime, endTime, k);
    }
    if HasForwarding(table, subId, sfType, startTime, endTime) {
      var k :| k in table
        && k.sID == ToInt32(subId) && k.sfType == ToInt16(sfType)
        && table[k].startTime.Some? && table[k].startTime.value <= ToInt32(startTime)
        && table[k].endTime.Some? && table[k].endTime.value > ToInt32(endTime);
      NewDestinationMatches(table, subId, sfType, startTime, endTime, k);
      assert k in found;
    }
  }

  // ---------------------------------------------------------------- GetNewDestination

  datatype DestinationReplies = DestinationReplies(
    beginOk: bool,
    facilityRead: Status,
    createQuery: Status,
    queryStatus: Status,
    table: map<ForwardingKey, CallForwarding>)

  /** The special-facility branch: a 404 and any other non-2xx read both give false. */
  function FacilityFound(read: Status): (found: bool)
    ensures found <==> read.Is2xxOK()
  {
    if read == Status404 then false else read.Is2xxOK()
  }

  /** One attempt of GetNewDestination. A failed `createQuery` raises inside
      `when_all_succeed`, so the attempt gives false without ending the
      transaction. */
  function NewDestinationTrace(subId: int, sfType: int, startTime: int, endTime: int, abort: bool, r: DestinationReplies)
    : (t: Trace)
    ensures t.ok <==>
      && r.beginOk && r.facilityRead.Is2xxOK() && r.createQuery.Is2xxOK() && r.queryStatus.Is2xxOK()
      && |ExecuteQuery(r.table, NewDestinationQuery(subId, sfType, startTime, endTime))| > 0
    ensures Ended(t.calls) <==> r.beginOk && r.createQuery.Is2xxOK()
    ensures EndsWith(t.calls, !abort)
    ensures |t.calls| >= 1 && t.calls[0] == BeginTxn
    ensures r.beginOk ==>
              && |t.calls| >= 3
              && t.calls[1] == ReadSpecialFacility(SpecialFacilityKey(ToInt32(subId), ToInt16(sfType)))
              && t.calls[2] == CreateQuery(TATP_COLLECTION, CALL_FORWARDING_SCHEMA.name)
  {
    if !r.beginOk then Trace(false, [BeginTxn])
    else
      var issued := [BeginTxn, ReadSpecialFacility(SpecialFacilityKey(ToInt32(subId), ToInt16(sfType))),
                     CreateQuery(TATP_COLLECTION, CALL_FORWARDING_SCHEMA.name)];
      if !CheckReadStatus(r.createQuery).Ok? then Trace(false, issued)
      else
        var q := NewDestinationQuery(subId, sfType, startTime, endTime);
        var found := r.queryStatus.Is2xxOK() && |ExecuteQuery(r.table, q)| > 0;
        var calls := issued + [RunQuery(q), EndTxn(!abort)];
        assert calls[4].EndTxn?;
        Trace(FacilityFound(r.facilityRead) && found, calls)
  }

  class GetNewDestinationT {
    const subId: int
    const sfType: int
    const startTime: int
    const endTime: int
    const abort: bool
    var hasTxn: bool
    var query: Option<CallForwardingQuery>
    var failed: bool

    /** Draws: subscriber in [1, max_s_id], facility type in [1, 4], a start
        slot in [0, 2] selecting the start hour, and an end hour in [1, 24]. */
    constructor (maxSubId: int, subIdDraw: int, sfTypeDraw: int, startSlot: int, endTimeDraw: int)
      requires InUint32(maxSubId) && 1 <= subIdDraw <= maxSubId
      requires 1 <= sfTypeDraw <= 4 && 0 <= startSlot <= 2 && 1 <= endTimeDraw <= 24
      ensures subId == subIdDraw && sfType == sfTypeDraw && endTime == endTimeDraw
      ensures startTime == START_TIMES[startSlot] && startTime in {0, 8, 16}
      ensures !abort && !hasTxn && query == None && !failed
    {
      subId := subIdDraw;
      sfType := sfTypeDraw;
      startTime := START_TIMES[startSlot];
      endTime := endTimeDraw;
      abort := false;
      hasTxn := false;
      query := None;
      failed := false;
    }

    method Attempt(r: DestinationReplies) returns (ok: bool, calls: seq<Call>)
      modifies this
      ensures Trace(ok, calls) == NewDestinationTrace(subId, sfType, startTime, endTime, abort, r)
      ensures hasTxn == (old(hasTxn) || r.beginOk)
      ensures query == if r.beginOk && r.createQuery.Is2xxOK()
                       then Some(NewDestinationQuery(subId, sfType, startTime, endTime)) else old(query)
      ensures failed == if r.beginOk && r.createQuery.Is2xxOK() then !ok else old(failed)
    {
      calls := [BeginTxn];
      if !r.beginOk {
        return false, calls;
      }
      hasTxn := true;
      // first branch: the special facility
      calls := calls + [ReadSpecialFacility(SpecialFacilityKey(ToInt32(subId), ToInt16(sfType)))];
      var result1 := FacilityFound(r.facilityRead);
      // second branch: the call-forwarding query
      calls := calls + [CreateQuery(TATP_COLLECTION, CALL_FORWARDING_SCHEMA.name)];
      if !CheckReadStatus(r.createQuery).Ok? {
        return false, calls;
      }
      var q := NewDestinationQuery(subId, sfType, startTime, endTime);
      query := Some(q);
      calls := calls + [RunQuery(q)];
      var result2 := false;
      if r.queryStatus.Is2xxOK() {
        var pending := ExecuteQuery(r.table, q);
        var count := 0;
        while pending != {}
          invariant count + |pending| == |ExecuteQuery(r.table, q)|
          decreases |pending|
        {
          var k :| k in pending;
          pending := pending - {k};
          count := count + 1;
        }
        result2 := count > 0;
      }
      failed := !result1 || !result2;
      calls := calls + [EndTxn(!abort)];
      ok := !failed;
    }
  }

  /** GetNewDestination succeeds exactly when the store answers every
      operation with 2xx and some forwarding row of the subscriber's facility
      has started by the start hour and ends after the end hour. */
  lemma NewDestinationOutcome(subId: int, sfType: int, startTime: int, endTime: int, abort: bool, r: DestinationReplies)
    ensures NewDestinationTrace(subId, sfType, startTime, endTime, abort, r).ok <==>
      && r.beginOk && r.facilityRead.Is2xxOK() && r.createQuery.Is2xxOK() && r.queryStatus.Is2xxOK()
      && HasForwarding(r.table, subId, sfType, startTime, endTime)
  {
    NewDestinationFinds(r.table, subId, sfType, startTime, endTime);
  }

  /** Generated forwarding rows end by hour 8, so an end parameter of 8 or
      more finds none of them and the transaction gives false. */
  lemma NoDestinationAfterEight(subId: int, sfType: int, startTime: int, endTime: int, abort: bool, r: DestinationReplies)
    requires 8 <= endTime <= 24
    requires forall k | k in r.table :: r.table[k].endTime.Some? ==> r.table[k].endTime.value <= 8
    ensures !NewDestinationTrace(subId, sfType, startTime, endTime, abort, r).ok
  {
    NewDestinationOutcome(subId, sfType, startTime, endTime, abort, r);
  }

  /** A row of subscriber 5, facility type 1, from hour 0 to hour 5 is found
      by start hour 0 and end hour 3, and not by end hour 5. */
  lemma NewDestinationExample()
    ensures var row := CallForwarding(Some(5), Some(1), Some(0), Some(5), Some("123456789012345"));
            var r := DestinationReplies(true, Status2xx, Status2xx, Status2xx, map[ForwardingKey(5, 1, 0) := row]);
            && NewDestinationTrace(5, 1, 0, 3, false, r).ok
            && !NewDestinationTrace(5, 1, 0, 5, false, r).ok
  {
    var row := CallForwarding(Some(5), Some(1), Some(0), Some(5), Some("123456789012345"));
    var r := DestinationReplies(true, Status2xx, Status2xx, Status2xx, map[ForwardingKey(5, 1, 0) := row]);
    NewDestinationOutcome(5, 1, 0, 3, false, r);
    NewDestinationOutcome(5, 1, 0, 5, false, r);
    assert ForwardingKey(5, 1, 0) in r.table;
  }

  // ---------------------------------------------------------------- GetAccessData

  /** One attempt of GetAccessData: any non-2xx read, a 404 included, fails. */
  function AccessDataTrace(subId: int, accType: int, abort: bool, r: ReadReplies): (t: Trace)
    ensures t.ok <==> r.beginOk && r.read.Is2xxOK()
    ensures r.read == Status404 ==> !t.ok
    ensures Ended(t.calls) <==> r.beginOk
    ensures EndsWith(t.calls, !abort)
    ensures |t.calls| >= 1 && t.calls[0] == BeginTxn
    ensures r.beginOk ==> |t.calls| == 3 && t.calls[1] == ReadAccessInfo(AccessInfoKey(ToInt32(subId), ToInt16(accType)))
  {
    if !r.beginOk then Trace(false, [BeginTxn])
    else
      var calls := [BeginTxn, ReadAccessInfo(AccessInfoKey(ToInt32(subId), ToInt16(accType))), EndTxn(!abort)];
      assert calls[2].EndTxn?;
      Trace(r.read.Is2xxOK(), calls)
  }

  class GetAccessDataT {
    const subId: int
    const accType: int
    const abort: bool
    var hasTxn: bool
    var failed: bool

    /** Draws: subscriber in [1, max_s_id], access type in [1, 4]. */
    constructor (maxSubId: int, subIdDraw: int, accTypeDraw: int)
      requires InUint32(maxSubId) && 1 <= subIdDraw <= maxSubId && 1 <= accTypeDraw <= 4
      ensures subId == subIdDraw && accType == accTypeDraw
      ensures !abort && !hasTxn && !failed
    {
      subId := subIdDraw;
      accType := accTypeDraw;
      abort := false;
      hasTxn := false;
      failed := false;
    }

    method Attempt(r: ReadReplies) returns (ok: bool, calls: seq<Call>)
      modifies this
      ensures Trace(ok, calls) == AccessDataTrace(subId, accType, abort, r)
      ensures hasTxn == (old(hasTxn) || r.beginOk)
      ensures failed == if r.beginOk then !ok else old(failed)
    {
      calls := [BeginTxn];
      if !r.beginOk {
        return false, calls;
      }
      hasTxn := true;
      calls := calls + [ReadAccessInfo(AccessInfoKey(ToInt32(subId), ToInt16(accType)))];
      failed := !r.read.Is2xxOK();
      calls := calls + [EndTxn(!abort)];
      ok := !failed;
    }
  }

  // ---------------------------------------------------------------- UpdateSubscriberData

  /** The new `bits` of a subscriber: the stored value (0 when absent) is
      converted to `unsigned long long`, cut to a `bitset<10>`, bit 0 is set
      to `bit1`, and the result is converted back to `int16_t`. */
  function NewBits(stored: Option<int>, bit1: int): (r: int)
    requires bit1 == 0 || bit1 == 1
    ensures 0 <= r < 1024
    ensures Bits.Bit(r, 0) == bit1
    ensures forall i: nat | 1 <= i < 10 :: Bits.Bit(r, i) == Bits.Bit(stored.GetOr(0), i)
    ensures forall i: nat | 10 <= i :: Bits.Bit(r, i) == 0
  {
    var v := stored.GetOr(0);
    var low := ToUint64(v) % 1024;
    Bits.Low10AfterUint64(v);
    assert Bits.Pow2(10) == 1024;
    assert forall i: nat | i < 10 :: Bits.Bit(low, i) == Bits.Bit(v, i) by {
      forall i: nat | i < 10 ensures Bits.Bit(low, i) == Bits.Bit(v, i) {
        Bits.BitOfMod(v, 10, i);
      }
    }
    var b := Bits.WithBit0(low, bit1);
    assert forall i: nat | 10 <= i :: Bits.Bit(b, i) == 0 by {
      forall i: nat | 10 <= i ensures Bits.Bit(b, i) == 0 {
        Bits.BitAboveWidth(b, 10, i);
      }
    }
    ToInt16(b)
  }

  /** Rewriting bit 0 twice with the same value changes nothing further, and
      an absent value becomes just `bit1`. */
  lemma NewBitsFacts(stored: Option<int>, bit1: int)
    requires bit1 == 0 || bit1 == 1
    ensures NewBits(Some(NewBits(stored, bit1)), bit1) == NewBits(stored, bit1)
    ensures NewBits(None, bit1) == bit1
  {
    var once := NewBits(stored, bit1);
    var twice := NewBits(Some(once), bit1);
    assert Bits.Pow2(10) == 1024;
    forall i: nat ensures Bits.Bit(twice, i) == Bits.Bit(once, i) {
    }
    BitsDetermine(twice, once, 10);
    Bits.BitOfZero(1);
    BitsDetermine(NewBits(None, bit1), bit1, 10);
  }

  /** Two values in [0, 2^n) with the same n low bits are equal. */
  lemma {:induction false} BitsDetermine(a: int, b: int, n: nat)
    requires 0 <= a < Bits.Pow2(n) && 0 <= b < Bits.Pow2(n)
    requires forall i: nat | i < n :: Bits.Bit(a, i) == Bits.Bit(b, i)
    ensures a == b
    decreases n
  {
    if n > 0 {
      assert Bits.Bit(a, 0) == Bits.Bit(b, 0);
      forall i: nat | i < n - 1 ensures Bits.Bit(a / 2, i) == Bits.Bit(b / 2, i) {
        assert Bits.Bit(a, i + 1) == Bits.Bit(b, i + 1);
      }
      BitsDetermine(a / 2, b / 2, n - 1);
    }
  }

  datatype UpdateReplies = UpdateReplies(
    beginOk: bool,
    subscriberRead: Status,
    stored: Subscriber,
    subscriberWrite: Status,
    facilityWrite: Status)

  /** The row the subscriber branch writes back: the row it read, with `bits` rewritten. */
  function UpdatedSubscriber(stored: Subscriber, bit1: int): (row: Subscriber)
    requires bit1 == 0 || bit1 == 1
    ensures row.bits.Some? && Bits.Bit(row.bits.value, 0) == bit1
    ensures row == stored.(bits := row.bits)
  {
    stored.(bits := Some(NewBits(stored.bits, bit1)))
  }

  /** The row the facility branch writes: the key-only facility with `data_a` set. */
  function UpdatedFacility(subId: int, sfType: int, dataA: int): (row: SpecialFacility)
    ensures row.dataA == Some(dataA)
    ensures row == SpecialFacilityKey(ToInt32(subId), ToInt16(sfType)).(dataA := row.dataA)
  {
    SpecialFacilityKey(ToInt32(subId), ToInt16(sfType)).(dataA := Some(dataA))
  }

  /** The subscriber branch: read, and only after a 2xx read write back `bits` (field 2). */
  function SubscriberBranch(subId: int, bit1: int, r: UpdateReplies): (t: Trace)
    requires bit1 == 0 || bit1 == 1
    ensures t.ok <==> r.subscriberRead.Is2xxOK() && r.subscriberWrite.Is2xxOK()
    ensures |t.calls| >= 1 && t.calls[0] == ReadSubscriber(SubscriberKey(ToInt16(subId)))
    ensures |t.calls| == if r.subscriberRead.Is2xxOK() then 2 else 1
  {
    var read := [ReadSubscriber(SubscriberKey(ToInt16(subId)))];
    if !r.subscriberRead.Is2xxOK() then Trace(false, read)
    else Trace(r.subscriberWrite.Is2xxOK(),
               read + [PartialUpdateSubscriber(UpdatedSubscriber(r.stored, bit1), [2])])
  }

  /** One attempt of UpdateSubscriberData: both branches, then `end`; any
      non-2xx, a 404 of the facility write included, fails. */
  function UpdateSubscriberDataTrace(subId: int, sfType: int, bit1: int, dataA: int, abort: bool, r: UpdateReplies)
    : (t: Trace)
    requires bit1 == 0 || bit1 == 1
    ensures t.ok <==>
      r.beginOk && r.subscriberRead.Is2xxOK() && r.subscriberWrite.Is2xxOK() && r.facilityWrite.Is2xxOK()
    ensures r.facilityWrite == Status404 ==> !t.ok
    ensures Ended(t.calls) <==> r.beginOk
    ensures EndsWith(t.calls, !abort)
    ensures |t.calls| >= 1 && t.calls[0] == BeginTxn
  {
    if !r.beginOk then Trace(false, [BeginTxn])
    else
      var a := SubscriberBranch(subId, bit1, r);
      var facility := PartialUpdateSpecialFacility(UpdatedFacility(subId, sfType, dataA), [4]);
      var calls := [BeginTxn] + a.calls + [facility, EndTxn(!abort)];
      assert calls[|calls| - 1].EndTxn?;
      Trace(a.ok && r.facilityWrite.Is2xxOK(), calls)
  }

  /** The only partial updates are of field 2 of the subscriber, carrying the
      row that was read with its bits rewritten, and of field 4 of the
      facility, carrying `data_a`. */
  lemma UpdateSubscriberDataWrites(subId: int, sfType: int, bit1: int, dataA: int, abort: bool, r: UpdateReplies, i: nat)
    requires bit1 == 0 || bit1 == 1
    requires i < |UpdateSubscriberDataTrace(subId, sfType, bit1, dataA, abort, r).calls|
    ensures var c := UpdateSubscriberDataTrace(subId, sfType, bit1, dataA, abort, r).calls[i];
            && (c.PartialUpdateSubscriber? ==>
                  r.subscriberRead.Is2xxOK() && c.subscriberFields == [2]
                  && c.subscriberRow == UpdatedSubscriber(r.stored, bit1))
            && (c.PartialUpdateSpecialFacility? ==>
                  c.facilityFields == [4] && c.facilityRow == UpdatedFacility(subId, sfType, dataA))
  {
  }

  /** Applied by the store, the subscriber write changes only `bits` and the
      facility write only `data_a`; those are fields 2 and 4 of their schemas. */
  lemma PartialUpdatesTouchOneField(current: Subscriber, stored: Subscriber, bit1: int,
                                    facility: SpecialFacility, subId: int, sfType: int, dataA: int)
    requires bit1 == 0 || bit1 == 1
    ensures SUBSCRIBER_SCHEMA.fields[2].name == "bits"
    ensures SPECIAL_FACILITY_SCHEMA.fields[4].name == "data_a"
    ensures ApplyPartialUpdate(SubscriberFields(current), SubscriberFields(UpdatedSubscriber(stored, bit1)), [2])
              == SubscriberFields(current.(bits := Some(NewBits(stored.bits, bit1))))
    ensures ApplyPartialUpdate(SpecialFacilityFields(facility), SpecialFacilityFields(UpdatedFacility(subId, sfType, dataA)), [4])
              == SpecialFacilityFields(facility.(dataA := Some(dataA)))
  {
    var s := ApplyPartialUpdate(SubscriberFields(current), SubscriberFields(UpdatedSubscriber(stored, bit1)), [2]);
    assert s == SubscriberFields(current.(bits := Some(NewBits(stored.bits, bit1)))) by {
      assert s[0] == SubscriberFields(current)[0];
    }
    var f := ApplyPartialUpdate(SpecialFacilityFields(facility), SpecialFacilityFields(UpdatedFacility(subId, sfType, dataA)), [4]);
    assert f == SpecialFacilityFields(facility.(dataA := Some(dataA))) by {
      assert f[0] == SpecialFacilityFields(facility)[0];
    }
  }

  class UpdateSubscriberDataT {
    const subId: int
    const sfType: int
    const bit1: int
    const dataA: int
    const abort: bool
    var hasTxn: bool
    var failed: bool

    /** Draws: subscriber in [1, max_s_id], facility type in [1, 4], the new
        bit in {0, 1} and the new `data_a` in [0, 255]. */
    constructor (maxSubId: int, subIdDraw: int, sfTypeDraw: int, bit1Draw: int, dataADraw: int)
      requires InUint32(maxSubId) && 1 <= subIdDraw <= maxSubId && 1 <= sfTypeDraw <= 4
      requires 0 <= bit1Draw <= 1 && 0 <= dataADraw <= 255
      ensures subId == subIdDraw && sfType == sfTypeDraw && bit1 == bit1Draw && dataA == dataADraw
      ensures !abort && !hasTxn && !failed
    {
      subId := subIdDraw;
      sfType := sfTypeDraw;
      bit1 := bit1Draw;
      dataA := dataADraw;
      abort := false;
      hasTxn := false;
      failed := false;
    }

    method Attempt(r: UpdateReplies) returns (ok: bool, calls: seq<Call>)
      requires bit1 == 0 || bit1 == 1
      modifies this
      ensures Trace(ok, calls) == UpdateSubscriberDataTrace(subId, sfType, bit1, dataA, abort, r)
      ensures hasTxn == (old(hasTxn) || r.beginOk)
      ensures failed == if r.beginOk then !ok else old(failed)
    {
      calls := [BeginTxn];
      if !r.beginOk {
        return false, calls;
      }
      hasTxn := true;
      // first branch: read the subscriber and write back its bits
      calls := calls + [ReadSubscriber(SubscriberKey(ToInt16(subId)))];
      var result1 := false;
      if r.subscriberRead.Is2xxOK() {
        var row := r.stored.(bits := Some(NewBits(r.stored.bits, bit1)));
        calls := calls + [PartialUpdateSubscriber(row, [2])];
        result1 := r.subscriberWrite.Is2xxOK();
      }
      // second branch: write the facility's data_a
      var sf := SpecialFacilityKey(ToInt32(subId), ToInt16(sfType));
      sf := sf.(dataA := Some(dataA));
      calls := calls + [PartialUpdateSpecialFacility(sf, [4])];
      var result2 := r.facilityWrite.Is2xxOK();
      failed := !result1 || !result2;
      calls := calls + [EndTxn(!abort)];
      ok := !failed;
    }
  }
}
