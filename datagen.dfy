/** `TATPDataGen::generateSubscriberData`: the ordered sequence of row writes
    that loads the subscribers of an id range with their access infos,
    special facilities and call forwardings. The random source is replaced by
    per-subscriber draws, including the sampled id lists. */
module TatpDataGen {
  import opened Common
  import opened TatpSchema

  /** One deferred `writeRow`, tagged by the table it writes. */
  datatype WriteOp =
    | WSub(sub: Subscriber)
    | WAI(ai: AccessInfo)
    | WSF(sf: SpecialFacility)
    | WCF(cf: CallForwarding)

  // ---------------------------------------------------------------- draws

  /** The Subscriber constructor's draws. */
  datatype SubscriberDraw = SubscriberDraw(bits: int, hexes: int, mscLocation: int, vlrLocation: int)

  /** One sampled access-info id and the AccessInfo constructor's draws. */
  datatype AccessDraw = AccessDraw(aid: int, data1: int, data2: int, data3: string, data4: string)

  /** One sampled call-forwarding id and the CallForwarding constructor's draws. */
  datatype ForwardingDraw = ForwardingDraw(cfid: int, endTime: int, numberx: string)

  /** One sampled special-facility id, the SpecialFacility constructor's draws
      and the call forwardings sampled for it. */
  datatype FacilityDraw = FacilityDraw(
    sfid: int, pct: int, errorCntrl: int, dataA: int, dataB: string, forwardings: seq<ForwardingDraw>)

  /** Everything drawn for one subscriber, in the order it is drawn. */
  datatype SubscriberDraws = SubscriberDraws(
    subscriber: SubscriberDraw, access: seq<AccessDraw>, facilities: seq<FacilityDraw>)

  predicate ValidSubscriberDraw(d: SubscriberDraw) {
    InInt16(d.bits) && InInt64(d.hexes) && InInt32(d.mscLocation) && InInt32(d.vlrLocation)
  }

  predicate ValidAccessDraw(d: AccessDraw) {
    && 0 <= d.data1 <= 256 && 0 <= d.data2 <= 256
    && CharsIn(d.data3, 3, 'A', 'Z') && CharsIn(d.data4, 4, 'A', 'Z')
  }

  /** `cfid` indexes the start-hour table, so it must be 1, 2 or 3. */
  predicate ValidForwardingDraw(d: ForwardingDraw) {
    1 <= d.cfid <= 3 && 1 <= d.endTime <= 8 && CharsIn(d.numberx, 15, '0', '9')
  }

  predicate ValidFacilityDraw(f: FacilityDraw) {
    && 1 <= f.pct <= 100 && 0 <= f.errorCntrl <= 255 && 0 <= f.dataA <= 255
    && CharsIn(f.dataB, 5, 'A', 'Z')
    && forall k | 0 <= k < |f.forwardings| :: ValidForwardingDraw(f.forwardings[k])
  }

  predicate ValidAccessDraws(ds: seq<AccessDraw>) {
    forall i | 0 <= i < |ds| :: ValidAccessDraw(ds[i])
  }

  predicate ValidFacilityDraws(fs: seq<FacilityDraw>) {
    forall j | 0 <= j < |fs| :: ValidFacilityDraw(fs[j])
  }

  predicate ValidDraws(d: SubscriberDraws) {
    ValidSubscriberDraw(d.subscriber) && ValidAccessDraws(d.access) && ValidFacilityDraws(d.facilities)
  }

  predicate AllValid(ds: seq<SubscriberDraws>) {
    forall i | 0 <= i < |ds| :: ValidDraws(ds[i])
  }

  // ---------------------------------------------------------------- the writes, as values

  /** The start hour of call forwarding `cfid`: 0, 8 or 16. */
  function StartTime(cfid: int): (t: int)
    requires 1 <= cfid <= 3
    ensures t == 8 * (cfid - 1)
  {
    START_TIMES[cfid - 1]
  }

  function AccessWrite(sid: int, d: AccessDraw): WriteOp
    requires InInt32(sid) && ValidAccessDraw(d)
  {
    WAI(NewAccessInfo(sid, ToInt16(d.aid), d.data1, d.data2, d.data3, d.data4))
  }

  /** The access-info writes of one subscriber, one per sampled id, in order. */
  function AccessWrites(sid: int, ds: seq<AccessDraw>): (ops: seq<WriteOp>)
    requires InInt32(sid) && ValidAccessDraws(ds)
    ensures |ops| == |ds|
    ensures forall i | 0 <= i < |ds| :: ops[i] == AccessWrite(sid, ds[i])
  {
    if ds == [] then [] else AccessWrites(sid, ds[..|ds| - 1]) + [AccessWrite(sid, ds[|ds| - 1])]
  }

  function ForwardingWrite(sid: int, sfid: int, d: ForwardingDraw): WriteOp
    requires InInt32(sid) && ValidForwardingDraw(d)
  {
    WCF(NewCallForwarding(sid, ToInt16(sfid), StartTime(d.cfid), d.endTime, d.numberx))
  }

  /** The call-forwarding writes of one special facility, in order. */
  function ForwardingWrites(sid: int, sfid: int, ds: seq<ForwardingDraw>): (ops: seq<WriteOp>)
    requires InInt32(sid) && forall k | 0 <= k < |ds| :: ValidForwardingDraw(ds[k])
    ensures |ops| == |ds|
    ensures forall k | 0 <= k < |ds| :: ops[k] == ForwardingWrite(sid, sfid, ds[k])
  {
    if ds == [] then [] else ForwardingWrites(sid, sfid, ds[..|ds| - 1]) + [ForwardingWrite(sid, sfid, ds[|ds| - 1])]
  }

  /** A special facility's write followed by its call forwardings' writes. */
  function FacilityBlock(sid: int, f: FacilityDraw): (ops: seq<WriteOp>)
    requires InInt32(sid) && ValidFacilityDraw(f)
  {
    [WSF(NewSpecialFacility(sid, ToInt16(f.sfid), f.pct, f.errorCntrl, f.dataA, f.dataB))]
      + ForwardingWrites(sid, f.sfid, f.forwardings)
  }

  /** The facility blocks of one subscriber, in sampled order. */
  function FacilityWrites(sid: int, fs: seq<FacilityDraw>): seq<WriteOp>
    requires InInt32(sid) && ValidFacilityDraws(fs)
  {
    if fs == [] then [] else FacilityWrites(sid, fs[..|fs| - 1]) + FacilityBlock(sid, fs[|fs| - 1])
  }

  /** The block of subscriber `id`: its own write, its access infos, then its
      facilities each followed by its call forwardings. Every record takes
      `int32_t(id)` as its `s_id`. */
  function SubscriberBlock(id: int, d: SubscriberDraws): seq<WriteOp>
    requires ValidDraws(d)
  {
    var sid := ToInt32(id);
    var s := d.subscriber;
    [WSub(NewSubscriber(sid, s.bits, s.hexes, s.mscLocation, s.vlrLocation))]
      + AccessWrites(sid, d.access) + FacilityWrites(sid, d.facilities)
  }

  /** The blocks of ids idStart, idStart + 1, ..., one after the other. */
  function Generated(idStart: int, ds: seq<SubscriberDraws>): seq<WriteOp>
    requires AllValid(ds)
  {
    if ds == [] then [] else Generated(idStart, ds[..|ds| - 1]) + SubscriberBlock(idStart + |ds| - 1, ds[|ds| - 1])
  }

  // ---------------------------------------------------------------- the reserve hint

  /** The capacity reserved up front: n + n*4/2 + n*4/2 + n*2*4/2, each
      product taken in 32-bit unsigned arithmetic. */
  function ReserveHint(n: int): (r: int)
    requires InUint32(n)
    ensures r >= n
    ensures n < 0x2000_0000 ==> r == 9 * n
  {
    var sf := ToUint32(n * (MAX_SF_ID_PER_SUBS - MIN_SF_ID_PER_SUBS + 1)) / 2;
    var ai := ToUint32(n * (MAX_AINFO_PER_SUBS - MIN_AINFO_PER_SUBS + 1)) / 2;
    var cf := ToUint32(ToUint32(n * ((MAX_SF_ID_PER_SUBS - MIN_SF_ID_PER_SUBS + 1) / 2))
                       * (MAX_CF_PER_SF - MIN_CF_PER_SF + 1)) / 2;
    n + sf + ai + cf
  }

  // ---------------------------------------------------------------- the generator

  method GenerateSubscriberData(idStart: int, idEnd: int, draws: seq<SubscriberDraws>)
    returns (data: seq<WriteOp>)
    requires InUint32(idStart) && InUint32(idEnd) && idStart <= idEnd
    requires |draws| == idEnd - idStart && AllValid(draws)
    ensures data == Generated(idStart, draws)
  {
    data := [];
    var idx := idStart;
    while idx < idEnd
      invariant idStart <= idx <= idEnd
      invariant data == Generated(idStart, draws[..idx - idStart])
    {
      GeneratedStep(idStart, draws, idx - idStart);
      data := PushSubscriber(data, idx, draws[idx - idStart]);
      idx := idx + 1;
    }
    assert draws[..idx - idStart] == draws;
  }

  /** Generating one more id appends that id's block. */
  lemma GeneratedStep(idStart: int, ds: seq<SubscriberDraws>, n: nat)
    requires AllValid(ds) && n < |ds|
    ensures AllValid(ds[..n]) && AllValid(ds[..n + 1])
    ensures Generated(idStart, ds[..n + 1]) == Generated(idStart, ds[..n]) + SubscriberBlock(idStart + n, ds[n])
  {
    var p := ds[..n + 1];
    assert |p| - 1 == n && p[..|p| - 1] == ds[..n] && p[|p| - 1] == ds[n];
    var front := Generated(idStart, ds[..n]);
    var block := SubscriberBlock(idStart + n, ds[n]);
    assert Generated(idStart, p) == front + block;
  }

  /** The body of the per-id loop: push subscriber `idx`, its access infos,
      and its facilities with their call forwardings. */
  method PushSubscriber(data: seq<WriteOp>, idx: int, d: SubscriberDraws) returns (out: seq<WriteOp>)
    requires ValidDraws(d)
    ensures out == data + SubscriberBlock(idx, d)
  {
    var sid := ToInt32(idx);
    var s := d.subscriber;
    ghost var head := [WSub(NewSubscriber(sid, s.bits, s.hexes, s.mscLocation, s.vlrLocation))];
    out := data + [WSub(NewSubscriber(sid, s.bits, s.hexes, s.mscLocation, s.vlrLocation))];
    out := PushAccessInfos(out, sid, d.access);
    ghost var accessDone := out;
    var j := 0;
    while j < |d.facilities|
      invariant 0 <= j <= |d.facilities|
      invariant out == accessDone + FacilityWrites(sid, d.facilities[..j])
    {
      ghost var fs := d.facilities[..j + 1];
      assert fs[..|fs| - 1] == d.facilities[..j] && fs[|fs| - 1] == d.facilities[j];
      assert FacilityWrites(sid, fs) == FacilityWrites(sid, d.facilities[..j]) + FacilityBlock(sid, d.facilities[j]);
      AppendAssoc(accessDone, FacilityWrites(sid, d.facilities[..j]), FacilityBlock(sid, d.facilities[j]));
      out := PushFacility(out, sid, d.facilities[j]);
      j := j + 1;
    }
    assert d.facilities[..j] == d.facilities;
    AppendAssoc(data, head, AccessWrites(sid, d.access));
    AppendAssoc(data, head + AccessWrites(sid, d.access), FacilityWrites(sid, d.facilities));
  }

  lemma AppendAssoc<T>(a: seq<T>, b: seq<T>, c: seq<T>)
    ensures (a + b) + c == a + (b + c)
  {
  }

  /** The access-info loop: one write per sampled id, in order. */
  method PushAccessInfos(data: seq<WriteOp>, sid: int, ds: seq<AccessDraw>) returns (out: seq<WriteOp>)
    requires InInt32(sid) && ValidAccessDraws(ds)
    ensures out == data + AccessWrites(sid, ds)
  {
    out := data;
    var i := 0;
    while i < |ds|
      invariant 0 <= i <= |ds|
      invariant out == data + AccessWrites(sid, ds[..i])
    {
      var a := ds[i];
      out := out + [WAI(NewAccessInfo(sid, ToInt16(a.aid), a.data1, a.data2, a.data3, a.data4))];
      assert ds[..i + 1][..i] == ds[..i];
      i := i + 1;
    }
    assert ds[..i] == ds;
  }

  /** The body of the per-facility loop: push the facility, then its call
      forwardings with start hour `{0, 8, 16}[cfid - 1]`. */
  method PushFacility(data: seq<WriteOp>, sid: int, f: FacilityDraw) returns (out: seq<WriteOp>)
    requires InInt32(sid) && ValidFacilityDraw(f)
    ensures out == data + FacilityBlock(sid, f)
  {
    var head := [WSF(NewSpecialFacility(sid, ToInt16(f.sfid), f.pct, f.errorCntrl, f.dataA, f.dataB))];
    out := data + head;
    var k := 0;
    while k < |f.forwardings|
      invariant 0 <= k <= |f.forwardings|
      invariant out == data + head + ForwardingWrites(sid, f.sfid, f.forwardings[..k])
    {
      var c := f.forwardings[k];
      var startTime := START_TIMES[c.cfid - 1];
      out := out + [WCF(NewCallForwarding(sid, ToInt16(f.sfid), startTime, c.endTime, c.numberx))];
      assert f.forwardings[..k + 1][..k] == f.forwardings[..k];
      k := k + 1;
    }
    assert f.forwardings[..k] == f.forwardings;
  }
}
