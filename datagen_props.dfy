/** What the generated write sequence promises: its length, one Subscriber
    write per id in ascending order, contiguous per-subscriber blocks with
    dependent rows nested under their owners, sampled ids kept in sampled
    order, when keys are duplicate-free, and the range of `end_time`. */
module DataGenProperties {
  import opened Common
  import opened TatpSchema
  import opened TatpDataGen

  // ---------------------------------------------------------------- sizes

  /** Facilities plus their call forwardings. */
  function FacilityCount(fs: seq<FacilityDraw>): nat {
    if fs == [] then 0 else FacilityCount(fs[..|fs| - 1]) + 1 + |fs[|fs| - 1].forwardings|
  }

  /** Rows written for one subscriber. */
  function BlockSize(d: SubscriberDraws): nat {
    1 + |d.access| + FacilityCount(d.facilities)
  }

  /** Rows written for a run of subscribers. */
  function TotalSize(ds: seq<SubscriberDraws>): nat {
    if ds == [] then 0 else TotalSize(ds[..|ds| - 1]) + BlockSize(ds[|ds| - 1])
  }

  lemma {:induction false} FacilityWritesLength(sid: int, fs: seq<FacilityDraw>)
    requires InInt32(sid) && ValidFacilityDraws(fs)
    ensures |FacilityWrites(sid, fs)| == FacilityCount(fs)
    decreases |fs|
  {
    if fs != [] {
      FacilityWritesLength(sid, fs[..|fs| - 1]);
    }
  }

  /** The output has one row per subscriber, per sampled access info, per
      sampled facility and per sampled call forwarding. */
  lemma {:induction false} GeneratedLength(idStart: int, ds: seq<SubscriberDraws>)
    requires AllValid(ds)
    ensures |Generated(idStart, ds)| == TotalSize(ds)
    decreases |ds|
  {
    if ds != [] {
      GeneratedLength(idStart, ds[..|ds| - 1]);
      FacilityWritesLength(ToInt32(idStart + |ds| - 1), ds[|ds| - 1].facilities);
    }
  }

  /** The sampled id lists have the sizes the cardinality constants name:
      1..4 access infos, 1..4 special facilities, 0..3 call forwardings each. */
  predicate WithinCardinality(d: SubscriberDraws) {
    && MIN_AINFO_PER_SUBS <= |d.access| <= MAX_AINFO_PER_SUBS
    && MIN_SF_ID_PER_SUBS <= |d.facilities| <= MAX_SF_ID_PER_SUBS
    && forall j | 0 <= j < |d.facilities| ::
         MIN_CF_PER_SF <= |d.facilities[j].forwardings| <= MAX_CF_PER_SF
  }

  lemma {:induction false} FacilityCountBounds(fs: seq<FacilityDraw>)
    requires forall j | 0 <= j < |fs| :: |fs[j].forwardings| <= MAX_CF_PER_SF
    ensures |fs| <= FacilityCount(fs) <= |fs| * (1 + MAX_CF_PER_SF)
    decreases |fs|
  {
    if fs != [] {
      FacilityCountBounds(fs[..|fs| - 1]);
    }
  }

  /** Within the cardinality constants a subscriber's block has between
      1 + 1 + 1 = 3 and 1 + 4 + 4 * (1 + 3) = 21 rows. */
  lemma BlockSizeBounds(d: SubscriberDraws)
    requires WithinCardinality(d)
    ensures 1 + MIN_AINFO_PER_SUBS + MIN_SF_ID_PER_SUBS <= BlockSize(d)
    ensures BlockSize(d) <= 1 + MAX_AINFO_PER_SUBS + MAX_SF_ID_PER_SUBS * (1 + MAX_CF_PER_SF)
  {
    FacilityCountBounds(d.facilities);
  }

  lemma {:induction false} TotalSizeBounds(ds: seq<SubscriberDraws>)
    requires forall i | 0 <= i < |ds| :: WithinCardinality(ds[i])
    ensures 3 * |ds| <= TotalSize(ds) <= 21 * |ds|
    decreases |ds|
  {
    if ds != [] {
      TotalSizeBounds(ds[..|ds| - 1]);
      BlockSizeBounds(ds[|ds| - 1]);
    }
  }

  /** Loading n subscribers writes between 3n and 21n rows. */
  lemma GeneratedSizeBounds(idStart: int, ds: seq<SubscriberDraws>)
    requires AllValid(ds) && forall i | 0 <= i < |ds| :: WithinCardinality(ds[i])
    ensures 3 * |ds| <= |Generated(idStart, ds)| <= 21 * |ds|
  {
    GeneratedLength(idStart, ds);
    TotalSizeBounds(ds);
  }

  // ---------------------------------------------------------------- one Subscriber write per id

  /** The `s_id`s of the Subscriber writes, in output order. */
  function SubscriberIds(ops: seq<WriteOp>): seq<Option<int>> {
    if ops == [] then []
    else SubscriberIds(ops[..|ops| - 1]) + (if ops[|ops| - 1].WSub? then [ops[|ops| - 1].sub.sID] else [])
  }

  lemma {:induction false} SubscriberIdsConcat(a: seq<WriteOp>, b: seq<WriteOp>)
    ensures SubscriberIds(a + b) == SubscriberIds(a) + SubscriberIds(b)
    decreases |b|
  {
    if b == [] {
      assert a + b == a;
    } else {
      assert (a + b)[..|a + b| - 1] == a + b[..|b| - 1];
      SubscriberIdsConcat(a, b[..|b| - 1]);
    }
  }

  lemma {:induction false} NoSubscriberIds(ops: seq<WriteOp>)
    requires forall p | 0 <= p < |ops| :: !ops[p].WSub?
    ensures SubscriberIds(ops) == []
    decreases |ops|
  {
    if ops != [] {
      NoSubscriberIds(ops[..|ops| - 1]);
    }
  }

  /** Only the first write of a facility block names a facility; the rest are
      its call forwardings, all under that facility's `s_id` and `sf_type`. */
  lemma FacilityBlockShape(sid: int, f: FacilityDraw)
    requires InInt32(sid) && ValidFacilityDraw(f)
    ensures var b := FacilityBlock(sid, f);
            && |b| == 1 + |f.forwardings|
            && b[0].WSF? && b[0].sf.sID == Some(sid) && b[0].sf.sfType == Some(ToInt16(f.sfid))
            && forall p | 1 <= p < |b| ::
                 && b[p].WCF? && b[p].cf.sID == Some(sid) && b[p].cf.sfType == Some(ToInt16(f.sfid))
                 && b[p].cf.startTime == Some(StartTime(f.forwardings[p - 1].cfid))
  {
    var b := FacilityBlock(sid, f);
    forall p | 1 <= p < |b|
      ensures && b[p].WCF? && b[p].cf.sID == Some(sid) && b[p].cf.sfType == Some(ToInt16(f.sfid))
              && b[p].cf.startTime == Some(StartTime(f.forwardings[p - 1].cfid))
    {
      assert b[p] == ForwardingWrite(sid, f.sfid, f.forwardings[p - 1]);
    }
  }

  /** The facility part of a block holds only facility and call-forwarding
      writes, all under the subscriber's `s_id` and a sampled facility type. */
  lemma {:induction false} FacilityWritesShape(sid: int, fs: seq<FacilityDraw>)
    requires InInt32(sid) && ValidFacilityDraws(fs)
    ensures forall p | 0 <= p < |FacilityWrites(sid, fs)| ::
              var op := FacilityWrites(sid, fs)[p];
              && (op.WSF? || op.WCF?) && SidOf(op) == Some(sid)
              && FacilityTypeOf(op).Some? && FacilityTypeOf(op).value in SfTypes(fs)
    decreases |fs|
  {
    if fs != [] {
      var n := |fs| - 1;
      var front := FacilityWrites(sid, fs[..n]);
      var last := FacilityBlock(sid, fs[n]);
      FacilityWritesShape(sid, fs[..n]);
      FacilityBlockShape(sid, fs[n]);
      SfTypesSnoc(fs);
      var all: seq<WriteOp> := front + last;
      forall p | 0 <= p < |all|
        ensures && (all[p].WSF? || all[p].WCF?) && SidOf(all[p]) == Some(sid)
                && FacilityTypeOf(all[p]).Some? && FacilityTypeOf(all[p]).value in SfTypes(fs)
      {
        if p >= |front| {
          assert all[p] == last[p - |front|];
        } else {
          assert all[p] == front[p];
        }
      }
    }
  }

  /** The `sf_type` a facility or call-forwarding write carries. */
  function FacilityTypeOf(op: WriteOp): Option<int> {
    match op
    case WSF(r) => r.sfType
    case WCF(r) => r.sfType
    case _ => None
  }

  /** The `s_id` a write carries. */
  function SidOf(op: WriteOp): Option<int> {
    match op
    case WSub(r) => r.sID
    case WAI(r) => r.sID
    case WSF(r) => r.sID
    case WCF(r) => r.sID
  }

  /** Each block writes its subscriber first and no other subscriber, and
      every row in it carries the subscriber's `s_id`. */
  lemma BlockShape(id: int, d: SubscriberDraws)
    requires ValidDraws(d)
    ensures var b := SubscriberBlock(id, d);
            && b[0].WSub? && b[0].sub.sID == Some(ToInt32(id))
            && (forall p | 1 <= p < |b| :: !b[p].WSub?)
            && (forall p | 0 <= p < |b| :: SidOf(b[p]) == Some(ToInt32(id)))
  {
    var sid := ToInt32(id);
    var aw := AccessWrites(sid, d.access);
    var fw := FacilityWrites(sid, d.facilities);
    FacilityWritesShape(sid, d.facilities);
    var b := SubscriberBlock(id, d);
    forall p | 1 <= p < |b| ensures !b[p].WSub? && SidOf(b[p]) == Some(sid) {
      if p < 1 + |aw| {
        assert b[p] == aw[p - 1] == AccessWrite(sid, d.access[p - 1]);
      } else {
        assert b[p] == fw[p - 1 - |aw|];
      }
    }
  }

  lemma BlockSubscriberIds(id: int, d: SubscriberDraws)
    requires ValidDraws(d)
    ensures SubscriberIds(SubscriberBlock(id, d)) == [Some(ToInt32(id))]
  {
    var b := SubscriberBlock(id, d);
    BlockShape(id, d);
    assert b == [b[0]] + b[1..];
    SubscriberIdsConcat([b[0]], b[1..]);
    NoSubscriberIds(b[1..]);
    assert [b[0]][..0] == [];
  }

  /** Exactly one Subscriber write per id of the range, in ascending id
      order: the k-th one is for id `idStart + k`, stored as `int32_t`. */
  lemma {:induction false} OneSubscriberPerId(idStart: int, ds: seq<SubscriberDraws>)
    requires AllValid(ds)
    ensures var ids := SubscriberIds(Generated(idStart, ds));
            && |ids| == |ds|
            && forall k | 0 <= k < |ds| :: ids[k] == Some(ToInt32(idStart + k))
    decreases |ds|
  {
    if ds != [] {
      var n := |ds| - 1;
      var front := Generated(idStart, ds[..n]);
      var b := SubscriberBlock(idStart + n, ds[n]);
      OneSubscriberPerId(idStart, ds[..n]);
      BlockSubscriberIds(idStart + n, ds[n]);
      assert Generated(idStart, ds) == front + b;
      SubscriberIdsConcat(front, b);
      AscendingIdsAppend(SubscriberIds(front), idStart, n);
    }
  }

  /** Appending the id after n ascending ids keeps them ascending. */
  lemma AscendingIdsAppend(before: seq<Option<int>>, idStart: int, n: nat)
    requires |before| == n && forall k | 0 <= k < n :: before[k] == Some(ToInt32(idStart + k))
    ensures var ids := before + [Some(ToInt32(idStart + n))];
            |ids| == n + 1 && forall k | 0 <= k < n + 1 :: ids[k] == Some(ToInt32(idStart + k))
  {
  }

  /** Read back as `uint32_t`, the k-th Subscriber write's `s_id` is the id
      `idStart + k`, for every range of `uint32_t` ids. */
  lemma SubscriberIdsAscending(idStart: int, ds: seq<SubscriberDraws>)
    requires AllValid(ds) && InUint32(idStart) && idStart + |ds| <= TWO_TO_32
    ensures var ids := SubscriberIds(Generated(idStart, ds));
            && |ids| == |ds|
            && forall k | 0 <= k < |ds| :: ids[k].Some? && ToUint32(ids[k].value) == idStart + k
  {
    var ids := SubscriberIds(Generated(idStart, ds));
    OneSubscriberPerId(idStart, ds);
    forall k | 0 <= k < |ds| ensures ids[k].Some? && ToUint32(ids[k].value) == idStart + k {
      Int32RoundTrip(idStart + k);
    }
  }

  // ---------------------------------------------------------------- nesting

  /** `op` may follow `prev`: a Subscriber write starts a block; an access
      info follows its subscriber or another access info; a facility follows
      any row of its subscriber; a call forwarding follows its facility or
      another call forwarding of that facility. */
  predicate Linked(prev: WriteOp, op: WriteOp) {
    match op
    case WSub(_) => true
    case WAI(r) => (prev.WSub? || prev.WAI?) && r.sID == SidOf(prev)
    case WSF(r) => r.sID == SidOf(prev)
    case WCF(r) =>
      || (prev.WSF? && r.sID == prev.sf.sID && r.sfType == prev.sf.sfType)
      || (prev.WCF? && r.sID == prev.cf.sID && r.sfType == prev.cf.sfType)
  }

  predicate Chained(ops: seq<WriteOp>) {
    forall p | 0 < p < |ops| :: Linked(ops[p - 1], ops[p])
  }

  /** Blocks start with a Subscriber write and every later row is linked to
      the one before it. */
  predicate WellNested(ops: seq<WriteOp>) {
    (|ops| > 0 ==> ops[0].WSub?) && Chained(ops)
  }

  lemma ChainedConcat(a: seq<WriteOp>, b: seq<WriteOp>)
    requires Chained(a) && Chained(b)
    requires |a| > 0 && |b| > 0 ==> Linked(a[|a| - 1], b[0])
    ensures Chained(a + b)
  {
    forall p | 0 < p < |a + b| ensures Linked((a + b)[p - 1], (a + b)[p]) {
      if p > |a| {
        assert (a + b)[p - 1] == b[p - 1 - |a|] && (a + b)[p] == b[p - |a|];
      }
    }
  }

  lemma FacilityBlockChained(sid: int, f: FacilityDraw)
    requires InInt32(sid) && ValidFacilityDraw(f)
    ensures Chained(FacilityBlock(sid, f))
  {
    FacilityBlockShape(sid, f);
  }

  lemma {:induction false} FacilityWritesChained(sid: int, fs: seq<FacilityDraw>)
    requires InInt32(sid) && ValidFacilityDraws(fs)
    ensures Chained(FacilityWrites(sid, fs))
    ensures |FacilityWrites(sid, fs)| > 0 ==> FacilityWrites(sid, fs)[0].WSF?
    decreases |fs|
  {
    if fs != [] {
      var front := FacilityWrites(sid, fs[..|fs| - 1]);
      var last := FacilityBlock(sid, fs[|fs| - 1]);
      FacilityWritesChained(sid, fs[..|fs| - 1]);
      FacilityWritesShape(sid, fs[..|fs| - 1]);
      FacilityBlockChained(sid, fs[|fs| - 1]);
      FacilityBlockShape(sid, fs[|fs| - 1]);
      ChainedConcat(front, last);
      if |front| > 0 {
        assert (front + last)[0] == front[0];
      }
    }
  }

  lemma BlockWellNested(id: int, d: SubscriberDraws)
    requires ValidDraws(d)
    ensures WellNested(SubscriberBlock(id, d))
  {
    var sid := ToInt32(id);
    var s := d.subscriber;
    var head := [WSub(NewSubscriber(sid, s.bits, s.hexes, s.mscLocation, s.vlrLocation))];
    var aw := AccessWrites(sid, d.access);
    var fw := FacilityWrites(sid, d.facilities);
    assert Chained(head + aw) by {
      forall p | 0 < p < |head + aw| ensures Linked((head + aw)[p - 1], (head + aw)[p]) {
        assert (head + aw)[p] == aw[p - 1] == AccessWrite(sid, d.access[p - 1]);
        if p > 1 {
          assert (head + aw)[p - 1] == aw[p - 2] == AccessWrite(sid, d.access[p - 2]);
        }
      }
    }
    FacilityWritesChained(sid, d.facilities);
    FacilityWritesShape(sid, d.facilities);
    var last := (head + aw)[|head + aw| - 1];
    assert last.WSub? || last.WAI?;
    assert SidOf(last) == Some(sid) by {
      if |aw| > 0 {
        assert last == aw[|aw| - 1] == AccessWrite(sid, d.access[|aw| - 1]);
      }
    }
    ChainedConcat(head + aw, fw);
    assert SubscriberBlock(id, d) == head + aw + fw;
  }

  /** The whole output is a run of well-nested blocks: every access info,
      facility and call forwarding sits after its owner's rows, with the
      owner's `s_id`, and every call forwarding directly after its facility
      or a sibling, with the facility's `sf_type`. */
  lemma {:induction false} GeneratedWellNested(idStart: int, ds: seq<SubscriberDraws>)
    requires AllValid(ds)
    ensures WellNested(Generated(idStart, ds))
    decreases |ds|
  {
    if ds != [] {
      var n := |ds| - 1;
      var front := Generated(idStart, ds[..n]);
      var b := SubscriberBlock(idStart + n, ds[n]);
      GeneratedWellNested(idStart, ds[..n]);
      BlockWellNested(idStart + n, ds[n]);
      BlockShape(idStart + n, ds[n]);
      ChainedConcat(front, b);
      if |front| > 0 {
        assert (front + b)[0] == front[0];
      }
    }
  }

  // ---------------------------------------------------------------- layout in sampled order

  lemma {:induction false} FacilityWritesPrefix(sid: int, fs: seq<FacilityDraw>, n: nat)
    requires InInt32(sid) && ValidFacilityDraws(fs) && n <= |fs|
    ensures FacilityCount(fs[..n]) <= |FacilityWrites(sid, fs)|
    ensures FacilityWrites(sid, fs)[..FacilityCount(fs[..n])] == FacilityWrites(sid, fs[..n])
    decreases |fs|
  {
    FacilityWritesLength(sid, fs);
    FacilityWritesLength(sid, fs[..n]);
    if n < |fs| {
      var m := |fs| - 1;
      assert fs[..m][..n] == fs[..n];
      FacilityWritesPrefix(sid, fs[..m], n);
      FacilityWritesLength(sid, fs[..m]);
    } else {
      assert fs[..n] == fs;
    }
  }

  /** The j-th sampled facility's block: its write, then its call
      forwardings, occupies the positions right after the blocks of the
      facilities sampled before it. */
  lemma FacilityLayout(sid: int, fs: seq<FacilityDraw>, j: nat)
    requires InInt32(sid) && ValidFacilityDraws(fs) && j < |fs|
    ensures FacilityCount(fs[..j + 1]) == FacilityCount(fs[..j]) + 1 + |fs[j].forwardings|
    ensures FacilityCount(fs[..j + 1]) <= |FacilityWrites(sid, fs)|
    ensures FacilityWrites(sid, fs)[FacilityCount(fs[..j])..FacilityCount(fs[..j + 1])] == FacilityBlock(sid, fs[j])
  {
    assert fs[..j + 1][..j] == fs[..j];
    FacilityWritesPrefix(sid, fs, j + 1);
    FacilityWritesLength(sid, fs[..j]);
    var all := FacilityWrites(sid, fs);
    var c := FacilityCount(fs[..j]);
    var c1 := FacilityCount(fs[..j + 1]);
    assert all[..c1] == FacilityWrites(sid, fs[..j]) + FacilityBlock(sid, fs[j]);
    assert all[c..c1] == all[..c1][c..];
  }

  /** A block is the subscriber's write, its access infos in sampled order
      (with `ai_type` the sampled id as `int16_t`), then its facility blocks. */
  lemma BlockLayout(id: int, d: SubscriberDraws)
    requires ValidDraws(d)
    ensures var b := SubscriberBlock(id, d);
            var sid := ToInt32(id);
            && |b| == BlockSize(d)
            && b[0].WSub? && b[0].sub.sID == Some(sid) && b[0].sub.subNBR == Some(SubscriberNumber(sid))
            && (forall i | 0 <= i < |d.access| ::
                  b[1 + i].WAI? && b[1 + i].ai.sID == Some(sid) && b[1 + i].ai.aiType == Some(ToInt16(d.access[i].aid)))
            && b[1 + |d.access|..] == FacilityWrites(sid, d.facilities)
  {
    var sid := ToInt32(id);
    var b := SubscriberBlock(id, d);
    var aw := AccessWrites(sid, d.access);
    FacilityWritesLength(sid, d.facilities);
    forall i | 0 <= i < |d.access|
      ensures b[1 + i].WAI? && b[1 + i].ai.sID == Some(sid) && b[1 + i].ai.aiType == Some(ToInt16(d.access[i].aid))
    {
      assert b[1 + i] == aw[i] == AccessWrite(sid, d.access[i]);
    }
  }

  // ---------------------------------------------------------------- key distinctness

  /** The primary key a write targets, with the key fields of its schema. */
  datatype RowKey =
    | SubscriberRow(sID: Option<int>)
    | AccessRow(sID: Option<int>, aiType: Option<int>)
    | FacilityRow(sID: Option<int>, sfType: Option<int>)
    | ForwardingRow(sID: Option<int>, sfType: Option<int>, startTime: Option<int>)

  function KeyOfWrite(op: WriteOp): RowKey {
    match op
    case WSub(r) => SubscriberRow(r.sID)
    case WAI(r) => AccessRow(r.sID, r.aiType)
    case WSF(r) => FacilityRow(r.sID, r.sfType)
    case WCF(r) => ForwardingRow(r.sID, r.sfType, r.startTime)
  }

  /** Each write's key is its record's key as the record's schema lays it out. */
  lemma KeyOfWriteMatchesSchema(op: WriteOp)
    ensures && WellFormedSchema(SUBSCRIBER_SCHEMA) && WellFormedSchema(ACCESS_INFO_SCHEMA)
            && WellFormedSchema(SPECIAL_FACILITY_SCHEMA) && WellFormedSchema(CALL_FORWARDING_SCHEMA)
    ensures op.WSub? ==> KeyOf(SUBSCRIBER_SCHEMA, SubscriberFields(op.sub)) == [IntField(KeyOfWrite(op).sID)]
    ensures op.WAI? ==>
              var k := KeyOfWrite(op);
              KeyOf(ACCESS_INFO_SCHEMA, AccessInfoFields(op.ai)) == [IntField(k.sID), IntField(k.aiType)]
    ensures op.WSF? ==>
              var k := KeyOfWrite(op);
              KeyOf(SPECIAL_FACILITY_SCHEMA, SpecialFacilityFields(op.sf)) == [IntField(k.sID), IntField(k.sfType)]
    ensures op.WCF? ==>
              var k := KeyOfWrite(op);
              KeyOf(CALL_FORWARDING_SCHEMA, CallForwardingFields(op.cf))
                == [IntField(k.sID), IntField(k.sfType), IntField(k.startTime)]
  {
    KeyLayout();
  }

  function Keys(ops: seq<WriteOp>): (ks: seq<RowKey>)
    ensures |ks| == |ops|
    ensures forall p | 0 <= p < |ops| :: ks[p] == KeyOfWrite(ops[p])
  {
    seq(|ops|, p requires 0 <= p < |ops| => KeyOfWrite(ops[p]))
  }

  lemma KeysConcat(a: seq<WriteOp>, b: seq<WriteOp>)
    ensures Keys(a + b) == Keys(a) + Keys(b)
  {
    assert forall p | 0 <= p < |b| :: (a + b)[|a| + p] == b[p];
  }

  /** The sampled access-info ids, as stored (`int16_t`). */
  function AiTypes(acc: seq<AccessDraw>): (ts: seq<int>)
    ensures |ts| == |acc|
    ensures forall i | 0 <= i < |acc| :: ts[i] == ToInt16(acc[i].aid)
  {
    seq(|acc|, i requires 0 <= i < |acc| => ToInt16(acc[i].aid))
  }

  /** The sampled facility ids, as stored (`int16_t`). */
  function SfTypes(fs: seq<FacilityDraw>): (ts: seq<int>)
    ensures |ts| == |fs|
    ensures forall j | 0 <= j < |fs| :: ts[j] == ToInt16(fs[j].sfid)
  {
    seq(|fs|, j requires 0 <= j < |fs| => ToInt16(fs[j].sfid))
  }

  /** The sampled call-forwarding ids of one facility. */
  function CfIds(cs: seq<ForwardingDraw>): (ids: seq<int>)
    ensures |ids| == |cs|
    ensures forall k | 0 <= k < |cs| :: ids[k] == cs[k].cfid
  {
    seq(|cs|, k requires 0 <= k < |cs| => cs[k].cfid)
  }

  predicate AllCfIdsDistinct(fs: seq<FacilityDraw>) {
    forall j | 0 <= j < |fs| :: Distinct(CfIds(fs[j].forwardings))
  }

  lemma AccessKeysDistinct(sid: int, acc: seq<AccessDraw>)
    requires InInt32(sid) && ValidAccessDraws(acc)
    ensures Distinct(Keys(AccessWrites(sid, acc))) <==> Distinct(AiTypes(acc))
    ensures forall p | 0 <= p < |acc| :: Keys(AccessWrites(sid, acc))[p].AccessRow?
  {
    var ks := Keys(AccessWrites(sid, acc));
    assert forall i | 0 <= i < |acc| :: ks[i] == AccessRow(Some(sid), Some(AiTypes(acc)[i]));
  }

  lemma SfTypesSnoc(fs: seq<FacilityDraw>)
    requires fs != []
    ensures SfTypes(fs) == SfTypes(fs[..|fs| - 1]) + [ToInt16(fs[|fs| - 1].sfid)]
  {
  }

  lemma CfIdsSnoc(fs: seq<FacilityDraw>)
    requires fs != []
    ensures AllCfIdsDistinct(fs) <==>
              AllCfIdsDistinct(fs[..|fs| - 1]) && Distinct(CfIds(fs[|fs| - 1].forwardings))
  {
    assert forall j | 0 <= j < |fs| - 1 :: fs[..|fs| - 1][j] == fs[j];
  }

  /** A facility key followed by call-forwarding keys under one subscriber
      and facility type, the p-th starting at hour 8 * (ids[p] - 1): they
      are duplicate-free exactly when the ids are. */
  lemma ForwardingKeysDistinct(ks: seq<RowKey>, ids: seq<int>)
    requires |ks| == 1 + |ids| && ks[0].FacilityRow?
    requires forall p | 1 <= p < |ks| ::
               && ks[p].ForwardingRow? && ks[p].sID == ks[0].sID && ks[p].sfType == ks[0].sfType
               && ks[p].startTime == Some(8 * (ids[p - 1] - 1))
    ensures Distinct(ks) <==> Distinct(ids)
  {
    if Distinct(ks) {
      forall i, j | 0 <= i < j < |ids| ensures ids[i] != ids[j] {
        assert ks[i + 1] != ks[j + 1];
      }
    }
    if Distinct(ids) {
      forall i, j | 0 <= i < j < |ks| ensures ks[i] != ks[j] {
        if i > 0 {
          assert ids[i - 1] != ids[j - 1];
        }
      }
    }
  }

  /** A facility block's keys: the facility's, then one call-forwarding key
      per sampled id under the same `sf_type`; they are duplicate-free
      exactly when the sampled call-forwarding ids are. */
  lemma FacilityBlockKeys(sid: int, f: FacilityDraw)
    requires InInt32(sid) && ValidFacilityDraw(f)
    ensures var ks := Keys(FacilityBlock(sid, f));
            && ks[0] == FacilityRow(Some(sid), Some(ToInt16(f.sfid)))
            && (forall p | 1 <= p < |ks| :: ks[p].ForwardingRow? && ks[p].sID == Some(sid) && ks[p].sfType == Some(ToInt16(f.sfid)))
            && (Distinct(ks) <==> Distinct(CfIds(f.forwardings)))
  {
    var ks := Keys(FacilityBlock(sid, f));
    FacilityBlockShape(sid, f);
    ForwardingKeysDistinct(ks, CfIds(f.forwardings));
  }

  /** Keys already written and the keys of the next facility block, all
      tagged with a facility type: they are disjoint exactly when the next
      type is not among the earlier ones, given that an earlier block of
      that type would repeat the next block's first key. */
  lemma TypedKeysDisjoint(front: seq<RowKey>, last: seq<RowKey>, types: seq<int>, sid: int, t: int)
    requires forall p | 0 <= p < |front| ::
               (front[p].FacilityRow? || front[p].ForwardingRow?) && front[p].sfType.Some? && front[p].sfType.value in types
    requires |last| > 0 && last[0] == FacilityRow(Some(sid), Some(t))
    requires forall q | 1 <= q < |last| :: last[q].ForwardingRow? && last[q].sID == Some(sid) && last[q].sfType == Some(t)
    requires t in types ==> last[0] in front
    ensures (forall x | x in front :: x !in last) <==> t !in types
  {
  }

  /** Every key of the facility part is a facility or call-forwarding key
      under one of the sampled facility types. */
  lemma FacilityKeysTyped(sid: int, fs: seq<FacilityDraw>)
    requires InInt32(sid) && ValidFacilityDraws(fs)
    ensures var ks := Keys(FacilityWrites(sid, fs));
            forall p | 0 <= p < |ks| ::
              (ks[p].FacilityRow? || ks[p].ForwardingRow?) && ks[p].sfType.Some? && ks[p].sfType.value in SfTypes(fs)
  {
    FacilityWritesShape(sid, fs);
  }

  /** Every sampled facility type has its facility key in the facility part. */
  lemma FacilityKeyPresent(sid: int, fs: seq<FacilityDraw>, j: nat)
    requires InInt32(sid) && ValidFacilityDraws(fs) && j < |fs|
    ensures FacilityRow(Some(sid), Some(ToInt16(fs[j].sfid))) in Keys(FacilityWrites(sid, fs))
  {
    var fw := FacilityWrites(sid, fs);
    FacilityLayout(sid, fs, j);
    var c := FacilityCount(fs[..j]);
    var c1 := FacilityCount(fs[..j + 1]);
    assert fw[c] == fw[c..c1][0] == FacilityBlock(sid, fs[j])[0];
    assert Keys(fw)[c] == KeyOfWrite(fw[c]);
  }

  /** The facility part written so far and the next facility block share a
      key exactly when the next facility's type was sampled before. */
  lemma FacilityBlocksDisjoint(sid: int, fs: seq<FacilityDraw>)
    requires InInt32(sid) && ValidFacilityDraws(fs) && fs != []
    ensures var n := |fs| - 1;
            (forall x | x in Keys(FacilityWrites(sid, fs[..n])) :: x !in Keys(FacilityBlock(sid, fs[n])))
              <==> ToInt16(fs[n].sfid) !in SfTypes(fs[..n])
  {
    var n := |fs| - 1;
    var earlier, f := fs[..n], fs[n];
    var t := ToInt16(f.sfid);
    var types := SfTypes(earlier);
    var front := Keys(FacilityWrites(sid, earlier));
    var last := Keys(FacilityBlock(sid, f));
    FacilityBlockKeys(sid, f);
    FacilityKeysTyped(sid, earlier);
    forall p | 0 <= p < |front|
      ensures (front[p].FacilityRow? || front[p].ForwardingRow?) && front[p].sfType.Some? && front[p].sfType.value in types
    {
      assert front == Keys(FacilityWrites(sid, earlier));
    }
    if t in types {
      var j :| 0 <= j < n && types[j] == t;
      assert types[j] == ToInt16(earlier[j].sfid);
      FacilityKeyPresent(sid, earlier, j);
      assert last[0] in front;
    }
    assert |last| > 0 && last[0] == FacilityRow(Some(sid), Some(t));
    TypedKeysDisjoint(front, last, types, sid, t);
  }

  /** The facility part has duplicate-free keys exactly when the sampled
      facility ids are duplicate-free and so are each facility's sampled
      call-forwarding ids. */
  lemma {:induction false} FacilityKeysDistinct(sid: int, fs: seq<FacilityDraw>)
    requires InInt32(sid) && ValidFacilityDraws(fs)
    ensures Distinct(Keys(FacilityWrites(sid, fs))) <==> Distinct(SfTypes(fs)) && AllCfIdsDistinct(fs)
    decreases |fs|
  {
    if fs != [] {
      var n := |fs| - 1;
      var front := Keys(FacilityWrites(sid, fs[..n]));
      var last := Keys(FacilityBlock(sid, fs[n]));
      FacilityKeysDistinct(sid, fs[..n]);
      FacilityBlockKeys(sid, fs[n]);
      FacilityBlocksDisjoint(sid, fs);
      assert FacilityWrites(sid, fs) == FacilityWrites(sid, fs[..n]) + FacilityBlock(sid, fs[n]);
      KeysConcat(FacilityWrites(sid, fs[..n]), FacilityBlock(sid, fs[n]));
      DistinctConcat(front, last);
      SfTypesSnoc(fs);
      DistinctConcat(SfTypes(fs[..n]), [ToInt16(fs[n].sfid)]);
      CfIdsSnoc(fs);
    }
  }

  /** A subscriber key, access-info keys, then facility and call-forwarding
      keys: duplicates can only occur inside the second or the third part. */
  lemma TaggedKeysDistinct(head: seq<RowKey>, ka: seq<RowKey>, kf: seq<RowKey>)
    requires |head| == 1 && head[0].SubscriberRow?
    requires forall p | 0 <= p < |ka| :: ka[p].AccessRow?
    requires forall p | 0 <= p < |kf| :: kf[p].FacilityRow? || kf[p].ForwardingRow?
    ensures Distinct(head + (ka + kf)) <==> Distinct(ka) && Distinct(kf)
  {
    DistinctConcat(ka, kf);
    DistinctConcat(head, ka + kf);
  }

  /** Within one subscriber's block, all row keys are distinct exactly when
      each sampled id list is duplicate-free: the access-info ids, the
      facility ids, and each facility's call-forwarding ids. */
  lemma BlockKeysDistinct(id: int, d: SubscriberDraws)
    requires ValidDraws(d)
    ensures Distinct(Keys(SubscriberBlock(id, d))) <==>
              Distinct(AiTypes(d.access)) && Distinct(SfTypes(d.facilities)) && AllCfIdsDistinct(d.facilities)
  {
    var sid := ToInt32(id);
    var s := d.subscriber;
    var head := [WSub(NewSubscriber(sid, s.bits, s.hexes, s.mscLocation, s.vlrLocation))];
    var aw := AccessWrites(sid, d.access);
    var fw := FacilityWrites(sid, d.facilities);
    assert SubscriberBlock(id, d) == head + (aw + fw);
    KeysConcat(head, aw + fw);
    KeysConcat(aw, fw);
    AccessKeysDistinct(sid, d.access);
    FacilityKeysDistinct(sid, d.facilities);
    FacilityKeysTyped(sid, d.facilities);
    TaggedKeysDistinct(Keys(head), Keys(aw), Keys(fw));
  }

  // ---------------------------------------------------------------- end times

  /** Every call forwarding written ends between hour 1 and hour 8. */
  predicate EndTimesWithinEight(ops: seq<WriteOp>) {
    forall p | 0 <= p < |ops| && ops[p].WCF? :: ops[p].cf.endTime.Some? && 1 <= ops[p].cf.endTime.value <= 8
  }

  lemma EndTimesConcat(a: seq<WriteOp>, b: seq<WriteOp>)
    requires EndTimesWithinEight(a) && EndTimesWithinEight(b)
    ensures EndTimesWithinEight(a + b)
  {
    forall p | |a| <= p < |a + b| ensures (a + b)[p] == b[p - |a|] {
    }
  }

  lemma {:induction false} FacilityWritesEndTimes(sid: int, fs: seq<FacilityDraw>)
    requires InInt32(sid) && ValidFacilityDraws(fs)
    ensures EndTimesWithinEight(FacilityWrites(sid, fs))
    decreases |fs|
  {
    if fs != [] {
      var n := |fs| - 1;
      var last := FacilityBlock(sid, fs[n]);
      FacilityWritesEndTimes(sid, fs[..n]);
      forall q | 1 <= q < |last| ensures last[q] == ForwardingWrite(sid, fs[n].sfid, fs[n].forwardings[q - 1]) {
      }
      EndTimesConcat(FacilityWrites(sid, fs[..n]), last);
    }
  }

  lemma BlockEndTimes(id: int, d: SubscriberDraws)
    requires ValidDraws(d)
    ensures EndTimesWithinEight(SubscriberBlock(id, d))
  {
    var sid := ToInt32(id);
    var s := d.subscriber;
    var head := [WSub(NewSubscriber(sid, s.bits, s.hexes, s.mscLocation, s.vlrLocation))];
    var aw := AccessWrites(sid, d.access);
    assert forall p | 0 <= p < |aw| :: aw[p].WAI?;
    EndTimesConcat(head, aw);
    FacilityWritesEndTimes(sid, d.facilities);
    EndTimesConcat(head + aw, FacilityWrites(sid, d.facilities));
  }

  /** `end_time` is drawn in [1, 8] whatever the start hour, so no generated
      call forwarding ends after hour 8. */
  lemma {:induction false} GeneratedEndTimes(idStart: int, ds: seq<SubscriberDraws>)
    requires AllValid(ds)
    ensures EndTimesWithinEight(Generated(idStart, ds))
    decreases |ds|
  {
    if ds != [] {
      var n := |ds| - 1;
      GeneratedEndTimes(idStart, ds[..n]);
      BlockEndTimes(idStart + n, ds[n]);
      EndTimesConcat(Generated(idStart, ds[..n]), SubscriberBlock(idStart + n, ds[n]));
    }
  }

  // ---------------------------------------------------------------- the reserve hint

  /** The reserve hint is 9n while the 32-bit products cannot wrap, and it
      wraps for larger ranges; it only sizes the vector and does not
      influence the output. */
  lemma ReserveHintWraps()
    ensures ReserveHint(1000) == 9000
    ensures ReserveHint(0x2000_0000) != 9 * 0x2000_0000
  {
  }
}
