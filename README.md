# TATP benchmark driver: transactions, retry strategy, schema and data generator

This project models the core of the TATP (Telecom Application Transaction
Processing) benchmark driver of the K2 platform:

- **Retry** (`retry.dfy`): `FixedRetryStrategy`, which re-runs an operation
  until it yields `true` or its attempt budget is spent. The retried
  operation is an oracle: the k-th call produces the k-th element of an
  outcome sequence.
- **TatpSchema** (`schema.dfy`): the cardinality constants, the four record
  types (Subscriber, AccessInfo, SpecialFacility, CallForwarding) with their
  schemas, generating constructors and key-only constructors, the status
  checks behind `writeRow`, `partialUpdateRow` and `CHECK_READ_STATUS`, and
  a partial update as the store applies it.
- **TatpTxns** (`txns.dfy`): `TATPTxn::run` and the four transactions
  GetSubscriberData, GetNewDestination, GetAccessData and
  UpdateSubscriberData. Each transaction is a class whose `Attempt` method
  takes the store's replies and returns its outcome and the calls it issued.
  Each `Attempt` is proved equal to a trace function, and the lemmas about
  those functions state what the transaction does.
- **TatpDataGen** (`datagen.dfy`) and **DataGenProperties**
  (`datagen_props.dfy`): `generateSubscriberData`, which produces the ordered
  sequence of row writes that loads an id range. The random source is
  replaced by the draws made for each subscriber. The properties cover the
  output's size, one subscriber per id in ascending order, the nesting of
  rows under their owners, the positions of the blocks, key uniqueness and
  the end-time bound.
- `common.dfy`, `decimal.dfy`, `bits.dfy`: helpers. They hold the
  Option/Result/Status types, the fixed-width integer conversions, decimal
  strings and bit arithmetic.

The integer widths of the C++ code are written out. Conversions to `int16_t`,
`int32_t`, `uint32_t` and `uint64_t` are modular (`ToInt16`, `ToInt32`,
`ToUint32`, `ToUint64`), and a 32-bit product that can wrap is wrapped
explicitly.

## Model

| member | source | states |
|---|---|---|
| Retry.Loop | src/k2/cmd/tatp/TATPTxns.h:48-58 | The `do_until` loop calls the operation at most as many times as the budget `_retries - _try` allows. `_try` grows by exactly the number of calls. Unless the loop's own future failed, it ends only when `_success` is set or the budget is spent. |
| Retry.FixedRetryStrategy.constructor | src/k2/cmd/tatp/TATPTxns.h:42-43 | A new strategy starts with `_try == 0`, `_success == false` and the given retry count. |
| Retry.FixedRetryStrategy.Run | src/k2/cmd/tatp/TATPTxns.h:48-73 | Running the loop leaves `_try`, `_success`, the number of calls and the resolution exactly as the loop specification gives them. The resolution is "Attempt failed" when the loop ended normally without success. |
| Retry.BoundedAttempts | src/k2/cmd/tatp/TATPTxns.h:51-53 | On a fresh strategy the operation runs at most max(retries, 0) times, and never when retries <= 0. |
| Retry.StopsAtFirstSuccess | src/k2/cmd/tatp/TATPTxns.h:51-58 | No call before the last one stopped the loop. The loop ends before its budget only on a success or an escaped exception. Success and loop failure are read off the last call. |
| Retry.ErrorIffNoSuccess | src/k2/cmd/tatp/TATPTxns.h:60-72 | `run` resolves with "Attempt failed" exactly when the loop did not fail and no call yielded true. |
| Retry.SecondRunMakesNoCalls | src/k2/cmd/tatp/TATPTxns.h:40-73 | `_try` and `_success` are never reset. A second `run` after a loop that did not fail makes no call and resolves as the first one did. |
| Retry.ThreeAttemptExamples | src/k2/cmd/tatp/TATPTxns.h:48-73 | With 3 retries, fail-fail-succeed makes 3 calls and resolves normally. Fail-fail-fail makes 3 calls and reports "Attempt failed". |
| TatpTxns.TxnRun | src/k2/cmd/tatp/TATPTxns.h:92-98 | An exception from `attempt()` becomes false. A value is passed on unchanged. |
| TatpTxns.BaseAttempt | src/k2/cmd/tatp/TATPTxns.h:89 | The base transaction succeeds. |
| TatpTxns.RetryOutcomes | src/k2/cmd/tatp/TATPTxns.h:92-98 | For an `attempt()` that returns a future, a retried `run()` never fails: every call is a returned value equal to `TxnRun` of that future's result. |
| TatpTxns.RetriedTxn | src/k2/cmd/tatp/TATPTxns.h:40-98 | For attempts that return a future, retrying a transaction on a fresh strategy never fails the loop. It reports "Attempt failed" exactly when none of the attempts made yielded true. |
| TatpTxns.SubscriberDataTrace | src/k2/cmd/tatp/TATPTxns.h:109-132 | GetSubscriberData succeeds iff `begin` succeeded and the read was 2xx. It ends the transaction iff it began, with commit = !abort. It reads the Subscriber under the key built by the `int16_t` constructor. |
| TatpTxns.GetSubscriberDataT.constructor | src/k2/cmd/tatp/TATPTxns.h:104-107 | The subscriber id is the draw in [1, max_s_id], and the attempt does not abort. |
| TatpTxns.GetSubscriberDataT.Attempt | src/k2/cmd/tatp/TATPTxns.h:109-132 | The attempt's outcome and calls are those of `SubscriberDataTrace`. |
| TatpTxns.NewDestinationQuery | src/k2/cmd/tatp/TATPTxns.h:189-224 | The query scans the single prefix (int32 s_id, int16 sf_type), without a limit and forwards. |
| TatpTxns.NewDestinationMatches | src/k2/cmd/tatp/TATPTxns.h:194-223 | A key is returned iff its row is under the prefix, has `start_time` <= the start parameter and has `end_time` > the end parameter (both fields present). |
| TatpTxns.NewDestinationFinds | src/k2/cmd/tatp/TATPTxns.h:224-237 | The query returns some record iff `HasForwarding` holds. `HasForwarding` is an independent statement of what GetNewDestination looks for. |
| TatpTxns.FacilityFound | src/k2/cmd/tatp/TATPTxns.h:176-187 | The special-facility branch gives true iff the read was 2xx. A 404 gives false. |
| TatpTxns.NewDestinationTrace | src/k2/cmd/tatp/TATPTxns.h:155-239 | Success iff every operation was 2xx and the query found a record. A failed `createQuery` leaves the transaction un-ended. The calls are begin, the facility read, then createQuery. |
| TatpTxns.GetNewDestinationT.constructor | src/k2/cmd/tatp/TATPTxns.h:145-153 | Draws: s_id in [1, max_s_id], sf_type in [1, 4], start time in {0, 8, 16}, end time in [1, 24]. |
| TatpTxns.GetNewDestinationT.Attempt | src/k2/cmd/tatp/TATPTxns.h:155-239 | The outcome and calls are those of `NewDestinationTrace`. The stored query and `_failed` are updated only when the query was created. The loop that counts records sets the result to count > 0. |
| TatpTxns.NewDestinationOutcome | src/k2/cmd/tatp/TATPTxns.h:155-239 | GetNewDestination succeeds iff every reply is 2xx and some forwarding row of the subscriber's facility has started by the start hour and ends after the end hour. |
| TatpTxns.NoDestinationAfterEight | src/k2/cmd/tatp/TATPTxns.h:200-223 | Over rows whose `end_time` is at most 8, an end parameter of 8 or more never succeeds. |
| TatpTxns.NewDestinationExample | src/k2/cmd/tatp/TATPTxns.h:200-237 | A row from hour 0 to hour 5 is found with end parameter 3 and not with end parameter 5. |
| TatpTxns.AccessDataTrace | src/k2/cmd/tatp/TATPTxns.h:262-297 | GetAccessData succeeds iff it began and the read was 2xx, so a 404 fails. It reads the AccessInfo under (int32 s_id, int16 ai_type) and ends with commit = !abort. |
| TatpTxns.GetAccessDataT.constructor | src/k2/cmd/tatp/TATPTxns.h:256-260 | Draws: s_id in [1, max_s_id], ai_type in [1, 4]. |
| TatpTxns.GetAccessDataT.Attempt | src/k2/cmd/tatp/TATPTxns.h:262-297 | The outcome and calls are those of `AccessDataTrace`, and `_failed` is the read's failure. |
| TatpTxns.NewBits | src/k2/cmd/tatp/TATPTxns.h:362-364 | The new `bits` lies in [0, 1024). Bit 0 is `bit1`, bits 1..9 are those of the stored value (0 when absent), and all higher bits are 0. |
| TatpTxns.NewBitsFacts | src/k2/cmd/tatp/TATPTxns.h:362-364 | Rewriting is idempotent: applying it to its own result changes nothing. An absent value becomes `bit1`. |
| TatpTxns.BitsDetermine | src/k2/cmd/tatp/TATPTxns.h:362-364 | Two values below 2^n with the same low n bits are equal. This is why the bitset rewrite is determined by the bits it keeps. |
| TatpTxns.UpdatedSubscriber | src/k2/cmd/tatp/TATPTxns.h:355-372 | The written-back row is the row that was read, with only `bits` changed and bit 0 set to `bit1`. |
| TatpTxns.UpdatedFacility | src/k2/cmd/tatp/TATPTxns.h:343-353 | The facility row written is the key-only row with only `data_a` set. |
| TatpTxns.SubscriberBranch | src/k2/cmd/tatp/TATPTxns.h:355-372 | The subscriber branch writes only after a 2xx read. It succeeds iff the read and the write were both 2xx. |
| TatpTxns.UpdateSubscriberDataTrace | src/k2/cmd/tatp/TATPTxns.h:319-372 | Success iff `begin`, the subscriber read, the subscriber write and the facility write were all 2xx, so a 404 facility write fails. It ends with commit = !abort iff it began. |
| TatpTxns.UpdateSubscriberDataWrites | src/k2/cmd/tatp/TATPTxns.h:340-372 | The only partial updates are field 2 of the subscriber (the row read, with `bits` rewritten, after a 2xx read) and field 4 of the facility (carrying `data_a`). |
| TatpTxns.PartialUpdatesTouchOneField | src/k2/cmd/tatp/TATPTxns.h:340-341 | Fields 2 and 4 are `bits` and `data_a`. Applied by the store, each write changes only that field of the stored row. |
| TatpTxns.UpdateSubscriberDataT.constructor | src/k2/cmd/tatp/TATPTxns.h:311-317 | Draws: s_id in [1, max_s_id], sf_type in [1, 4], bit in {0, 1}, data_a in [0, 255]. |
| TatpTxns.UpdateSubscriberDataT.Attempt | src/k2/cmd/tatp/TATPTxns.h:319-372 | The outcome and calls are those of `UpdateSubscriberDataTrace`, and `_failed` is set from both branches. |
| TatpSchema.WriteRow | src/k2/cmd/tatp/TATPSchema.h:62-73 | A write succeeds iff its status is 2xx, and then the result passes through unchanged. Otherwise the error is "writeRow failed!". |
| TatpSchema.PartialUpdateRow | src/k2/cmd/tatp/TATPSchema.h:75-86 | The same for partial updates, with "partialUpdateRow failed!". |
| TatpSchema.CheckReadStatus | src/k2/cmd/tatp/TATPSchema.h:44-60 | A read continues iff its status is 2xx. Otherwise the continuation fails with "failed to read rows". |
| TatpSchema.KeyOf | src/k2/cmd/tatp/TATPSchema.h:96-108 | A record's key is its values at the partition-key and then range-key field indices. |
| TatpSchema.SchemasWellFormed | src/k2/cmd/tatp/TATPSchema.h:96-233 | Every key index of the four schemas names a field, and none repeats. |
| TatpSchema.KeyLayout | src/k2/cmd/tatp/TATPSchema.h:96-233 | The keys are Subscriber (s_id), AccessInfo (s_id, ai_type), SpecialFacility (s_id, sf_type) and CallForwarding (s_id, sf_type, start_time). All four are partitioned by s_id. |
| TatpSchema.SubscriberNumber | src/k2/cmd/tatp/TATPSchema.h:112-114 | `sub_nbr` has exactly 15 digits, and its decimal value is `uint32_t(id)`. |
| TatpSchema.NewSubscriber | src/k2/cmd/tatp/TATPSchema.h:111-119 | A generated subscriber's number is the 15-digit padded id. |
| TatpSchema.NewSubscriberLayout | src/k2/cmd/tatp/TATPSchema.h:96-119 | A generated subscriber is keyed by its id, sets every field, and fits the schema's field types. |
| TatpSchema.SubscriberKey | src/k2/cmd/tatp/TATPSchema.h:121 | The key-only constructor takes an `int16_t`, sets only the key field, and its key is that id. |
| TatpSchema.NewAccessInfo | src/k2/cmd/tatp/TATPSchema.h:156-161 | data1 and data2 are in [0, 256], data3 is 3 letters and data4 is 4 letters. |
| TatpSchema.NewAccessInfoLayout | src/k2/cmd/tatp/TATPSchema.h:142-161 | Keyed by (s_id, ai_type), with every field set and typed. |
| TatpSchema.AccessInfoKey | src/k2/cmd/tatp/TATPSchema.h:163 | Only (s_id, ai_type) are set, and they form the key. |
| TatpSchema.IsActiveFlag | src/k2/cmd/tatp/TATPSchema.h:197-198 | `is_active` is 0 iff the percentage draw is at most 15, and 1 otherwise. |
| TatpSchema.NewSpecialFacility | src/k2/cmd/tatp/TATPSchema.h:196-202 | `is_active` follows the percentage draw, error_cntrl and data_a are in [0, 255], and data_b is 5 letters. |
| TatpSchema.NewSpecialFacilityLayout | src/k2/cmd/tatp/TATPSchema.h:182-202 | Keyed by (s_id, sf_type), with every field set and typed. |
| TatpSchema.SpecialFacilityKey | src/k2/cmd/tatp/TATPSchema.h:204 | Only (s_id, sf_type) are set, and they form the key. |
| TatpSchema.NewCallForwarding | src/k2/cmd/tatp/TATPSchema.h:235-239 | `end_time` is in [1, 8] whatever the start time, and numberx is 15 digits. |
| TatpSchema.NewCallForwardingLayout | src/k2/cmd/tatp/TATPSchema.h:222-239 | Keyed by (s_id, sf_type, start_time), with every field set and typed. |
| TatpSchema.CallForwardingKey | src/k2/cmd/tatp/TATPSchema.h:241 | Only (s_id, sf_type, start_time) are set, and they form the key. |
| TatpSchema.InactiveShare | src/k2/cmd/tatp/TATPSchema.h:197-198 | Exactly 15 of the 100 percentage draws make a facility inactive. |
| TatpSchema.ActiveShare | src/k2/cmd/tatp/TATPSchema.h:197-198 | The other 85 make it active. |
| TatpSchema.SubscriberNumberInjective | src/k2/cmd/tatp/TATPSchema.h:111-114 | For uint32 ids, two subscribers get the same number iff they have the same id. |
| TatpSchema.SubscriberKeyNarrowing | src/k2/cmd/tatp/TATPSchema.h:121 | Through the `int16_t` key constructor, the key's s_id is the id itself iff the id is below 32768. It equals the loaded row's s_id, `int32_t(id)`, iff the id is below 32768 or at least 2^32 - 32768, where both narrowings give the same negative value. |
| TatpSchema.ApplyPartialUpdate | src/k2/cmd/tatp/TATPSchema.h:78 | The effect of the `txn.partialUpdate(row, fieldsToUpdate)` call on the stored row: the listed fields take the request's values, and every other field keeps its stored value. |
| TatpDataGen.StartTime | src/k2/cmd/tatp/TATPDataGen.h:83-84 | Call forwarding `cfid` starts at hour 8 * (cfid - 1). |
| TatpDataGen.AccessWrites | src/k2/cmd/tatp/TATPDataGen.h:64-71 | One AccessInfo write per sampled id, in sampled order. |
| TatpDataGen.ForwardingWrites | src/k2/cmd/tatp/TATPDataGen.h:81-90 | One CallForwarding write per sampled id, in sampled order. |
| TatpDataGen.ReserveHint | src/k2/cmd/tatp/TATPDataGen.h:42-48 | The reserved capacity is at least n, and exactly 9n while the 32-bit products cannot wrap. |
| TatpDataGen.GenerateSubscriberData | src/k2/cmd/tatp/TATPDataGen.h:38-99 | The loop over [id_start, id_end) produces exactly the concatenated blocks of ids id_start, id_start + 1, and so on. |
| TatpDataGen.PushSubscriber | src/k2/cmd/tatp/TATPDataGen.h:57-94 | One iteration appends subscriber idx's block: its write, its access infos, then its facilities with their call forwardings. |
| TatpDataGen.PushAccessInfos | src/k2/cmd/tatp/TATPDataGen.h:64-71 | The access-info loop appends exactly the access writes. |
| TatpDataGen.PushFacility | src/k2/cmd/tatp/TATPDataGen.h:74-92 | The facility loop body appends the facility's write, then its call forwardings with start hours {0, 8, 16}[cfid - 1]. |
| TatpDataGen.GeneratedStep | src/k2/cmd/tatp/TATPDataGen.h:53-57 | Generating one more id appends exactly that id's block. |
| DataGenProperties.GeneratedLength | src/k2/cmd/tatp/TATPDataGen.h:53-94 | The output has one write per subscriber, per sampled access info, per sampled facility and per sampled call forwarding. |
| DataGenProperties.BlockSizeBounds | src/k2/cmd/tatp/TATPSchema.h:37-42 | When the sampled id lists have the sizes the cardinality constants name (1..4 access infos, 1..4 facilities, 0..3 call forwardings per facility), a subscriber's block has between 3 and 21 rows. |
| DataGenProperties.GeneratedSizeBounds | src/k2/cmd/tatp/TATPDataGen.h:63-90 | Under the same cardinalities, loading n subscribers writes between 3n and 21n rows. |
| DataGenProperties.BlockShape | src/k2/cmd/tatp/TATPDataGen.h:59-92 | A block starts with its Subscriber write and holds no other, and every row in it carries `int32_t(id)` as s_id. |
| DataGenProperties.OneSubscriberPerId | src/k2/cmd/tatp/TATPDataGen.h:53-62 | There is exactly one Subscriber write per id, in ascending order: the k-th is for `int32_t(id_start + k)`. |
| DataGenProperties.SubscriberIdsAscending | src/k2/cmd/tatp/TATPDataGen.h:53-62 | Read back as `uint32_t`, the k-th Subscriber write's s_id is id_start + k, for any uint32 range. |
| DataGenProperties.GeneratedWellNested | src/k2/cmd/tatp/TATPDataGen.h:59-92 | Every access info, facility and call forwarding follows its owner's rows with the owner's s_id. Every call forwarding follows its facility or a sibling, with the facility's sf_type. |
| DataGenProperties.FacilityLayout | src/k2/cmd/tatp/TATPDataGen.h:74-92 | The j-th facility's block sits right after the blocks of the facilities sampled before it. |
| DataGenProperties.BlockLayout | src/k2/cmd/tatp/TATPDataGen.h:59-92 | A block is the subscriber write (with its padded number), then one AccessInfo write per sampled id with `ai_type = int16_t(aid)`, then the facility blocks. |
| DataGenProperties.KeyOfWriteMatchesSchema | src/k2/cmd/tatp/TATPSchema.h:96-233 | The row key used for uniqueness is the record's key as its schema lays it out. |
| DataGenProperties.FacilityBlockKeys | src/k2/cmd/tatp/TATPDataGen.h:74-92 | A facility block's keys are the facility's key, then call-forwarding keys under the same sf_type. They are distinct iff the sampled call-forwarding ids are. |
| DataGenProperties.FacilityKeysDistinct | src/k2/cmd/tatp/TATPDataGen.h:73-92 | The facility rows' keys are distinct iff the sampled facility ids are distinct and so are each facility's call-forwarding ids. |
| DataGenProperties.BlockKeysDistinct | src/k2/cmd/tatp/TATPDataGen.h:59-92 | A subscriber's rows have distinct keys iff each sampled id list (access infos, facilities, call forwardings per facility) is duplicate-free. |
| DataGenProperties.GeneratedEndTimes | src/k2/cmd/tatp/TATPDataGen.h:81-90 | No generated call forwarding ends after hour 8, whatever its start hour. |
| DataGenProperties.ReserveHintWraps | src/k2/cmd/tatp/TATPDataGen.h:42-48 | The hint is 9000 for 1000 ids. For 2^29 ids the 32-bit products wrap and it is not 9n. |

## Left out

- TATPVerify.cpp is not part of this model: it holds verification stubs with no logic to model.
- The K23SI client (transactions, reads, writes, partial updates, query creation and execution) is replaced by its replies; the store-side effect of a partial update is modelled only by `TatpSchema.ApplyPartialUpdate`. A read or write whose future fails by exception is modelled as a non-2xx status. `end()` failing is not modelled.
- Query execution is modelled by `ExecuteQuery`. It covers only a single-prefix scan with a filter, and a comparison against an absent field does not match. One reply carries every matching record: paging through continuations is not modelled. Serialization and payload handling are not modelled.
- The two branches of `when_all_succeed` run one after the other (first branch, then second). Concurrency and the interleaving of futures are not modelled.
- `RandomContext` (rand.h is not part of this model): every draw is an input carrying the range its draw has. `UniqueRandomIds` is not constrained to return distinct ids or a count within its bounds. Key uniqueness is therefore stated as an iff over the sampled id lists.
- `getDate`, `setupSchemaPointers`, logging, deadlines and the `SchemaField` flags are left out: they are clocks, I/O or metadata that no operation here depends on.
- TatpSchema.ApplyPartialUpdate: the store's field-mask semantics is assumed, not taken from the source; the driver only forwards `fieldsToUpdate` to the client. The last two ensures of `TatpTxns.PartialUpdatesTouchOneField` hold under that assumption.
- TatpTxns.RetryOutcomes: `run()` attaches `handle_exception` to the future `attempt()` returns, so an exception thrown synchronously inside `attempt()` would escape `run()` and fail the retry loop (`Retry.Escaped`). The transactions here always return a future, and the model does not cover such a throw.
- Retry.FixedRetryStrategy.Run: the retried operation is an oracle, and the outcome sequence must be at least as long as the remaining budget.
- TatpDataGen.ReserveHint: the hint only sizes the vector, so it is stated as a separate function and not tied to the method's output.
- TatpDataGen.GenerateSubscriberData: requires `id_start <= id_end`. A reversed range would wrap the unsigned subtraction in the source, and the model does not cover it.
- The sampled `cfid` is required to be in 1..3, because it indexes the three-entry start-time table.
