# Cosmos DB connector shim, modelled in Dafny

This project models the Java shim between the Ballerina Cosmos DB connector and
the Azure Cosmos DB Java SDK. It covers the shim's own logic:

- **Option builders and decoders** (`Utils.java`, both the `native` and the
  `cosmos-native` copy, keyed by the strings of `Constants.java`). They turn a
  sparse host map into SDK option objects: item, query, stored-procedure and
  execute request options, direct and gateway connection configs, and the
  client builder's custom configuration. They also decode partition keys,
  consistency levels and indexing directives.
- **Response projectors** (`createDiagnosticsRecord`, `createDocumentResponse`,
  `createStoredProcedureMap`, `toBMap`). They copy SDK responses into host
  records.
- **The result cursor** (`RecordIteratorUtils.nextResult`, both copies). Each
  call consumes at most one element of an SDK iterator and returns a record, an
  error value or `null`.
- **The authorization token** (`AuthToken.generateToken`, `getServerTime`). It
  builds the master-key string to sign, the
  `type=…&ver=…&sig=…` header and the IMF-fixdate of section 7.1.1.1 of
  RFC 7231.

Layout:

| file | module | contents |
|---|---|---|
| `wrappers.dfy` | `Wrappers` | `Option`, `Result` |
| `java_lang.dfy` | `JavaLang` | 32-bit range, `Math.toIntExact`, `Long.toString`, `Integer.valueOf`, the exceptions the shim can raise |
| `values.dfy` | `HostValues` | host values (`VStr`, `VInt`, …, `VMap`) and the typed map getters |
| `sdk.dfy` | `Sdk` | SDK option records, connection configs, the client builder (a class), responses |
| `constants.dfy` | `Constants` | every key and name string |
| `decoders.dfy` | `Decoders` | partition-key, consistency-level and indexing-directive decoders |
| `cosmos_native.dfy` | `CosmosNativeUtils` | the cosmos-native decoders (assign-and-break switches) |
| `options.dfy` | `OptionBuilders` | request-option builders and `setProcedureParams` |
| `connection.dfy` | `ConnectionConfig` | connection configs, `setDirectMode`, `setCustomConfiguration` |
| `responses.dfy` | `ResponseProjectors` | response projectors and `toBMap` |
| `iterators.dfy` | `ResultIterators`, `NativeRecordIterator`, `CosmosRecordIterator` | the cursor |
| `auth_token.dfy`, `server_time.dfy` | `AuthToken`, `ServerTime` | payload, header, token, date format |

How the model is built:

- Every SDK option object is a datatype of `Setting<T>` fields. `Unset` means
  the shim never called that setter.
- A Java exception is a `Failure` of `Result`.
- Each builder is a method that applies the setters in source order. It is
  proved against an `…Accepted` predicate, which says when no getter throws,
  and an `…Spec` function, which gives every property's final value. The spec
  writes "the later key wins" explicitly with `Latest`.
- The client builder is a class that `setCustomConfiguration` updates in place.
- The cursor is a class holding the SDK iterator's elements and a position.
- The option builders of the two `Utils.java` copies are the same code, and
  are modelled once. The copies differ in the three decoders and in `toBMap`.
  Each cosmos-native decoder is a method proved equal to the native function
  on every input. The projectors `createDiagnosticsRecord`,
  `createDocumentResponse` and `createStoredProcedureMap` exist only in the
  native copy.

Behaviours of the code that a caller may not expect:

- `setDirectMode` ignores a gateway config that comes without a direct config.
  The mode is left unchanged instead of switching to gateway mode.
- An `int` partition key outside the 32-bit range makes `createPartitionKey`
  throw (`Integer.valueOf` of its decimal text). The decoder is therefore not
  total.
- The item-options builder writes `postTriggerInclude` into the pre-trigger
  list and `sessionToken` into the throughput-control group name.
  `THRESHOLD_FOR_DIAGNOSTICS` and `THROUHPUT_CONTROL` are the same key, so an
  item-options map that holds it always fails.
- The query and stored-procedure builders decode the partition key from the
  value under `indexMetricsEnabled`, not from the one under `partitionkey`.
- A document that the host decodes to `null` makes the step return the same
  `null` as an exhausted iterator, although the iterator still holds the
  remaining elements. The host's stream treats that `null` as its end, so it
  stops early; the stream itself is not part of this model.
- The response projectors substitute nothing for missing diagnostics. Null
  diagnostics, a null duration or a null region list make them throw
  NullPointerException (see "Left out").

## Model

| member | source | states |
|---|---|---|
| Decoders.CreatePartitionKey | native/src/main/java/io/ballerinax/cosmosdb/Utils.java:149-162 | a string gives a string key; an int gives an int key when it fits in 32 bits, otherwise NumberFormatException on its decimal text; a float or decimal gives a double key from its text; any other type gives a null key without failing |
| Decoders.ConsistencyLevelOf | native/src/main/java/io/ballerinax/cosmosdb/Utils.java:298-313 | a level is returned exactly when the name is one of the five names; the returned level's name is the input; any other string gives null |
| Decoders.ConsistencyLevelRoundTrip | native/src/main/java/io/ballerinax/cosmosdb/Utils.java:298-313 | each of the five levels is reached from its own name, so the five names map to five distinct levels |
| Decoders.IndexingDirectiveOf | native/src/main/java/io/ballerinax/cosmosdb/Utils.java:315-324 | a directive is returned exactly for `Include` and `Exclude`, with that name; anything else gives null |
| Decoders.IndexingDirectiveRoundTrip | native/src/main/java/io/ballerinax/cosmosdb/Utils.java:315-324 | each directive is reached from its own name |
| CosmosNativeUtils.CreatePartitionKey | cosmos-native/src/main/java/io/ballerinax/cosmosdb/Utils.java:134-150 | the assign-and-break switch gives the same key or exception as the native decoder on every value |
| CosmosNativeUtils.ConsistencyLevelOf | cosmos-native/src/main/java/io/ballerinax/cosmosdb/Utils.java:286-306 | agrees with the native consistency-level decoder on every string |
| CosmosNativeUtils.IndexingDirectiveOf | cosmos-native/src/main/java/io/ballerinax/cosmosdb/Utils.java:308-319 | agrees with the native indexing-directive decoder on every string |
| JavaLang.ToIntExact | native/src/main/java/io/ballerinax/cosmosdb/Utils.java:223-228 | the narrowing succeeds exactly for values in the signed 32-bit range, keeps the value, and otherwise fails with ArithmeticException |
| JavaLang.DecimalText | native/src/main/java/io/ballerinax/cosmosdb/Utils.java:155 | the text `toString` gives a host int (a Java `long`): a minus sign exactly for negative numbers, followed by a non-empty run of digits denoting the magnitude |
| JavaLang.ParseInt | cosmos-native/src/main/java/io/ballerinax/cosmosdb/Utils.java:141-143 | every text it rejects is rejected with NumberFormatException on that text |
| JavaLang.ParseIntOfDecimalText | cosmos-native/src/main/java/io/ballerinax/cosmosdb/Utils.java:141-143 | parsing the decimal text of any integer gives it back when it is in the 32-bit range and NumberFormatException otherwise |
| Constants.EnumerationNamesDistinct | native/src/main/java/io/ballerinax/cosmosdb/Constants.java:34-38 | the five consistency-level names are pairwise distinct, and so are `Include` and `Exclude` |
| Constants.DiagnosticsThresholdSharesGroupNameKey | native/src/main/java/io/ballerinax/cosmosdb/Constants.java:67-68 | the diagnostics-threshold key and the throughput-control key are both `throughputControlGroupName`; the query tracer key differs |
| Constants.PartitionKeyIsLowerCase | native/src/main/java/io/ballerinax/cosmosdb/Constants.java:73 | the partition-key option key is `partitionkey`, not `partitionKey` |
| OptionBuilders.SetDedicatedGatewayRequestOptions | cosmos-native/src/main/java/io/ballerinax/cosmosdb/Utils.java:321-326 | succeeds exactly when `maxIntegratedCacheStaleness` holds an int and then sets that many seconds; an absent key is a NullPointerException |
| OptionBuilders.ApplyItemHead | native/src/main/java/io/ballerinax/cosmosdb/Utils.java:168-186 | the first six item setters succeed exactly when each present key has the right type, and each present key sets its own property |
| OptionBuilders.ApplyItemTail | native/src/main/java/io/ballerinax/cosmosdb/Utils.java:187-204 | the last five item setters: both trigger keys write the pre-trigger list, and both `sessionToken` and the group-name key write the group name, the later key winning |
| OptionBuilders.CreateRequestOptions | native/src/main/java/io/ballerinax/cosmosdb/Utils.java:164-207 | a null map gives fresh options; otherwise the result succeeds exactly when the map is accepted and equals the item-options spec, in which absent keys leave their properties unset |
| OptionBuilders.ItemTriggerListsMergeIntoPre | native/src/main/java/io/ballerinax/cosmosdb/Utils.java:187-194 | the post-trigger list is never set; `preTriggerInclude` wins when present, otherwise `postTriggerInclude` fills the pre-trigger list |
| OptionBuilders.ItemGroupNameOnlyFromSessionToken | cosmos-native/src/main/java/io/ballerinax/cosmosdb/Utils.java:183-192 | a map holding `throughputControlGroupName` always fails; on success the group name is the `sessionToken` value, and neither the session token nor the diagnostics threshold is ever set |
| OptionBuilders.ApplyQueryHead | native/src/main/java/io/ballerinax/cosmosdb/Utils.java:213-231 | the first six query setters: the two counts are narrowed to 32 bits, and `partitionkey` decodes the `indexMetricsEnabled` value |
| OptionBuilders.ApplyQueryTail | native/src/main/java/io/ballerinax/cosmosdb/Utils.java:232-250 | the last six query setters each write their own property; `limitInKb` is narrowed to 32 bits |
| OptionBuilders.SetQueryOptions | native/src/main/java/io/ballerinax/cosmosdb/Utils.java:209-253 | a null map gives fresh options; otherwise the result succeeds exactly when the map is accepted and equals the query-options spec |
| OptionBuilders.QueryIntegerFieldsNarrowed | native/src/main/java/io/ballerinax/cosmosdb/Utils.java:223-236 | each of the three integer fields makes the builder fail when out of the 32-bit range, and is stored unchanged otherwise |
| OptionBuilders.QuerySessionTokenAndPartitionKey | cosmos-native/src/main/java/io/ballerinax/cosmosdb/Utils.java:217-231 | the query builder routes `sessionToken` to the session token; a present `partitionkey` always yields a null partition key, because the value it decodes is the boolean or absent `indexMetricsEnabled` |
| OptionBuilders.ApplyStoredProcedureOptions | native/src/main/java/io/ballerinax/cosmosdb/Utils.java:339-359 | succeeds exactly when the map is accepted; each present key overwrites its property, the partition key coming from `indexMetricsEnabled`, and every other property keeps its earlier value |
| OptionBuilders.SetStoredProcedureRequestOptions | native/src/main/java/io/ballerinax/cosmosdb/Utils.java:333-337 | a null map gives fresh options; otherwise the map is applied to fresh options |
| OptionBuilders.SetExecuteStoredProcedureRequestOptions | native/src/main/java/io/ballerinax/cosmosdb/Utils.java:361-372 | succeeds exactly when the argument decodes and the nested options are null or an accepted map; the result is the argument's key with the nested options layered on top |
| OptionBuilders.ExecuteNestedPartitionKeyOverrides | native/src/main/java/io/ballerinax/cosmosdb/Utils.java:349-372 | the final partition key is the nested one when the nested map has `partitionkey`, and the argument's otherwise |
| OptionBuilders.ProcedureOptionsIdempotent | native/src/main/java/io/ballerinax/cosmosdb/Utils.java:339-359 | applying the same stored-procedure map twice equals applying it once |
| OptionBuilders.SetProcedureParams | native/src/main/java/io/ballerinax/cosmosdb/Utils.java:374-383 | null for a null map or a missing `parameters` key; when `parameters` holds an array, exactly that array's strings in their original order; failure exactly when the value is not an array |
| ConnectionConfig.SetDirectConnectionConfig | cosmos-native/src/main/java/io/ballerinax/cosmosdb/Utils.java:243-271 | succeeds exactly when every present key has the right type and both counts fit in 32 bits; the three timeouts are seconds, and absent keys stay unset |
| ConnectionConfig.SetGatewayConnectionConfig | cosmos-native/src/main/java/io/ballerinax/cosmosdb/Utils.java:273-283 | sets at most the pool size (narrowed to 32 bits) and the idle timeout (seconds), each only when its key is present |
| ConnectionConfig.SetDirectMode | native/src/main/java/io/ballerinax/cosmosdb/Utils.java:135-147 | both configs give direct mode with the gateway config, the direct config alone gives direct mode, and otherwise the mode is unchanged; no other setting changes, and a failure changes nothing |
| ConnectionConfig.LoneGatewayConfigIgnored | native/src/main/java/io/ballerinax/cosmosdb/Utils.java:135-147 | without a direct config the map is accepted and the connection mode is left as it was, whatever the gateway config holds |
| ConnectionConfig.ApplyClientOptions | native/src/main/java/io/ballerinax/cosmosdb/Utils.java:117-131 | the last four client setters each overwrite their own setting when the key is present and leave the other settings alone |
| ConnectionConfig.SetCustomConfiguration | native/src/main/java/io/ballerinax/cosmosdb/Utils.java:107-133 | a null configuration leaves the builder untouched; otherwise success exactly when the map is accepted, after which the builder holds the old settings overridden key by key |
| ConnectionConfig.ConfiguredIdempotent | native/src/main/java/io/ballerinax/cosmosdb/Utils.java:107-133 | applying the same custom configuration twice leaves the same settings as applying it once |
| ResponseProjectors.ToBMap | cosmos-native/src/main/java/io/ballerinax/cosmosdb/Utils.java:386-397 | a null map gives an empty map; otherwise exactly the input's keys, each with its value's string form |
| ResponseProjectors.CreateDiagnosticsRecord | native/src/main/java/io/ballerinax/cosmosdb/Utils.java:403-416 | the region list is copied with its order and length kept, and the duration is carried over |
| ResponseProjectors.CreateDocumentResponse | native/src/main/java/io/ballerinax/cosmosdb/Utils.java:418-434 | each of the eleven fields equals the item response's field; the headers pass through `toBMap` |
| ResponseProjectors.CreateStoredProcedureMap | native/src/main/java/io/ballerinax/cosmosdb/Utils.java:436-447 | each of the six fields equals the stored-procedure response's field |
| ResultIterators.ProcedureRecord | native/src/main/java/io/ballerinax/cosmosdb/RecordIteratorUtils.java:51-56 | the stored-procedure record has exactly the keys `storedProcedure`, `id` and `eTag` |
| ResultIterators.ProcedureRecordRoundTrip | native/src/main/java/io/ballerinax/cosmosdb/RecordIteratorUtils.java:51-56 | body, id and etag can be read back out of the record unchanged |
| ResultIterators.NextResult | native/src/main/java/io/ballerinax/cosmosdb/RecordIteratorUtils.java:44-74 | an exhausted iterator gives null and is not changed; otherwise exactly one element is consumed, even when decoding it fails, and the result is that element's outcome |
| ResultIterators.Drain | native/src/main/java/io/ballerinax/cosmosdb/RecordIteratorUtils.java:44-74 | when no document decodes to null, repeated steps yield one result per remaining element, in order, and then null |
| ResultIterators.NilDocumentLooksExhausted | native/src/main/java/io/ballerinax/cosmosdb/RecordIteratorUtils.java:63-67 | a document that decodes to null gives the same step result as an exhausted iterator |
| NativeRecordIterator.NativeDecode | native/src/main/java/io/ballerinax/cosmosdb/RecordIteratorUtils.java:59-72 | a serialisation or conversion exception becomes a database error; otherwise the host's typed conversion result is returned as it is |
| NativeRecordIterator.NextResult | native/src/main/java/io/ballerinax/cosmosdb/RecordIteratorUtils.java:44-74 | the native step: one element consumed per non-null call, documents decoded by serialisation and typed conversion |
| CosmosRecordIterator.CosmosDecode | cosmos-native/src/main/java/io/ballerinax/cosmosdb/RecordIteratorUtils.java:59-68 | a serialisation or parse exception becomes a database error; otherwise the untyped parse result is returned, a parsed JSON null being null |
| CosmosRecordIterator.NextResult | cosmos-native/src/main/java/io/ballerinax/cosmosdb/RecordIteratorUtils.java:44-70 | the cosmos-native step: one element consumed per non-null call, documents decoded by serialisation and untyped parsing |
| AuthToken.LowerCase | cosmosdb-authtoken-native/src/main/java/org/ballerinalang/cosmosdb/AuthToken.java:19-22 | same length as the input, each character lower-cased |
| AuthToken.Payload | cosmosdb-authtoken-native/src/main/java/org/ballerinalang/cosmosdb/AuthToken.java:19-23 | the string to sign is the four fields' lengths plus five newlines long, a newline follows the verb, the resource id sits unchanged after the first two fields, and it ends with the empty field's two newlines |
| AuthToken.PayloadFields | cosmosdb-authtoken-native/src/main/java/org/ballerinalang/cosmosdb/AuthToken.java:19-23 | the payload splits on newlines into the lower-cased verb, the lower-cased resource type, the resource id unchanged, the lower-cased date and an empty field |
| AuthToken.Header | cosmosdb-authtoken-native/src/main/java/org/ballerinalang/cosmosdb/AuthToken.java:30 | the header starts with `type=` and the key type, ends with the signature, and is the three values plus fifteen fixed characters long |
| AuthToken.HeaderRoundTrip | cosmosdb-authtoken-native/src/main/java/org/ballerinalang/cosmosdb/AuthToken.java:30 | the header text parses back into key type, token version and signature when none holds an `&` |
| AuthToken.GenerateToken | cosmosdb-authtoken-native/src/main/java/org/ballerinalang/cosmosdb/AuthToken.java:15-45 | the signature is taken over the payload of the formatted date; a caught exception from signing or encoding gives null, and otherwise the result is the encoded header |
| AuthToken.SignedPayloadFields | cosmosdb-authtoken-native/src/main/java/org/ballerinalang/cosmosdb/AuthToken.java:18-23 | the text that gets signed holds the five fields, the date being the lower-cased server time |
| ServerTime.GetServerTime | cosmosdb-authtoken-native/src/main/java/org/ballerinalang/cosmosdb/AuthToken.java:47-52 | for four-digit years the date is 29 characters long, and it never holds a newline |
| ServerTime.FixdateLayout | cosmosdb-authtoken-native/src/main/java/org/ballerinalang/cosmosdb/AuthToken.java:49 | in the `EEE, dd MMM yyyy HH:mm:ss z` text each field sits at its fixed offset: name at 0, day at 5, month at 8, year at 12, hours, minutes and seconds at 17, 20 and 23, and ` GMT` at 25 |
| ServerTime.ServerTimeRoundTrip | cosmosdb-authtoken-native/src/main/java/org/ballerinalang/cosmosdb/AuthToken.java:47-52 | the `EEE, dd MMM yyyy HH:mm:ss GMT` text parses back to the same instant for four-digit years |

## Left out

- Typed getters: the host runtime is not part of this model. A getter is
  assumed to return the value when the type matches. Another type is assumed to
  throw ClassCastException, and an absent or nil value NullPointerException.
- Arrays are arrays of strings. `getStringArray` on an array of another element
  type is not modelled.
- SDK defaults: the real default values of the SDK option objects are not
  modelled. A property no setter touched is `Unset`.
- Float partition keys keep their text. `Double.valueOf` is not modelled, and
  neither is the floating-point request charge beyond being copied.
- Durations keep their whole seconds. `Duration.toMillis` is taken as already
  applied to the diagnostics and response durations.
- OptionBuilders.CreateRequestOptions: states whether the builder fails, but
  not which exception it reports when several keys are mistyped.
- OptionBuilders.SetQueryOptions: states whether the builder fails, but not
  which exception it reports when several keys are mistyped.
- OptionBuilders.SetExecuteStoredProcedureRequestOptions: states whether the
  builder fails, but not which exception it reports. The map cast of the nested
  value is done before the call rather than inside the private overload.
- ConnectionConfig.SetCustomConfiguration: says nothing about the builder after
  a failure. The settings applied before the failing key stay applied in the
  source, and that partial state is not modelled.
- ResultIterators.Drain: assumes no document decodes to null. For such a
  document the step returns the exhaustion value, as `NilDocumentLooksExhausted`
  states, and the host's stream stops there.
- `toBMap` is modelled on string-valued maps, which is what the response
  headers are. The Jackson conversion of arbitrary objects and their
  `toString` forms are not modelled.
- The record type name that `createRecordValue` attaches to a host record is
  not kept in the modelled value.
- Jackson serialisation, `fromJsonStringWithType` and `JsonParser.parse` are
  function parameters that may fail. The SDK iterator's paging, and any
  exception from `hasNext`/`next`, are not modelled.
- An element whose kind does not match the target type is excluded by the
  cursor invariant. In the source it would fail an unchecked cast.
- The database error that `BallerinaErrorGenerator` builds is the single
  constructor `DatabaseError(cause)`. `ModuleUtils` is not part of this model.
- HMAC-SHA256, Base64 and `URLEncoder` are function parameters. A malformed
  Base64 key, and a key that decodes to no bytes at all (rejected by
  `new SecretKeySpec`), raise an IllegalArgumentException that the source does
  not catch. Neither case is modelled.
- Null SDK response parts: the response records always carry diagnostics, a
  duration and a region list. The source dereferences each one without a check,
  so a null one throws NullPointerException. That case is not modelled.
- AuthToken.LowerCase: lower-cases ASCII letters only, not the default
  locale's full Unicode case mapping.
- ServerTime.GetServerTime: the clock and the calendar arithmetic are not
  modelled. The instant arrives already broken into fields, weekday included,
  and the round trip is stated only for years 0 to 9999.
- `DataplaneClient.java`: every operation is an SDK network call and is not
  part of this model. This includes `initClient`, which defaults a missing
  `baseUrl` or token to an empty string.
