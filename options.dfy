/** The request-option builders of Utils.java (`createRequestOptions`,
    `setQueryOptions`, the stored-procedure option builders, `setProcedureParams`).
    Each builder starts from a fresh SDK options object and calls one setter per
    key present in the sparse map, in source order, so a later setter of the same
    property overwrites an earlier one. A getter that meets a value of the wrong
    type, or a narrowing that overflows, throws and the builder returns nothing.

    Each builder is a method proved against two declarative definitions: an
    `...Accepted` predicate (when no setter throws) and an `...Spec` function (the
    final value of every property, with the last writer stated explicitly). */
module OptionBuilders {
  import opened Wrappers
  import opened JavaLang
  import opened HostValues
  import opened Sdk
  import opened Decoders
  import C = Constants

  /** The value of a property written first from `earlier` and then from `later`. */
  function Latest<T>(later: Setting<T>, earlier: Setting<T>): Setting<T> {
    if later.SetTo? then later else earlier
  }

  function StringSetting(m: Config, k: string): Setting<string>
    requires StringOrAbsent(m, k)
  {
    if k in m then SetTo(m[k].s) else Unset
  }

  function BoolSetting(m: Config, k: string): Setting<bool>
    requires BoolOrAbsent(m, k)
  {
    if k in m then SetTo(m[k].b) else Unset
  }

  function StringsSetting(m: Config, k: string): Setting<seq<string>>
    requires StringsOrAbsent(m, k)
  {
    if k in m then SetTo(m[k].strings) else Unset
  }

  function Int32Setting(m: Config, k: string): Setting<Int32>
    requires Int32OrAbsent(m, k)
  {
    if k in m then SetTo(m[k].i as Int32) else Unset
  }

  function SecondsSetting(m: Config, k: string): Setting<Duration>
    requires IntOrAbsent(m, k)
  {
    if k in m then SetTo(OfSeconds(m[k].i)) else Unset
  }

  function ConsistencySetting(m: Config): Setting<Option<ConsistencyLevel>>
    requires StringOrAbsent(m, C.ConsistencyLevel)
  {
    if C.ConsistencyLevel in m then SetTo(ConsistencyLevelOf(m[C.ConsistencyLevel].s)) else Unset
  }

  // ---------------------------------------------------------------------------
  // Dedicated-gateway options

  /** The staleness key is read without a presence check, so it must be there. */
  predicate DedicatedGatewayAccepted(m: Config) {
    C.MaxIntegratedCacheStaleness in m && m[C.MaxIntegratedCacheStaleness].VInt?
  }

  predicate DedicatedGatewayOrAbsent(m: Config, k: string) {
    k in m ==> m[k].VMap? && DedicatedGatewayAccepted(m[k].fields)
  }

  function DedicatedGatewaySpec(m: Config): DedicatedGatewayRequestOptions
    requires DedicatedGatewayAccepted(m)
  {
    DedicatedGatewayRequestOptions(SetTo(OfSeconds(m[C.MaxIntegratedCacheStaleness].i)))
  }

  /** `setDedicatedGatewayRequestOptions`: always reads `maxIntegratedCacheStaleness`
      as seconds; an absent key is a NullPointerException. */
  method SetDedicatedGatewayRequestOptions(m: Config) returns (r: Result<DedicatedGatewayRequestOptions, Exception>)
    ensures r.Success? <==> DedicatedGatewayAccepted(m)
    ensures r.Success? ==> r.value == DedicatedGatewaySpec(m)
    ensures C.MaxIntegratedCacheStaleness !in m ==> r == Failure(NullPointer(C.MaxIntegratedCacheStaleness))
  {
    var options := NewDedicatedGatewayRequestOptions;
    var staleness :- GetInt(m, C.MaxIntegratedCacheStaleness);
    options := options.(maxIntegratedCacheStaleness := SetTo(OfSeconds(staleness)));
    return Success(options);
  }

  /** `getMapValue(k)` followed by the dedicated-gateway builder. */
  method DedicatedGatewayAt(m: Config, k: string) returns (r: Result<DedicatedGatewayRequestOptions, Exception>)
    requires k in m
    ensures r.Success? <==> DedicatedGatewayOrAbsent(m, k)
    ensures r.Success? ==> r.value == DedicatedGatewaySpec(m[k].fields)
  {
    var nested :- GetMap(m, k);
    r := SetDedicatedGatewayRequestOptions(nested);
  }

  // ---------------------------------------------------------------------------
  // Item options

  /** The keys `createRequestOptions` handles first: consistency level through
      `ifNoneMatchETag`. */
  predicate ItemHeadAccepted(m: Config) {
    && StringOrAbsent(m, C.ConsistencyLevel)
    && StringOrAbsent(m, C.IndexingDirective)
    && BoolOrAbsent(m, C.ContentResponseOnWriteEnabled)
    && DedicatedGatewayOrAbsent(m, C.DedicatedGatewayRequestOptions)
    && StringOrAbsent(m, C.IfMatchETag)
    && StringOrAbsent(m, C.IfNoneMatchETag)
  }

  /** The keys it handles last: the trigger lists, the session token, the
      diagnostics threshold and the throughput-control group name. */
  predicate ItemTailAccepted(m: Config) {
    && StringsOrAbsent(m, C.PostTriggerInclude)
    && StringsOrAbsent(m, C.PreTriggerInclude)
    && StringOrAbsent(m, C.SessionToken)
    && IntOrAbsent(m, C.ThresholdForDiagnostics)
    && StringOrAbsent(m, C.ThroughputControl)
  }

  predicate ItemOptionsAccepted(m: Config) {
    ItemHeadAccepted(m) && ItemTailAccepted(m)
  }

  function ItemHeadSpec(m: Config): ItemRequestOptions
    requires ItemHeadAccepted(m)
  {
    NewItemRequestOptions.(
      consistencyLevel := ConsistencySetting(m),
      indexingDirective :=
        if C.IndexingDirective in m then SetTo(IndexingDirectiveOf(m[C.IndexingDirective].s)) else Unset,
      contentResponseOnWriteEnabled := BoolSetting(m, C.ContentResponseOnWriteEnabled),
      dedicatedGatewayRequestOptions :=
        if C.DedicatedGatewayRequestOptions in m
        then SetTo(DedicatedGatewaySpec(m[C.DedicatedGatewayRequestOptions].fields))
        else Unset,
      ifMatchETag := StringSetting(m, C.IfMatchETag),
      ifNoneMatchETag := StringSetting(m, C.IfNoneMatchETag))
  }

  /** `options` after the last five setters. Both trigger keys write the
      pre-trigger list (the later key, `preTriggerInclude`, wins); `sessionToken`
      and `throughputControlGroupName` both write the throughput-control group
      name; nothing writes the post-trigger list or the session token. */
  function ItemTailSpec(options: ItemRequestOptions, m: Config): ItemRequestOptions
    requires ItemTailAccepted(m)
  {
    options.(
      preTriggerInclude :=
        Latest(StringsSetting(m, C.PreTriggerInclude), Latest(StringsSetting(m, C.PostTriggerInclude), options.preTriggerInclude)),
      throughputControlGroupName :=
        Latest(StringSetting(m, C.ThroughputControl), Latest(StringSetting(m, C.SessionToken), options.throughputControlGroupName)),
      thresholdForDiagnosticsOnTracer :=
        Latest(SecondsSetting(m, C.ThresholdForDiagnostics), options.thresholdForDiagnosticsOnTracer))
  }

  /** The item options a map produces. */
  function ItemOptionsSpec(m: Config): ItemRequestOptions
    requires ItemOptionsAccepted(m)
  {
    ItemTailSpec(ItemHeadSpec(m), m)
  }

  /** The first six setters of `createRequestOptions`, applied to fresh options. */
  method ApplyItemHead(m: Config) returns (r: Result<ItemRequestOptions, Exception>)
    ensures r.Success? <==> ItemHeadAccepted(m)
    ensures r.Success? ==> r.value == ItemHeadSpec(m)
  {
    var options := NewItemRequestOptions;
    if C.ConsistencyLevel in m {
      var level :- GetString(m, C.ConsistencyLevel);
      options := options.(consistencyLevel := SetTo(ConsistencyLevelOf(level)));
    }
    if C.IndexingDirective in m {
      var directive :- GetString(m, C.IndexingDirective);
      options := options.(indexingDirective := SetTo(IndexingDirectiveOf(directive)));
    }
    if C.ContentResponseOnWriteEnabled in m {
      var enabled :- GetBoolean(m, C.ContentResponseOnWriteEnabled);
      options := options.(contentResponseOnWriteEnabled := SetTo(enabled));
    }
    if C.DedicatedGatewayRequestOptions in m {
      var gateway :- DedicatedGatewayAt(m, C.DedicatedGatewayRequestOptions);
      options := options.(dedicatedGatewayRequestOptions := SetTo(gateway));
    }
    if C.IfMatchETag in m {
      var etag :- GetString(m, C.IfMatchETag);
      options := options.(ifMatchETag := SetTo(etag));
    }
    if C.IfNoneMatchETag in m {
      var etag :- GetString(m, C.IfNoneMatchETag);
      options := options.(ifNoneMatchETag := SetTo(etag));
    }
    return Success(options);
  }

  /** The last five setters of `createRequestOptions`. */
  method ApplyItemTail(options: ItemRequestOptions, m: Config) returns (r: Result<ItemRequestOptions, Exception>)
    ensures r.Success? <==> ItemTailAccepted(m)
    ensures r.Success? ==> r.value == ItemTailSpec(options, m)
  {
    var updated := options;
    if C.PostTriggerInclude in m {
      var triggers :- GetStringArray(m, C.PostTriggerInclude);
      updated := updated.(preTriggerInclude := SetTo(triggers));
    }
    if C.PreTriggerInclude in m {
      var triggers :- GetStringArray(m, C.PreTriggerInclude);
      updated := updated.(preTriggerInclude := SetTo(triggers));
    }
    if C.SessionToken in m {
      var token :- GetString(m, C.SessionToken);
      updated := updated.(throughputControlGroupName := SetTo(token));
    }
    if C.ThresholdForDiagnostics in m {
      var seconds :- GetInt(m, C.ThresholdForDiagnostics);
      updated := updated.(thresholdForDiagnosticsOnTracer := SetTo(OfSeconds(seconds)));
    }
    if C.ThroughputControl in m {
      // Same key as the threshold above, so once `GetInt` has succeeded this
      // getter always fails.
      match GetString(m, C.ThroughputControl)
      case Failure(e) => return Failure(e);
      case Success(group) => updated := updated.(throughputControlGroupName := SetTo(group));
    }
    return Success(updated);
  }

  /** `createRequestOptions`: fresh options for a null map, otherwise every
      present key applied in source order. */
  method CreateRequestOptions(requestOptions: Option<Config>) returns (r: Result<ItemRequestOptions, Exception>)
    ensures requestOptions.None? ==> r == Success(NewItemRequestOptions)
    ensures requestOptions.Some? ==> (r.Success? <==> ItemOptionsAccepted(requestOptions.value))
    ensures requestOptions.Some? && r.Success? ==> r.value == ItemOptionsSpec(requestOptions.value)
  {
    if requestOptions.None? {
      return Success(NewItemRequestOptions);
    }
    var m := requestOptions.value;
    var options :- ApplyItemHead(m);
    r := ApplyItemTail(options, m);
  }

  /** With both trigger keys present the `preTriggerInclude` list wins, with only
      `postTriggerInclude` its list still lands in the pre-trigger property, and
      the post-trigger property is never set. */
  lemma ItemTriggerListsMergeIntoPre(m: Config)
    requires ItemOptionsAccepted(m)
    ensures ItemOptionsSpec(m).postTriggerInclude == Unset
    ensures C.PreTriggerInclude in m ==> ItemOptionsSpec(m).preTriggerInclude == SetTo(m[C.PreTriggerInclude].strings)
    ensures C.PreTriggerInclude !in m && C.PostTriggerInclude in m ==>
      ItemOptionsSpec(m).preTriggerInclude == SetTo(m[C.PostTriggerInclude].strings)
    ensures C.PreTriggerInclude !in m && C.PostTriggerInclude !in m ==> ItemOptionsSpec(m).preTriggerInclude == Unset
  {
  }

  /** Because the diagnostics-threshold key and the group-name key are the same
      string, a map holding that key needs its value to be both an int and a
      string: the item builder always throws on it. So the group name can only
      come from `sessionToken`, the session token is never set, and neither is
      the diagnostics threshold. */
  lemma ItemGroupNameOnlyFromSessionToken(m: Config)
    ensures C.ThroughputControl in m ==> !ItemOptionsAccepted(m)
    ensures ItemOptionsAccepted(m) ==>
      && ItemOptionsSpec(m).throughputControlGroupName == StringSetting(m, C.SessionToken)
      && ItemOptionsSpec(m).sessionToken == Unset
      && ItemOptionsSpec(m).thresholdForDiagnosticsOnTracer == Unset
  {
  }

  // ---------------------------------------------------------------------------
  // Query options

  /** The keys `setQueryOptions` handles first: consistency level through the
      partition key. */
  predicate QueryHeadAccepted(m: Config) {
    && StringOrAbsent(m, C.ConsistencyLevel)
    && DedicatedGatewayOrAbsent(m, C.DedicatedGatewayRequestOptions)
    && BoolOrAbsent(m, C.IndexMetricsEnabled)
    && Int32OrAbsent(m, C.MaxBufferedItemCount)
    && Int32OrAbsent(m, C.MaxDegreeParallelism)
    && (C.PartitionKey in m ==> CreatePartitionKey(GetObject(m, C.IndexMetricsEnabled)).Success?)
  }

  /** The keys it handles last: query metrics through the throughput-control
      group name. */
  predicate QueryTailAccepted(m: Config) {
    && BoolOrAbsent(m, C.QueryMetricsEnabled)
    && Int32OrAbsent(m, C.LimitKb)
    && BoolOrAbsent(m, C.ScanQueryEnabled)
    && StringOrAbsent(m, C.SessionToken)
    && IntOrAbsent(m, C.ThresholdDiagnosisTracer)
    && StringOrAbsent(m, C.ThroughputControl)
  }

  predicate QueryOptionsAccepted(m: Config) {
    QueryHeadAccepted(m) && QueryTailAccepted(m)
  }

  /** The first six properties. The partition key is decoded from the value
      stored under `indexMetricsEnabled`, not from `partitionkey`. */
  function QueryHeadSpec(m: Config): QueryRequestOptions
    requires QueryHeadAccepted(m)
  {
    NewQueryRequestOptions.(
      consistencyLevel := ConsistencySetting(m),
      dedicatedGatewayRequestOptions :=
        if C.DedicatedGatewayRequestOptions in m
        then SetTo(DedicatedGatewaySpec(m[C.DedicatedGatewayRequestOptions].fields))
        else Unset,
      indexMetricsEnabled := BoolSetting(m, C.IndexMetricsEnabled),
      maxBufferedItemCount := Int32Setting(m, C.MaxBufferedItemCount),
      maxDegreeOfParallelism := Int32Setting(m, C.MaxDegreeParallelism),
      partitionKey :=
        if C.PartitionKey in m then SetTo(CreatePartitionKey(GetObject(m, C.IndexMetricsEnabled)).value) else Unset)
  }

  /** `options` after the last six setters, each key to its own property. */
  function QueryTailSpec(options: QueryRequestOptions, m: Config): QueryRequestOptions
    requires QueryTailAccepted(m)
  {
    options.(
      queryMetricsEnabled := Latest(BoolSetting(m, C.QueryMetricsEnabled), options.queryMetricsEnabled),
      responseContinuationTokenLimitInKb := Latest(Int32Setting(m, C.LimitKb), options.responseContinuationTokenLimitInKb),
      scanInQueryEnabled := Latest(BoolSetting(m, C.ScanQueryEnabled), options.scanInQueryEnabled),
      sessionToken := Latest(StringSetting(m, C.SessionToken), options.sessionToken),
      thresholdForDiagnosticsOnTracer :=
        Latest(SecondsSetting(m, C.ThresholdDiagnosisTracer), options.thresholdForDiagnosticsOnTracer),
      throughputControlGroupName := Latest(StringSetting(m, C.ThroughputControl), options.throughputControlGroupName))
  }

  /** The query options a map produces. */
  function QueryOptionsSpec(m: Config): QueryRequestOptions
    requires QueryOptionsAccepted(m)
  {
    QueryTailSpec(QueryHeadSpec(m), m)
  }

  /** `getIntValue(k)` narrowed by `Math.toIntExact`. */
  function GetInt32(m: Config, k: string): (r: Result<Int32, Exception>)
    ensures r.Success? <==> k in m && m[k].VInt? && InIntRange(m[k].i)
    ensures r.Success? ==> r.value == m[k].i
  {
    match GetInt(m, k)
    case Success(n) => ToIntExact(n)
    case Failure(e) => Failure(e)
  }

  /** The first six setters of `setQueryOptions`, applied to fresh options. */
  method ApplyQueryHead(m: Config) returns (r: Result<QueryRequestOptions, Exception>)
    ensures r.Success? <==> QueryHeadAccepted(m)
    ensures r.Success? ==> r.value == QueryHeadSpec(m)
  {
    var options := NewQueryRequestOptions;
    if C.ConsistencyLevel in m {
      var level :- GetString(m, C.ConsistencyLevel);
      options := options.(consistencyLevel := SetTo(ConsistencyLevelOf(level)));
    }
    if C.DedicatedGatewayRequestOptions in m {
      var gateway :- DedicatedGatewayAt(m, C.DedicatedGatewayRequestOptions);
      options := options.(dedicatedGatewayRequestOptions := SetTo(gateway));
    }
    if C.IndexMetricsEnabled in m {
      var enabled :- GetBoolean(m, C.IndexMetricsEnabled);
      options := options.(indexMetricsEnabled := SetTo(enabled));
    }
    if C.MaxBufferedItemCount in m {
      var count :- GetInt32(m, C.MaxBufferedItemCount);
      options := options.(maxBufferedItemCount := SetTo(count));
    }
    if C.MaxDegreeParallelism in m {
      var degree :- GetInt32(m, C.MaxDegreeParallelism);
      options := options.(maxDegreeOfParallelism := SetTo(degree));
    }
    if C.PartitionKey in m {
      var key :- CreatePartitionKey(GetObject(m, C.IndexMetricsEnabled));
      options := options.(partitionKey := SetTo(key));
    }
    return Success(options);
  }

  /** The last six setters of `setQueryOptions`. */
  method ApplyQueryTail(options: QueryRequestOptions, m: Config) returns (r: Result<QueryRequestOptions, Exception>)
    ensures r.Success? <==> QueryTailAccepted(m)
    ensures r.Success? ==> r.value == QueryTailSpec(options, m)
  {
    var updated := options;
    if C.QueryMetricsEnabled in m {
      var enabled :- GetBoolean(m, C.QueryMetricsEnabled);
      updated := updated.(queryMetricsEnabled := SetTo(enabled));
    }
    if C.LimitKb in m {
      var limit :- GetInt32(m, C.LimitKb);
      updated := updated.(responseContinuationTokenLimitInKb := SetTo(limit));
    }
    if C.ScanQueryEnabled in m {
      var enabled :- GetBoolean(m, C.ScanQueryEnabled);
      updated := updated.(scanInQueryEnabled := SetTo(enabled));
    }
    if C.SessionToken in m {
      var token :- GetString(m, C.SessionToken);
      updated := updated.(sessionToken := SetTo(token));
    }
    if C.ThresholdDiagnosisTracer in m {
      var seconds :- GetInt(m, C.ThresholdDiagnosisTracer);
      updated := updated.(thresholdForDiagnosticsOnTracer := SetTo(OfSeconds(seconds)));
    }
    if C.ThroughputControl in m {
      var group :- GetString(m, C.ThroughputControl);
      updated := updated.(throughputControlGroupName := SetTo(group));
    }
    return Success(updated);
  }

  /** `setQueryOptions`: fresh options for a null map, otherwise every present
      key applied in source order. */
  method SetQueryOptions(requestOptions: Option<Config>) returns (r: Result<QueryRequestOptions, Exception>)
    ensures requestOptions.None? ==> r == Success(NewQueryRequestOptions)
    ensures requestOptions.Some? ==> (r.Success? <==> QueryOptionsAccepted(requestOptions.value))
    ensures requestOptions.Some? && r.Success? ==> r.value == QueryOptionsSpec(requestOptions.value)
  {
    if requestOptions.None? {
      return Success(NewQueryRequestOptions);
    }
    var m := requestOptions.value;
    var options :- ApplyQueryHead(m);
    r := ApplyQueryTail(options, m);
  }

  /** The three integer fields are narrowed to 32 bits: a value outside the
      signed 32-bit range makes the builder throw, one inside it is stored
      unchanged. */
  lemma QueryIntegerFieldsNarrowed(m: Config, k: string)
    requires k in {C.MaxBufferedItemCount, C.MaxDegreeParallelism, C.LimitKb}
    requires k in m && m[k].VInt?
    ensures !InIntRange(m[k].i) ==> !QueryOptionsAccepted(m)
    ensures QueryOptionsAccepted(m) && k == C.MaxBufferedItemCount ==>
      QueryOptionsSpec(m).maxBufferedItemCount == SetTo(m[k].i as Int32)
    ensures QueryOptionsAccepted(m) && k == C.MaxDegreeParallelism ==>
      QueryOptionsSpec(m).maxDegreeOfParallelism == SetTo(m[k].i as Int32)
    ensures QueryOptionsAccepted(m) && k == C.LimitKb ==>
      QueryOptionsSpec(m).responseContinuationTokenLimitInKb == SetTo(m[k].i as Int32)
  {
  }

  /** The query builder sends `sessionToken` to the session token (unlike the
      item builder), and a `partitionkey` key always yields a null partition key:
      the value it decodes is the one under `indexMetricsEnabled`, which the
      builder has already required to be absent or a boolean. */
  lemma QuerySessionTokenAndPartitionKey(m: Config)
    requires QueryOptionsAccepted(m)
    ensures QueryOptionsSpec(m).sessionToken == StringSetting(m, C.SessionToken)
    ensures C.PartitionKey in m ==> QueryOptionsSpec(m).partitionKey == SetTo(None)
    ensures C.PartitionKey !in m ==> QueryOptionsSpec(m).partitionKey == Unset
  {
  }

  // ---------------------------------------------------------------------------
  // Stored-procedure options

  predicate ProcedureOptionsAccepted(m: Config) {
    && StringOrAbsent(m, C.IfMatchETag)
    && StringOrAbsent(m, C.IfNoneMatchETag)
    && (C.PartitionKey in m ==> CreatePartitionKey(GetObject(m, C.IndexMetricsEnabled)).Success?)
    && BoolOrAbsent(m, C.ScriptLoggingEnabled)
    && StringOrAbsent(m, C.SessionToken)
  }

  /** `options` after the stored-procedure setters: each present key overwrites
      its property and an absent key keeps what `options` already held. As in the
      query builder the partition key comes from the `indexMetricsEnabled` value. */
  function ProcedureOptionsApplied(options: StoredProcedureRequestOptions, m: Config): StoredProcedureRequestOptions
    requires ProcedureOptionsAccepted(m)
  {
    options.(
      ifMatchETag := Latest(StringSetting(m, C.IfMatchETag), options.ifMatchETag),
      ifNoneMatchETag := Latest(StringSetting(m, C.IfNoneMatchETag), options.ifNoneMatchETag),
      partitionKey :=
        if C.PartitionKey in m then SetTo(CreatePartitionKey(GetObject(m, C.IndexMetricsEnabled)).value)
        else options.partitionKey,
      scriptLoggingEnabled := Latest(BoolSetting(m, C.ScriptLoggingEnabled), options.scriptLoggingEnabled),
      sessionToken := Latest(StringSetting(m, C.SessionToken), options.sessionToken))
  }

  /** The private `setStoredProcedureRequestOptions(options, requestOptions)` for a
      non-null map: it updates the options it is given. */
  method ApplyStoredProcedureOptions(options: StoredProcedureRequestOptions, m: Config)
    returns (r: Result<StoredProcedureRequestOptions, Exception>)
    ensures r.Success? <==> ProcedureOptionsAccepted(m)
    ensures r.Success? ==> r.value == ProcedureOptionsApplied(options, m)
  {
    var updated := options;
    if C.IfMatchETag in m {
      var etag :- GetString(m, C.IfMatchETag);
      updated := updated.(ifMatchETag := SetTo(etag));
    }
    if C.IfNoneMatchETag in m {
      var etag :- GetString(m, C.IfNoneMatchETag);
      updated := updated.(ifNoneMatchETag := SetTo(etag));
    }
    if C.PartitionKey in m {
      var key :- CreatePartitionKey(GetObject(m, C.IndexMetricsEnabled));
      updated := updated.(partitionKey := SetTo(key));
    }
    if C.ScriptLoggingEnabled in m {
      var enabled :- GetBoolean(m, C.ScriptLoggingEnabled);
      updated := updated.(scriptLoggingEnabled := SetTo(enabled));
    }
    if C.SessionToken in m {
      var token :- GetString(m, C.SessionToken);
      updated := updated.(sessionToken := SetTo(token));
    }
    return Success(updated);
  }

  /** The public `setStoredProcedureRequestOptions(requestOptions)`. */
  method SetStoredProcedureRequestOptions(requestOptions: Option<Config>)
    returns (r: Result<StoredProcedureRequestOptions, Exception>)
    ensures requestOptions.None? ==> r == Success(NewStoredProcedureRequestOptions)
    ensures requestOptions.Some? ==> (r.Success? <==> ProcedureOptionsAccepted(requestOptions.value))
    ensures requestOptions.Some? && r.Success? ==>
      r.value == ProcedureOptionsApplied(NewStoredProcedureRequestOptions, requestOptions.value)
  {
    if requestOptions.None? {
      return Success(NewStoredProcedureRequestOptions);
    }
    r := ApplyStoredProcedureOptions(NewStoredProcedureRequestOptions, requestOptions.value);
  }

  /** The nested options value of an execute call: null (or absent) applies
      nothing, a map applies its keys, anything else fails the map cast. */
  predicate NestedProcedureOptionsAccepted(v: Value) {
    v.VNil? || (v.VMap? && ProcedureOptionsAccepted(v.fields))
  }

  predicate ExecuteOptionsAccepted(partitionKey: Value, requestOptions: Option<Config>) {
    && CreatePartitionKey(partitionKey).Success?
    && (requestOptions.Some? ==> NestedProcedureOptionsAccepted(GetObject(requestOptions.value, C.SpProcedureRequestOptions)))
  }

  /** The options of an execute call: the argument's partition key first, then
      whatever the nested `cosmosStoredProcedureRequestOptions` map sets. */
  function ExecuteOptionsSpec(partitionKey: Value, requestOptions: Option<Config>): StoredProcedureRequestOptions
    requires ExecuteOptionsAccepted(partitionKey, requestOptions)
  {
    var base := NewStoredProcedureRequestOptions.(partitionKey := SetTo(CreatePartitionKey(partitionKey).value));
    if requestOptions.Some? && GetObject(requestOptions.value, C.SpProcedureRequestOptions).VMap?
    then ProcedureOptionsApplied(base, GetObject(requestOptions.value, C.SpProcedureRequestOptions).fields)
    else base
  }

  /** `setExecuteStoredProcedureRequestOptions`. The cast of the nested value to a
      map, done inside the private overload in the source, is done here. */
  method SetExecuteStoredProcedureRequestOptions(partitionKey: Value, requestOptions: Option<Config>)
    returns (r: Result<StoredProcedureRequestOptions, Exception>)
    ensures r.Success? <==> ExecuteOptionsAccepted(partitionKey, requestOptions)
    ensures r.Success? ==> r.value == ExecuteOptionsSpec(partitionKey, requestOptions)
  {
    var options := NewStoredProcedureRequestOptions;
    var key :- CreatePartitionKey(partitionKey);
    options := options.(partitionKey := SetTo(key));
    if requestOptions.Some? {
      var m := requestOptions.value;
      if C.SpProcedureRequestOptions in m {
        match GetObject(m, C.SpProcedureRequestOptions)
        case VNil =>
        case VMap(nested) =>
          options :- ApplyStoredProcedureOptions(options, nested);
        case _ =>
          return Failure(ClassCast(C.SpProcedureRequestOptions));
      }
    }
    return Success(options);
  }

  /** The partition key an execute call ends with: the one decoded from the
      nested `indexMetricsEnabled` value when the nested map has `partitionkey`,
      otherwise the one decoded from the argument. */
  lemma ExecuteNestedPartitionKeyOverrides(partitionKey: Value, requestOptions: Option<Config>)
    requires ExecuteOptionsAccepted(partitionKey, requestOptions)
    ensures
      var nested := if requestOptions.Some? then GetObject(requestOptions.value, C.SpProcedureRequestOptions) else VNil;
      ExecuteOptionsSpec(partitionKey, requestOptions).partitionKey ==
        if nested.VMap? && C.PartitionKey in nested.fields
        then SetTo(CreatePartitionKey(GetObject(nested.fields, C.IndexMetricsEnabled)).value)
        else SetTo(CreatePartitionKey(partitionKey).value)
  {
  }

  /** Applying the same stored-procedure map twice is the same as applying it
      once: every property it touches gets a value that does not depend on what
      was there before. */
  lemma ProcedureOptionsIdempotent(options: StoredProcedureRequestOptions, m: Config)
    requires ProcedureOptionsAccepted(m)
    ensures ProcedureOptionsApplied(ProcedureOptionsApplied(options, m), m) == ProcedureOptionsApplied(options, m)
  {
  }

  // ---------------------------------------------------------------------------
  // Stored-procedure parameters

  /** `setProcedureParams`: null for a null map or a map without `parameters`,
      otherwise the string array stored there, in order. */
  function SetProcedureParams(requestOptions: Option<Config>): (r: Result<Option<seq<string>>, Exception>)
    ensures requestOptions.None? || C.Parameters !in requestOptions.value ==> r == Success(None)
    ensures requestOptions.Some? && C.Parameters in requestOptions.value ==>
      (r.Success? <==> requestOptions.value[C.Parameters].VArr?)
    ensures r.Success? && r.value.Some? ==>
      requestOptions.Some? && C.Parameters in requestOptions.value &&
      r.value.value == requestOptions.value[C.Parameters].strings
    ensures requestOptions.Some? && C.Parameters in requestOptions.value && requestOptions.value[C.Parameters].VArr?
      ==> r == Success(Some(requestOptions.value[C.Parameters].strings))
  {
    if requestOptions.Some? && C.Parameters in requestOptions.value then
      match GetStringArray(requestOptions.value, C.Parameters)
      case Success(parameters) => Success(Some(parameters))
      case Failure(e) => Failure(e)
    else
      Success(None)
  }
}
