/** The Azure Cosmos DB SDK objects that the shim fills in or reads: option
    objects, connection configurations, the client builder and the responses.
    Only the properties the shim touches are modelled. */
module Sdk {
  import opened Wrappers
  import opened JavaLang
  import opened HostValues

  /** A property of an SDK object: `Unset` while the shim has not called its
      setter (the SDK keeps its own default), `SetTo(v)` after `setX(v)`. */
  datatype Setting<+T> = Unset | SetTo(value: T)

  datatype ConsistencyLevel = Strong | BoundedStaleness | Session | Eventual | ConsistentPrefix

  datatype IndexingDirective = Include | Exclude

  /** `new PartitionKey(String | Integer | Double)`. A double key keeps the text
      that `Double.valueOf` parses. */
  datatype PartitionKey = StringKey(s: string) | IntKey(i: Int32) | DoubleKey(text: string)

  /** `Duration.ofSeconds(long)`. */
  datatype Duration = OfSeconds(seconds: Long)

  datatype DedicatedGatewayRequestOptions = DedicatedGatewayRequestOptions(
    maxIntegratedCacheStaleness: Setting<Duration>)

  const NewDedicatedGatewayRequestOptions := DedicatedGatewayRequestOptions(Unset)

  /** `CosmosItemRequestOptions`. */
  datatype ItemRequestOptions = ItemRequestOptions(
    consistencyLevel: Setting<Option<ConsistencyLevel>>,
    indexingDirective: Setting<Option<IndexingDirective>>,
    contentResponseOnWriteEnabled: Setting<bool>,
    dedicatedGatewayRequestOptions: Setting<DedicatedGatewayRequestOptions>,
    ifMatchETag: Setting<string>,
    ifNoneMatchETag: Setting<string>,
    preTriggerInclude: Setting<seq<string>>,
    postTriggerInclude: Setting<seq<string>>,
    sessionToken: Setting<string>,
    throughputControlGroupName: Setting<string>,
    thresholdForDiagnosticsOnTracer: Setting<Duration>)

  const NewItemRequestOptions :=
    ItemRequestOptions(Unset, Unset, Unset, Unset, Unset, Unset, Unset, Unset, Unset, Unset, Unset)

  /** `CosmosQueryRequestOptions`. */
  datatype QueryRequestOptions = QueryRequestOptions(
    consistencyLevel: Setting<Option<ConsistencyLevel>>,
    dedicatedGatewayRequestOptions: Setting<DedicatedGatewayRequestOptions>,
    indexMetricsEnabled: Setting<bool>,
    maxBufferedItemCount: Setting<Int32>,
    maxDegreeOfParallelism: Setting<Int32>,
    partitionKey: Setting<Option<PartitionKey>>,
    queryMetricsEnabled: Setting<bool>,
    responseContinuationTokenLimitInKb: Setting<Int32>,
    scanInQueryEnabled: Setting<bool>,
    sessionToken: Setting<string>,
    thresholdForDiagnosticsOnTracer: Setting<Duration>,
    throughputControlGroupName: Setting<string>)

  const NewQueryRequestOptions :=
    QueryRequestOptions(Unset, Unset, Unset, Unset, Unset, Unset, Unset, Unset, Unset, Unset, Unset, Unset)

  /** `CosmosStoredProcedureRequestOptions`. */
  datatype StoredProcedureRequestOptions = StoredProcedureRequestOptions(
    ifMatchETag: Setting<string>,
    ifNoneMatchETag: Setting<string>,
    partitionKey: Setting<Option<PartitionKey>>,
    scriptLoggingEnabled: Setting<bool>,
    sessionToken: Setting<string>)

  const NewStoredProcedureRequestOptions := StoredProcedureRequestOptions(Unset, Unset, Unset, Unset, Unset)

  /** `DirectConnectionConfig`. */
  datatype DirectConnectionConfig = DirectConnectionConfig(
    connectTimeout: Setting<Duration>,
    idleConnectionTimeout: Setting<Duration>,
    idleEndpointTimeout: Setting<Duration>,
    maxConnectionsPerEndpoint: Setting<Int32>,
    maxRequestsPerConnection: Setting<Int32>,
    networkRequestTimeout: Setting<Duration>,
    connectionEndpointRediscoveryEnabled: Setting<bool>)

  const NewDirectConnectionConfig := DirectConnectionConfig(Unset, Unset, Unset, Unset, Unset, Unset, Unset)

  /** `GatewayConnectionConfig`. */
  datatype GatewayConnectionConfig = GatewayConnectionConfig(
    maxConnectionPoolSize: Setting<Int32>,
    idleConnectionTimeout: Setting<Duration>)

  const NewGatewayConnectionConfig := GatewayConnectionConfig(Unset, Unset)

  /** The argument of `directMode(direct)` (no gateway) or `directMode(direct, gateway)`. */
  datatype ConnectionMode = DirectMode(direct: DirectConnectionConfig, gateway: Option<GatewayConnectionConfig>)

  /** The properties of a `CosmosClientBuilder` that the custom configuration sets. */
  datatype ClientSettings = ClientSettings(
    consistencyLevel: Setting<Option<ConsistencyLevel>>,
    connectionMode: Setting<ConnectionMode>,
    connectionSharingAcrossClientsEnabled: Setting<bool>,
    userAgentSuffix: Setting<string>,
    preferredRegions: Setting<seq<string>>,
    contentResponseOnWriteEnabled: Setting<bool>)

  /** `CosmosClientBuilder`: a mutable builder that the caller owns and that the
      custom configuration updates in place. */
  class ClientBuilder {
    var consistencyLevel: Setting<Option<ConsistencyLevel>>
    var connectionMode: Setting<ConnectionMode>
    var connectionSharingAcrossClientsEnabled: Setting<bool>
    var userAgentSuffix: Setting<string>
    var preferredRegions: Setting<seq<string>>
    var contentResponseOnWriteEnabled: Setting<bool>

    function Settings(): ClientSettings
      reads this
    {
      ClientSettings(consistencyLevel, connectionMode, connectionSharingAcrossClientsEnabled,
                     userAgentSuffix, preferredRegions, contentResponseOnWriteEnabled)
    }

    constructor ()
      ensures Settings() == ClientSettings(Unset, Unset, Unset, Unset, Unset, Unset)
    {
      consistencyLevel := Unset;
      connectionMode := Unset;
      connectionSharingAcrossClientsEnabled := Unset;
      userAgentSuffix := Unset;
      preferredRegions := Unset;
      contentResponseOnWriteEnabled := Unset;
    }
  }

  /** `CosmosDiagnostics`: the regions contacted, in the iteration order of the
      SDK's set, and the duration already converted to milliseconds. */
  datatype CosmosDiagnostics = CosmosDiagnostics(regionsContacted: seq<string>, durationMillis: Long)

  /** `CosmosItemResponse`. The request charge is a double that is only copied. */
  datatype ItemResponse = ItemResponse(
    activityId: string,
    currentResourceQuotaUsage: string,
    diagnostics: CosmosDiagnostics,
    durationMillis: Long,
    etag: string,
    item: Value,
    maxResourceQuota: string,
    requestCharge: real,
    responseHeaders: Option<map<string, string>>,
    sessionToken: string,
    statusCode: Int32)

  /** `CosmosStoredProcedureResponse`. */
  datatype StoredProcedureResponse = StoredProcedureResponse(
    activityId: string,
    requestCharge: real,
    responseAsString: string,
    scriptLog: string,
    sessionToken: string,
    statusCode: Int32)

  /** `CosmosStoredProcedureProperties`, one element of a stored-procedure listing. */
  datatype StoredProcedureProperties = StoredProcedureProperties(id: string, body: string, etag: string)
}
