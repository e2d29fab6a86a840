/** The option keys and enumeration names that the builders dispatch on, as
    native/src/main/java/io/ballerinax/cosmosdb/Constants.java declares them. */
module Constants {

  const BaseUrl := "baseUrl"
  const Token := "primaryKeyOrResourceToken"

  const ConsistencyLevel := "consistencyLevel"
  const Strong := "Strong"
  const BoundedStaleness := "BoundedStaleness"
  const Session := "Session"
  const Eventual := "Eventual"
  const ConsistentPrefix := "ConsistentPrefix"
  const DirectMode := "directMode"
  const DirectConnectionConfig := "directConnectionConfig"
  const GatewayConnectionConfig := "gatewayConnectionConfig"

  const ConnectionTimeout := "connectTimeout"
  const IdleConnectionTimeout := "idleConnectionTimeout"
  const IdleEndpointTimeout := "idleEndpointTimeout"
  const MaxConnectionsPerEndpoint := "maxConnectionsPerEndpoint"
  const MaxRequestsPerConnection := "maxRequestsPerConnection"
  const NetworkTimeout := "networkRequestTimeout"
  const ConnectionEndpointRediscovery := "connectionEndpointRediscoveryEnabled"

  const MaxConnectionPoolSize := "maxConnectionPoolSize"

  const ConnectionSharingAcrossClients := "connectionSharingAcrossClientsEnabled"
  const UserAgentSuffix := "userAgentSuffix"
  const PreferredRegions := "preferredRegions"
  const ContentResponseOnWriteEnabled := "contentResponseOnWriteEnabled"

  const IndexingDirective := "indexingDirective"
  const Include := "Include"
  const Exclude := "Exclude"
  const DedicatedGatewayRequestOptions := "dedicatedGatewayRequestOptions"
  const IfMatchETag := "ifMatchETag"
  const IfNoneMatchETag := "ifNoneMatchETag"
  const PostTriggerInclude := "postTriggerInclude"
  const PreTriggerInclude := "preTriggerInclude"
  const SessionToken := "sessionToken"
  // THRESHOLD_FOR_DIAGNOSTICS and THROUHPUT_CONTROL: the Java source gives both the same text.
  const ThresholdForDiagnostics := "throughputControlGroupName"
  const ThroughputControl := "throughputControlGroupName"

  const IndexMetricsEnabled := "indexMetricsEnabled"
  const MaxBufferedItemCount := "maxBufferedItemCount"
  const MaxDegreeParallelism := "maxDegreeOfParallelism"
  const PartitionKey := "partitionkey"
  const QueryMetricsEnabled := "queryMetricsEnabled"
  const LimitKb := "limitInKb"
  const ScanQueryEnabled := "scanInQueryEnabled"
  const ThresholdDiagnosisTracer := "thresholdForDiagnosticsOnTracer"

  const MaxIntegratedCacheStaleness := "maxIntegratedCacheStaleness"
  const SpProcedureRequestOptions := "cosmosStoredProcedureRequestOptions"
  const Parameters := "parameters"
  const ScriptLoggingEnabled := "scriptLoggingEnabled"

  const ResultIteratorObject := "ResultIterator"
  const CosmosResultIteratorObject := "CosmosResultIterator"
  const RecordType := "recordType"
  const ObjectIterator := "ObjectIterator"
  const StoredProcedure := "StoredProcedure"
  const Diagnostics := "Diagnostics"
  const DocumentResponse := "DocumentResponse"
  const StoredProcedureResponse := "StoredProcedureResponse"

  /** The names the consistency-level decoder accepts, in declaration order. */
  const ConsistencyLevelNames: seq<string> := [Strong, BoundedStaleness, Session, Eventual, ConsistentPrefix]

  /** The names the indexing-directive decoder accepts. */
  const IndexingDirectiveNames: seq<string> := [Include, Exclude]

  predicate PairwiseDistinct(names: seq<string>) {
    forall i, j :: 0 <= i < j < |names| ==> names[i] != names[j]
  }

  /** The five consistency-level names are five different strings, and so are
      the two indexing-directive names: no switch case can shadow another. */
  lemma EnumerationNamesDistinct()
    ensures PairwiseDistinct(ConsistencyLevelNames)
    ensures PairwiseDistinct(IndexingDirectiveNames)
  {
  }

  /** The diagnostics-threshold key and the throughput-control key are one and
      the same string, while the query builder's tracer-threshold key differs. */
  lemma DiagnosticsThresholdSharesGroupNameKey()
    ensures ThresholdForDiagnostics == ThroughputControl == "throughputControlGroupName"
    ensures ThresholdDiagnosisTracer != ThresholdForDiagnostics
  {
  }

  /** The partition-key option key is all lower case, so a map that spells it
      `partitionKey` does not reach the partition-key branch. */
  lemma PartitionKeyIsLowerCase()
    ensures PartitionKey == "partitionkey" && PartitionKey != "partitionKey"
  {
  }
}
