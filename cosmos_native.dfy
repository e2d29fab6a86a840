/** The decoders of the cosmos-native copy of Utils.java. They switch on the same
    strings as the native copy but assign a local that starts out null and
    `break`, instead of returning from each case. Each is proved to agree with the
    native decoder on every input, so the rest of the model uses one definition. */
module CosmosNativeUtils {
  import opened Wrappers
  import opened JavaLang
  import opened HostValues
  import opened Sdk
  import D = Decoders
  import C = Constants

  /** `createPartitionKey`: the key starts null and a matching case overwrites it. */
  method CreatePartitionKey(partitionKey: Value) returns (r: Result<Option<PartitionKey>, Exception>)
    ensures r == D.CreatePartitionKey(partitionKey)
  {
    var pk: Option<PartitionKey> := None;
    match TypeName(partitionKey) {
      case "string" =>
        pk := Some(StringKey(ToText(partitionKey)));
      case "int" =>
        var n :- ParseInt(ToText(partitionKey));
        pk := Some(IntKey(n));
      case "float" =>
        pk := Some(DoubleKey(ToText(partitionKey)));
      case "decimal" =>
        pk := Some(DoubleKey(ToText(partitionKey)));
      case _ =>
    }
    return Success(pk);
  }

  /** `setCosistencyLevel`. */
  method ConsistencyLevelOf(level: string) returns (r: Option<ConsistencyLevel>)
    ensures r == D.ConsistencyLevelOf(level)
  {
    r := None;
    match level
    case "Strong" => r := Some(Strong);
    case "BoundedStaleness" => r := Some(BoundedStaleness);
    case "Session" => r := Some(Session);
    case "Eventual" => r := Some(Eventual);
    case "ConsistentPrefix" => r := Some(ConsistentPrefix);
    case _ =>
  }

  /** `setIndexingDirective`. */
  method IndexingDirectiveOf(directive: string) returns (r: Option<IndexingDirective>)
    ensures r == D.IndexingDirectiveOf(directive)
  {
    r := None;
    match directive
    case "Include" => r := Some(Include);
    case "Exclude" => r := Some(Exclude);
    case _ =>
  }
}
