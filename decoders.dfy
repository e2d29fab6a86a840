/** The three decoders of native/src/main/java/io/ballerinax/cosmosdb/Utils.java:
    `createPartitionKey`, `setCosistencyLevel` and `setIndexingDirective`. Each is
    a switch that returns a value or null; `createPartitionKey` can also throw
    NumberFormatException. */
module Decoders {
  import opened Wrappers
  import opened JavaLang
  import opened HostValues
  import opened Sdk
  import C = Constants

  /** `createPartitionKey`: dispatch on the runtime type name. A string gives a
      string key; an int goes through `Integer.valueOf` of its decimal text, so it
      gives an int key inside the 32-bit range and NumberFormatException outside
      it; a float or decimal gives a double key; every other value gives null. */
  function CreatePartitionKey(v: Value): (r: Result<Option<PartitionKey>, Exception>)
    ensures v.VStr? ==> r == Success(Some(StringKey(v.s)))
    ensures v.VInt? && InIntRange(v.i) ==> r == Success(Some(IntKey(v.i)))
    ensures v.VInt? && !InIntRange(v.i) ==> r == Failure(NumberFormat(DecimalText(v.i)))
    ensures v.VFloat? ==> r == Success(Some(DoubleKey(v.floatText)))
    ensures v.VDecimal? ==> r == Success(Some(DoubleKey(v.decimalText)))
    ensures !(v.VStr? || v.VInt? || v.VFloat? || v.VDecimal?) ==> r == Success(None)
  {
    match TypeName(v)
    case "string" => Success(Some(StringKey(ToText(v))))
    case "int" =>
      ParseIntOfDecimalText(v.i);
      (match ParseInt(ToText(v))
       case Success(n) => Success(Some(IntKey(n)))
       case Failure(e) => Failure(e))
    case "float" => Success(Some(DoubleKey(ToText(v))))
    case "decimal" => Success(Some(DoubleKey(ToText(v))))
    case _ => Success(None)
  }

  /** The name under which each consistency level is accepted. */
  function ConsistencyLevelName(c: ConsistencyLevel): string {
    match c
    case Strong => C.Strong
    case BoundedStaleness => C.BoundedStaleness
    case Session => C.Session
    case Eventual => C.Eventual
    case ConsistentPrefix => C.ConsistentPrefix
  }

  /** `setCosistencyLevel`: one of the five names gives its level, any other
      string gives null. */
  function ConsistencyLevelOf(level: string): (r: Option<ConsistencyLevel>)
    ensures r.Some? <==> level in C.ConsistencyLevelNames
    ensures r.Some? ==> ConsistencyLevelName(r.value) == level
  {
    if level == C.Strong then Some(Strong)
    else if level == C.BoundedStaleness then Some(BoundedStaleness)
    else if level == C.Session then Some(Session)
    else if level == C.Eventual then Some(Eventual)
    else if level == C.ConsistentPrefix then Some(ConsistentPrefix)
    else None
  }

  /** Every consistency level is reached from its own name, so the decoder maps
      the five names onto the five levels one to one. */
  lemma ConsistencyLevelRoundTrip(c: ConsistencyLevel)
    ensures ConsistencyLevelOf(ConsistencyLevelName(c)) == Some(c)
  {
  }

  function IndexingDirectiveName(d: IndexingDirective): string {
    match d
    case Include => C.Include
    case Exclude => C.Exclude
  }

  /** `setIndexingDirective`: "Include" and "Exclude" give their directive, any
      other string gives null. */
  function IndexingDirectiveOf(directive: string): (r: Option<IndexingDirective>)
    ensures r.Some? <==> directive in C.IndexingDirectiveNames
    ensures r.Some? ==> IndexingDirectiveName(r.value) == directive
  {
    if directive == C.Include then Some(Include)
    else if directive == C.Exclude then Some(Exclude)
    else None
  }

  lemma IndexingDirectiveRoundTrip(d: IndexingDirective)
    ensures IndexingDirectiveOf(IndexingDirectiveName(d)) == Some(d)
  {
  }
}
