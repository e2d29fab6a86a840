/** The result cursor behind the host's record streams (`RecordIteratorUtils`).
    The object's native data holds the target record type and an SDK iterator;
    each `nextResult` consumes at most one element. Both copies of the source
    share the stored-procedure path and differ only in how a generic document is
    decoded, so the step lives here once, with the document decoding as a
    parameter that each copy supplies. */
module ResultIterators {
  import opened Wrappers
  import opened HostValues
  import opened Sdk
  import C = Constants

  /** What `nextResult` hands back to the host: a record (or other value), an
      error value, or `null`. */
  datatype CursorResult = Item(value: Value) | Error(error: HostError) | Nil

  /** The host errors the cursor can produce: the shim's database error wrapping
      a caught exception, or an error value returned by the host's conversion. */
  datatype HostError = DatabaseError(cause: JavaLang.Exception) | ConversionError(message: string)

  /** One element the SDK iterator yields: stored-procedure properties when the
      target type is `StoredProcedure`, an arbitrary document otherwise. */
  datatype Element<D> = Procedure(properties: StoredProcedureProperties) | Document(document: D)

  /** The stored-procedure record: the body under `storedProcedure`, then the id
      and the etag. */
  function ProcedureRecord(p: StoredProcedureProperties): (v: Value)
    ensures v.VMap? && v.fields.Keys == {"storedProcedure", "id", "eTag"}
  {
    VMap(map["storedProcedure" := VStr(p.body), "id" := VStr(p.id), "eTag" := VStr(p.etag)])
  }

  /** Reads the stored-procedure properties back out of a record. */
  function ProcedureOf(v: Value): Option<StoredProcedureProperties> {
    if v.VMap? && "storedProcedure" in v.fields && "id" in v.fields && "eTag" in v.fields
       && v.fields["storedProcedure"].VStr? && v.fields["id"].VStr? && v.fields["eTag"].VStr?
    then Some(StoredProcedureProperties(v.fields["id"].s, v.fields["storedProcedure"].s, v.fields["eTag"].s))
    else None
  }

  /** The stored-procedure record loses nothing: body, id and etag can be read
      back from it. */
  lemma ProcedureRecordRoundTrip(p: StoredProcedureProperties)
    ensures ProcedureOf(ProcedureRecord(p)) == Some(p)
  {
  }

  /** The cursor: the target record type, everything the SDK iterator will yield,
      and how much of it has been consumed. */
  class ResultIterator<D> {
    const recordType: string
    const elements: seq<Element<D>>
    var position: nat

    /** The iterator's element type follows the target type's name. */
    ghost predicate Valid()
      reads this
    {
      && position <= |elements|
      && forall i :: 0 <= i < |elements| ==> (elements[i].Procedure? <==> recordType == C.StoredProcedure)
    }

    constructor (recordType: string, elements: seq<Element<D>>)
      requires forall i :: 0 <= i < |elements| ==> (elements[i].Procedure? <==> recordType == C.StoredProcedure)
      ensures Valid()
      ensures this.recordType == recordType && this.elements == elements && position == 0
    {
      this.recordType := recordType;
      this.elements := elements;
      position := 0;
    }

    predicate HasNext()
      reads this
    {
      position < |elements|
    }
  }

  /** What one consumed element becomes. */
  function Outcome<D>(e: Element<D>, decode: D -> CursorResult): CursorResult {
    match e
    case Procedure(p) => Item(ProcedureRecord(p))
    case Document(d) => decode(d)
  }

  /** `nextResult`: `null` without touching the iterator once it is exhausted;
      otherwise exactly one element is consumed and turned into a result, even
      when decoding it fails. */
  method NextResult<D>(it: ResultIterator<D>, decode: D -> CursorResult) returns (r: CursorResult)
    requires it.Valid()
    modifies it
    ensures it.Valid()
    ensures old(it.position) == |it.elements| ==> r == Nil && it.position == old(it.position)
    ensures old(it.position) < |it.elements| ==>
      && it.position == old(it.position) + 1
      && r == Outcome(it.elements[old(it.position)], decode)
  {
    if it.recordType == C.StoredProcedure {
      if it.HasNext() {
        var next := it.elements[it.position];
        it.position := it.position + 1;
        return Item(ProcedureRecord(next.properties));
      }
      return Nil;
    } else {
      if it.HasNext() {
        var next := it.elements[it.position];
        it.position := it.position + 1;
        return decode(next.document);
      }
      return Nil;
    }
  }

  /** Calls `nextResult` until it returns `null`. When no document decodes to
      `null`, the calls yield one result per remaining element, in order, and
      leave the iterator exhausted. */
  method Drain<D>(it: ResultIterator<D>, decode: D -> CursorResult) returns (results: seq<CursorResult>)
    requires it.Valid()
    requires forall i :: 0 <= i < |it.elements| && it.elements[i].Document? ==> decode(it.elements[i].document) != Nil
    modifies it
    ensures it.Valid() && it.position == |it.elements|
    ensures |results| == |it.elements| - old(it.position)
    ensures forall j :: 0 <= j < |results| ==> results[j] == Outcome(it.elements[old(it.position) + j], decode)
  {
    results := [];
    var r := NextResult(it, decode);
    while r != Nil
      invariant it.Valid()
      invariant old(it.position) <= it.position
      invariant r != Nil ==>
        |results| + 1 == it.position - old(it.position) && r == Outcome(it.elements[it.position - 1], decode)
      invariant r == Nil ==> |results| == it.position - old(it.position) && it.position == |it.elements|
      invariant forall j :: 0 <= j < |results| ==> results[j] == Outcome(it.elements[old(it.position) + j], decode)
      decreases |it.elements| - it.position + if r != Nil then 1 else 0
    {
      results := results + [r];
      r := NextResult(it, decode);
    }
  }

  /** A document that decodes to `null` cannot be told apart from the end of the
      stream: the step that consumes it returns what an exhausted iterator returns. */
  lemma NilDocumentLooksExhausted<D>(d: D, decode: D -> CursorResult)
    requires decode(d) == Nil
    ensures Outcome(Document(d), decode) == Nil
  {
  }
}

/** `nextResult` of the native copy: a generic document is serialised to JSON
    and converted by the host against the union of the target record type,
    error and nil; the host's answer is returned as it is. */
module NativeRecordIterator {
  import opened Wrappers
  import opened JavaLang
  import opened ResultIterators

  /** Serialising the document and converting the text; an exception from either
      becomes a database error. */
  function NativeDecode<D>(
    serialize: D -> Result<string, Exception>,
    fromJsonWithType: (string, string) -> Result<CursorResult, Exception>,
    recordType: string,
    d: D): (r: CursorResult)
    ensures serialize(d).Failure? ==> r == Error(DatabaseError(serialize(d).error))
    ensures serialize(d).Success? && fromJsonWithType(serialize(d).value, recordType).Failure? ==>
      r == Error(DatabaseError(fromJsonWithType(serialize(d).value, recordType).error))
    ensures serialize(d).Success? && fromJsonWithType(serialize(d).value, recordType).Success? ==>
      r == fromJsonWithType(serialize(d).value, recordType).value
  {
    match serialize(d)
    case Failure(e) => Error(DatabaseError(e))
    case Success(json) =>
      match fromJsonWithType(json, recordType)
      case Failure(e) => Error(DatabaseError(e))
      case Success(result) => result
  }

  method NextResult<D>(
    it: ResultIterator<D>,
    serialize: D -> Result<string, Exception>,
    fromJsonWithType: (string, string) -> Result<CursorResult, Exception>)
    returns (r: CursorResult)
    requires it.Valid()
    modifies it
    ensures it.Valid()
    ensures old(it.position) == |it.elements| ==> r == Nil && it.position == old(it.position)
    ensures old(it.position) < |it.elements| ==>
      && it.position == old(it.position) + 1
      && r == Outcome(it.elements[old(it.position)], d => NativeDecode(serialize, fromJsonWithType, it.recordType, d))
  {
    var recordType := it.recordType;
    r := ResultIterators.NextResult(it, d => NativeDecode(serialize, fromJsonWithType, recordType, d));
  }
}

/** `nextResult` of the cosmos-native copy: a generic document is serialised to
    JSON and parsed without any target type; a parsed JSON `null` is `null`. */
module CosmosRecordIterator {
  import opened Wrappers
  import opened JavaLang
  import opened HostValues
  import opened ResultIterators

  function CosmosDecode<D>(serialize: D -> Result<string, Exception>, parse: string -> Result<Value, Exception>, d: D): (r: CursorResult)
    ensures serialize(d).Failure? ==> r == Error(DatabaseError(serialize(d).error))
    ensures serialize(d).Success? && parse(serialize(d).value).Failure? ==>
      r == Error(DatabaseError(parse(serialize(d).value).error))
    ensures serialize(d).Success? && parse(serialize(d).value).Success? ==>
      r == if parse(serialize(d).value).value.VNil? then Nil else Item(parse(serialize(d).value).value)
  {
    match serialize(d)
    case Failure(e) => Error(DatabaseError(e))
    case Success(json) =>
      match parse(json)
      case Failure(e) => Error(DatabaseError(e))
      case Success(VNil) => Nil
      case Success(v) => Item(v)
  }

  method NextResult<D>(
    it: ResultIterator<D>,
    serialize: D -> Result<string, Exception>,
    parse: string -> Result<Value, Exception>)
    returns (r: CursorResult)
    requires it.Valid()
    modifies it
    ensures it.Valid()
    ensures old(it.position) == |it.elements| ==> r == Nil && it.position == old(it.position)
    ensures old(it.position) < |it.elements| ==>
      && it.position == old(it.position) + 1
      && r == Outcome(it.elements[old(it.position)], d => CosmosDecode(serialize, parse, d))
  {
    r := ResultIterators.NextResult(it, d => CosmosDecode(serialize, parse, d));
  }
}
