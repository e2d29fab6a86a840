/** The response projectors of Utils.java: the SDK's item and stored-procedure
    responses copied field by field into the host's `DocumentResponse`,
    `Diagnostics` and `StoredProcedureResponse` records, and `toBMap`, which
    turns the response headers into a host map of strings. */
module ResponseProjectors {
  import opened Wrappers
  import opened JavaLang
  import opened HostValues
  import S = Sdk

  /** The host `Diagnostics` record. */
  datatype Diagnostics = Diagnostics(regionsContacted: seq<string>, duration: Long)

  /** The host `DocumentResponse` record. */
  datatype DocumentResponse = DocumentResponse(
    activityId: string,
    currentResourceQuotaUsage: string,
    diagnostics: Diagnostics,
    duration: Long,
    etag: string,
    item: Value,
    maxResourceQuota: string,
    requestCharge: real,
    responseHeaders: map<string, string>,
    sessionToken: string,
    statusCode: Int32)

  /** The host `StoredProcedureResponse` record. */
  datatype StoredProcedureResponse = StoredProcedureResponse(
    activityId: string,
    requestCharge: real,
    responseAsString: string,
    scriptLog: string,
    sessionToken: string,
    statusCode: Int32)

  /** `toBMap`: a null map gives an empty map; otherwise every key is copied
      with the string form of its value (for header values, the value itself).
      The keys are visited in no particular order. */
  method ToBMap(headers: Option<map<string, string>>) returns (r: map<string, string>)
    ensures headers.None? ==> r == map[]
    ensures headers.Some? ==> r.Keys == headers.value.Keys
    ensures headers.Some? ==> forall k :: k in r ==> r[k] == headers.value[k]
  {
    r := map[];
    if headers.None? {
      return;
    }
    var m := headers.value;
    var keys := m.Keys;
    while keys != {}
      invariant keys <= m.Keys
      invariant r.Keys == m.Keys - keys
      invariant forall k :: k in r ==> r[k] == m[k]
      decreases keys
    {
      var k :| k in keys;
      r := r[k := m[k]];
      keys := keys - {k};
    }
  }

  /** `createDiagnosticsRecord`: the regions are copied one by one into a fresh
      array, in the order the SDK lists them, and the duration is carried over. */
  method CreateDiagnosticsRecord(diagnostics: S.CosmosDiagnostics) returns (r: Diagnostics)
    ensures r.regionsContacted == diagnostics.regionsContacted
    ensures r.duration == diagnostics.durationMillis
  {
    var regions := diagnostics.regionsContacted;
    var names := new string[|regions|];
    for i := 0 to |regions|
      invariant names[..i] == regions[..i]
    {
      names[i] := regions[i];
    }
    return Diagnostics(names[..], diagnostics.durationMillis);
  }

  /** `createDocumentResponse`: every field of the item response is carried over
      unchanged, the diagnostics through `createDiagnosticsRecord` and the
      headers through `toBMap`. */
  method CreateDocumentResponse(response: S.ItemResponse) returns (r: DocumentResponse)
    ensures r.activityId == response.activityId
    ensures r.currentResourceQuotaUsage == response.currentResourceQuotaUsage
    ensures r.diagnostics.regionsContacted == response.diagnostics.regionsContacted
    ensures r.diagnostics.duration == response.diagnostics.durationMillis
    ensures r.duration == response.durationMillis
    ensures r.etag == response.etag
    ensures r.item == response.item
    ensures r.maxResourceQuota == response.maxResourceQuota
    ensures r.requestCharge == response.requestCharge
    ensures response.responseHeaders.None? ==> r.responseHeaders == map[]
    ensures response.responseHeaders.Some? ==> r.responseHeaders == response.responseHeaders.value
    ensures r.sessionToken == response.sessionToken
    ensures r.statusCode == response.statusCode
  {
    var diagnostics := CreateDiagnosticsRecord(response.diagnostics);
    var headers := ToBMap(response.responseHeaders);
    r := DocumentResponse(
      activityId := response.activityId,
      currentResourceQuotaUsage := response.currentResourceQuotaUsage,
      diagnostics := diagnostics,
      duration := response.durationMillis,
      etag := response.etag,
      item := response.item,
      maxResourceQuota := response.maxResourceQuota,
      requestCharge := response.requestCharge,
      responseHeaders := headers,
      sessionToken := response.sessionToken,
      statusCode := response.statusCode);
  }

  /** `createStoredProcedureMap`: the six fields of a stored-procedure response. */
  function CreateStoredProcedureMap(response: S.StoredProcedureResponse): (r: StoredProcedureResponse)
    ensures r.activityId == response.activityId && r.requestCharge == response.requestCharge
    ensures r.responseAsString == response.responseAsString && r.scriptLog == response.scriptLog
    ensures r.sessionToken == response.sessionToken && r.statusCode == response.statusCode
  {
    StoredProcedureResponse(
      response.activityId, response.requestCharge, response.responseAsString,
      response.scriptLog, response.sessionToken, response.statusCode)
  }
}
