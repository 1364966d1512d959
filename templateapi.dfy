/**
 * The template resource (`TemplateApi`): each operation as the call it asks
 * the transport to make. An endpoint's query string is stated through what
 * it reads back as: its path and its entries, still encoded, in order.
 */
module TemplateApi {
  import opened Wrappers
  import opened Js
  import opened Query
  import opened Transport

  /** None of the resource's paths holds a `?`: each is all path. */
  lemma NoQueryInPaths()
    ensures '?' !in "/template"
    ensures '?' !in "/template/list"
    ensures '?' !in "/template/preview"
    ensures '?' !in "/template/pdf"
    ensures '?' !in "/template/upload-asset"
  {
  }

  /** `create(params)`: POST the serialised params to `/template`. */
  function Create(params: Object): (c: Call)
    ensures c.endpoint == "/template" && '?' !in c.endpoint
    ensures c.init == RequestInit("POST", None, Some(JsonText(Obj(params))))
  {
    NoQueryInPaths();
    Call("/template", RequestInit("POST", None, Some(JsonText(Obj(params)))))
  }

  /** `get(templateGuid)`: GET `/template` for that template. */
  function Get(templateGuid: string): (c: Call)
    ensures Target(c.endpoint) == ("/template", Encoded([("Template_guid", templateGuid)]))
    ensures c.init == RequestInit("GET", None, None)
  {
    NoQueryInPaths();
    ByKeyTarget("/template", "Template_guid", templateGuid);
    Call(WithQuery("/template", ByKey("Template_guid", templateGuid)), RequestInit("GET", None, None))
  }

  /**
   * `list({templateName, from, to})`: GET `/template/list` with `from`, `to`
   * and, only when it is non-empty, the name filter last.
   */
  function List(templateName: Option<string>, from: int, to: int): (c: Call)
    ensures Target(c.endpoint) == ("/template/list", Encoded(
      [("from", IntToString(from)), ("to", IntToString(to))] +
      (if templateName.Some? && templateName.value != "" then [("Template_Name", templateName.value)] else [])))
    ensures c.init == RequestInit("GET", None, None)
  {
    NoQueryInPaths();
    PageQueryTarget("/template/list", [], from, to, "Template_Name", templateName);
    assert Kept([]) + PageEntries(from, to, "Template_Name", templateName) ==
      PageEntries(from, to, "Template_Name", templateName);
    Call(WithQuery("/template/list", PageQuery([], from, to, "Template_Name", templateName)), RequestInit("GET", None, None))
  }

  /** `update(templateGuid, updates)`: PATCH that template with the serialised updates. */
  function Update(templateGuid: string, updates: Object): (c: Call)
    ensures Target(c.endpoint) == ("/template", Encoded([("Template_guid", templateGuid)]))
    ensures c.init == RequestInit("PATCH", None, Some(JsonText(Obj(updates))))
  {
    NoQueryInPaths();
    ByKeyTarget("/template", "Template_guid", templateGuid);
    Call(WithQuery("/template", ByKey("Template_guid", templateGuid)), RequestInit("PATCH", None, Some(JsonText(Obj(updates)))))
  }

  /** `delete(templateGuid)`: DELETE that template. */
  function Delete(templateGuid: string): (c: Call)
    ensures Target(c.endpoint) == ("/template", Encoded([("Template_guid", templateGuid)]))
    ensures c.init == RequestInit("DELETE", None, None)
  {
    NoQueryInPaths();
    ByKeyTarget("/template", "Template_guid", templateGuid);
    Call(WithQuery("/template", ByKey("Template_guid", templateGuid)), RequestInit("DELETE", None, None))
  }

  /** `preview({Template_guid, data})`: POST the serialised params to `/template/preview`. */
  function Preview(params: Object): (c: Call)
    ensures c.endpoint == "/template/preview" && '?' !in c.endpoint
    ensures c.init == RequestInit("POST", None, Some(JsonText(Obj(params))))
  {
    NoQueryInPaths();
    Call("/template/preview", RequestInit("POST", None, Some(JsonText(Obj(params)))))
  }

  /** `generatePdf({Template_guid, data})`: POST the serialised params to `/template/pdf`. */
  function GeneratePdf(params: Object): (c: Call)
    ensures c.endpoint == "/template/pdf" && '?' !in c.endpoint
    ensures c.init == RequestInit("POST", None, Some(JsonText(Obj(params))))
  {
    NoQueryInPaths();
    Call("/template/pdf", RequestInit("POST", None, Some(JsonText(Obj(params)))))
  }

  /**
   * `uploadAsset(templateGuid, assetName, assetData)`: POST the asset's bytes
   * as they are, naming the template and the asset in the query, with
   * `Content-Type` overridden by undefined.
   */
  function UploadAsset(templateGuid: string, assetName: string, assetData: seq<byte>): (c: Call)
    ensures Target(c.endpoint) == ("/template/upload-asset",
      Encoded([("Template_guid", templateGuid), ("assetName", assetName)]))
    ensures c.init == RequestInit("POST", Some(NoContentType), Some(Binary(assetData)))
  {
    NoQueryInPaths();
    TwoKeysTarget("/template/upload-asset", "Template_guid", templateGuid, "assetName", assetName);
    Call(WithQuery("/template/upload-asset", TwoKeys("Template_guid", templateGuid, "assetName", assetName)),
         RequestInit("POST", Some(NoContentType), Some(Binary(assetData))))
  }

  /** The header override of `uploadAsset`. */
  const NoContentType: Object := [("Content-Type", Undefined)]

  /**
   * The upload's headers: the JSON content type is replaced by undefined, the
   * configured `Authorization` header is kept, and nothing else is added;
   * whatever the endpoint and the body.
   */
  lemma UploadAssetHeaders(config: Object, endpoint: string, body: Option<Body>)
    ensures var headers := BuildRequest(config, endpoint, RequestInit("POST", Some(NoContentType), body)).headers;
      && Lookup(headers, "Content-Type") == Undefined
      && Lookup(headers, "Authorization") == BearerOf(config)
      && forall k :: HasKey(headers, k) <==> k == "Authorization" || k == "Content-Type"
  {
    assert Keys(NoContentType) == ["Content-Type"];
  }

  /**
   * `generatePdfBuffer(params)`: the outcome of `generatePdf`, its bytes
   * rewrapped as they are; a failure propagates.
   */
  function GeneratePdfBuffer(generated: Outcome): (r: Outcome)
    ensures !generated.Resolved? ==> r == generated
    ensures generated.Resolved? && generated.payload.BytesPayload? ==> r == generated
  {
    generated
  }

  /** For a PDF response, `generatePdfBuffer` yields exactly the bytes that arrived. */
  lemma GeneratePdfBufferBytes(config: Object, params: Object, fetch: HttpRequest -> FetchResult,
                               status: nat, statusText: string, body: ResponseBody)
    requires IsOk(status)
    requires var c := GeneratePdf(params);
      fetch(BuildRequest(config, c.endpoint, c.init)) == Response(status, statusText, Some("application/pdf"), body)
    ensures var c := GeneratePdf(params);
      GeneratePdfBuffer(Settle(fetch(BuildRequest(config, c.endpoint, c.init)))) == Resolved(BytesPayload(body.bytes))
  {
    PdfRoundTrip(body.bytes, status, statusText, body.json, body.text);
  }
}
