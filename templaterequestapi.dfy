/**
 * The template-request resource (`TemplateRequestApi`): each operation as the
 * call it asks the transport to make.
 */
module TemplateRequestApi {
  import opened Wrappers
  import opened Js
  import opened Query
  import opened Transport

  /** None of the resource's paths holds a `?`: each is all path. */
  lemma NoQueryInPaths()
    ensures '?' !in "/template-request"
    ensures '?' !in "/template-request/list"
    ensures '?' !in "/template-request/stats"
  {
  }

  /** `create(params)`: POST the serialised params to `/template-request`. */
  function Create(params: Object): (c: Call)
    ensures c.endpoint == "/template-request" && '?' !in c.endpoint
    ensures c.init == RequestInit("POST", None, Some(JsonText(Obj(params))))
  {
    NoQueryInPaths();
    Call("/template-request", RequestInit("POST", None, Some(JsonText(Obj(params)))))
  }

  /** `get(templateRequestGuid)`: GET `/template-request` for that record. */
  function Get(templateRequestGuid: string): (c: Call)
    ensures Target(c.endpoint) == ("/template-request", Encoded([("TemplateRequest_guid", templateRequestGuid)]))
    ensures c.init == RequestInit("GET", None, None)
  {
    NoQueryInPaths();
    ByKeyTarget("/template-request", "TemplateRequest_guid", templateRequestGuid);
    Call(WithQuery("/template-request", ByKey("TemplateRequest_guid", templateRequestGuid)),
         RequestInit("GET", None, None))
  }

  /**
   * `list({templateRequestName, from, to})`: GET `/template-request/list` with
   * `from`, `to` and, only when it is non-empty, the name filter last.
   */
  function List(templateRequestName: Option<string>, from: int, to: int): (c: Call)
    ensures Target(c.endpoint) == ("/template-request/list", Encoded(
      [("from", IntToString(from)), ("to", IntToString(to))] +
      (if templateRequestName.Some? && templateRequestName.value != "" then [("TemplateRequest_Name", templateRequestName.value)] else [])))
    ensures c.init == RequestInit("GET", None, None)
  {
    NoQueryInPaths();
    PageQueryTarget("/template-request/list", [], from, to, "TemplateRequest_Name", templateRequestName);
    assert Kept([]) + PageEntries(from, to, "TemplateRequest_Name", templateRequestName) ==
      PageEntries(from, to, "TemplateRequest_Name", templateRequestName);
    Call(WithQuery("/template-request/list", PageQuery([], from, to, "TemplateRequest_Name", templateRequestName)),
         RequestInit("GET", None, None))
  }

  /** `update(templateRequestGuid, updates)`: PATCH that record with the serialised updates. */
  function Update(templateRequestGuid: string, updates: Object): (c: Call)
    ensures Target(c.endpoint) == ("/template-request", Encoded([("TemplateRequest_guid", templateRequestGuid)]))
    ensures c.init == RequestInit("PATCH", None, Some(JsonText(Obj(updates))))
  {
    NoQueryInPaths();
    ByKeyTarget("/template-request", "TemplateRequest_guid", templateRequestGuid);
    Call(WithQuery("/template-request", ByKey("TemplateRequest_guid", templateRequestGuid)),
         RequestInit("PATCH", None, Some(JsonText(Obj(updates)))))
  }

  /** `delete(templateRequestGuid)`: DELETE that record. */
  function Delete(templateRequestGuid: string): (c: Call)
    ensures Target(c.endpoint) == ("/template-request", Encoded([("TemplateRequest_guid", templateRequestGuid)]))
    ensures c.init == RequestInit("DELETE", None, None)
  {
    NoQueryInPaths();
    ByKeyTarget("/template-request", "TemplateRequest_guid", templateRequestGuid);
    Call(WithQuery("/template-request", ByKey("TemplateRequest_guid", templateRequestGuid)),
         RequestInit("DELETE", None, None))
  }

  /**
   * `getStats({startDate, endDate})`: GET `/template-request/stats` with the
   * two dates in this order, passed through as given (nothing checks that
   * they are dates).
   */
  function GetStats(startDate: string, endDate: string): (c: Call)
    ensures Target(c.endpoint) == ("/template-request/stats", Encoded([("startDate", startDate), ("endDate", endDate)]))
    ensures c.init == RequestInit("GET", None, None)
  {
    NoQueryInPaths();
    TwoKeysTarget("/template-request/stats", "startDate", startDate, "endDate", endDate);
    Call(WithQuery("/template-request/stats", TwoKeys("startDate", startDate, "endDate", endDate)),
         RequestInit("GET", None, None))
  }
}
