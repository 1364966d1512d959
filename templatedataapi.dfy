/**
 * The template-data resource (`TemplateDataApi`): each operation as the call
 * it asks the transport to make.
 */
module TemplateDataApi {
  import opened Wrappers
  import opened Js
  import opened Query
  import opened Transport

  /** None of the resource's paths holds a `?`: each is all path. */
  lemma NoQueryInPaths()
    ensures '?' !in "/template-data"
    ensures '?' !in "/template-data/list"
    ensures '?' !in "/template-data/validate"
    ensures '?' !in "/template-data/apply"
    ensures '?' !in "/template-data/apply/pdf"
  {
  }

  /** `create(params)`: POST the serialised params to `/template-data`. */
  function Create(params: Object): (c: Call)
    ensures c.endpoint == "/template-data" && '?' !in c.endpoint
    ensures c.init == RequestInit("POST", None, Some(JsonText(Obj(params))))
  {
    NoQueryInPaths();
    Call("/template-data", RequestInit("POST", None, Some(JsonText(Obj(params)))))
  }

  /** `get(templateDataGuid)`: GET `/template-data` for that record. */
  function Get(templateDataGuid: string): (c: Call)
    ensures Target(c.endpoint) == ("/template-data", Encoded([("TemplateData_guid", templateDataGuid)]))
    ensures c.init == RequestInit("GET", None, None)
  {
    NoQueryInPaths();
    ByKeyTarget("/template-data", "TemplateData_guid", templateDataGuid);
    Call(WithQuery("/template-data", ByKey("TemplateData_guid", templateDataGuid)), RequestInit("GET", None, None))
  }

  /**
   * `list({templateGuid, templateDataName, from, to})`: GET
   * `/template-data/list` with the template, `from`, `to` and, only when it is
   * non-empty, the name filter last.
   */
  function List(templateGuid: string, templateDataName: Option<string>, from: int, to: int): (c: Call)
    ensures Target(c.endpoint) == ("/template-data/list", Encoded(
      [("Template_guid", templateGuid)] + PageEntries(from, to, "TemplateData_Name", templateDataName)))
    ensures c.init == RequestInit("GET", None, None)
  {
    NoQueryInPaths();
    var lead := ByKey("Template_guid", templateGuid);
    ListTarget(templateGuid, templateDataName, from, to);
    Call(WithQuery("/template-data/list", PageQuery(lead, from, to, "TemplateData_Name", templateDataName)),
         RequestInit("GET", None, None))
  }

  lemma ListTarget(templateGuid: string, templateDataName: Option<string>, from: int, to: int)
    ensures var lead := ByKey("Template_guid", templateGuid);
      Target(WithQuery("/template-data/list", PageQuery(lead, from, to, "TemplateData_Name", templateDataName)))
      == ("/template-data/list", Encoded([("Template_guid", templateGuid)] + PageEntries(from, to, "TemplateData_Name", templateDataName)))
  {
    var lead := ByKey("Template_guid", templateGuid);
    NoQueryInPaths();
    PageQueryTarget("/template-data/list", lead, from, to, "TemplateData_Name", templateDataName);
    KeptOne("Template_guid", Str(templateGuid));
  }

  /** `update(templateDataGuid, updates)`: PATCH that record with the serialised updates. */
  function Update(templateDataGuid: string, updates: Object): (c: Call)
    ensures Target(c.endpoint) == ("/template-data", Encoded([("TemplateData_guid", templateDataGuid)]))
    ensures c.init == RequestInit("PATCH", None, Some(JsonText(Obj(updates))))
  {
    NoQueryInPaths();
    ByKeyTarget("/template-data", "TemplateData_guid", templateDataGuid);
    Call(WithQuery("/template-data", ByKey("TemplateData_guid", templateDataGuid)),
         RequestInit("PATCH", None, Some(JsonText(Obj(updates)))))
  }

  /** `delete(templateDataGuid)`: DELETE that record. */
  function Delete(templateDataGuid: string): (c: Call)
    ensures Target(c.endpoint) == ("/template-data", Encoded([("TemplateData_guid", templateDataGuid)]))
    ensures c.init == RequestInit("DELETE", None, None)
  {
    NoQueryInPaths();
    ByKeyTarget("/template-data", "TemplateData_guid", templateDataGuid);
    Call(WithQuery("/template-data", ByKey("TemplateData_guid", templateDataGuid)), RequestInit("DELETE", None, None))
  }

  /** `validate({TemplateData_Interface, TemplateData_Data})`: POST the serialised params to `/template-data/validate`. */
  function Validate(params: Object): (c: Call)
    ensures c.endpoint == "/template-data/validate" && '?' !in c.endpoint
    ensures c.init == RequestInit("POST", None, Some(JsonText(Obj(params))))
  {
    NoQueryInPaths();
    Call("/template-data/validate", RequestInit("POST", None, Some(JsonText(Obj(params)))))
  }

  /** `apply({Template_guid, TemplateData_guid})`: POST the serialised params to `/template-data/apply`. */
  function Apply(params: Object): (c: Call)
    ensures c.endpoint == "/template-data/apply" && '?' !in c.endpoint
    ensures c.init == RequestInit("POST", None, Some(JsonText(Obj(params))))
  {
    NoQueryInPaths();
    Call("/template-data/apply", RequestInit("POST", None, Some(JsonText(Obj(params)))))
  }

  /** `applyAndGeneratePdf({Template_guid, TemplateData_guid})`: POST the serialised params to `/template-data/apply/pdf`. */
  function ApplyAndGeneratePdf(params: Object): (c: Call)
    ensures c.endpoint == "/template-data/apply/pdf" && '?' !in c.endpoint
    ensures c.init == RequestInit("POST", None, Some(JsonText(Obj(params))))
  {
    NoQueryInPaths();
    Call("/template-data/apply/pdf", RequestInit("POST", None, Some(JsonText(Obj(params)))))
  }
}
