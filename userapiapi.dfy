/**
 * The API-key resource (`UserApiApi`): each operation as the call it asks the
 * transport to make.
 */
module UserApiApi {
  import opened Wrappers
  import opened Js
  import opened Query
  import opened Transport

  /** None of the resource's paths holds a `?`: each is all path. */
  lemma NoQueryInPaths()
    ensures '?' !in "/userapi"
    ensures '?' !in "/userapi/list"
    ensures '?' !in "/userapi/verify"
  {
  }

  /** `create(params)`: POST the serialised params to `/userapi`. */
  function Create(params: Object): (c: Call)
    ensures c.endpoint == "/userapi" && '?' !in c.endpoint
    ensures c.init == RequestInit("POST", None, Some(JsonText(Obj(params))))
  {
    NoQueryInPaths();
    Call("/userapi", RequestInit("POST", None, Some(JsonText(Obj(params)))))
  }

  /** `list()`: GET `/userapi/list`, with no query string. */
  function List(): (c: Call)
    ensures c.endpoint == "/userapi/list" && '?' !in c.endpoint
    ensures c.init == RequestInit("GET", None, None)
  {
    NoQueryInPaths();
    Call("/userapi/list", RequestInit("GET", None, None))
  }

  /** `get(userApiGuid)`: GET `/userapi` for that key. */
  function Get(userApiGuid: string): (c: Call)
    ensures Target(c.endpoint) == ("/userapi", Encoded([("UserApi_guid", userApiGuid)]))
    ensures c.init == RequestInit("GET", None, None)
  {
    NoQueryInPaths();
    ByKeyTarget("/userapi", "UserApi_guid", userApiGuid);
    Call(WithQuery("/userapi", ByKey("UserApi_guid", userApiGuid)), RequestInit("GET", None, None))
  }

  /** `update(userApiGuid, params)`: PATCH that key with the serialised params. */
  function Update(userApiGuid: string, params: Object): (c: Call)
    ensures Target(c.endpoint) == ("/userapi", Encoded([("UserApi_guid", userApiGuid)]))
    ensures c.init == RequestInit("PATCH", None, Some(JsonText(Obj(params))))
  {
    NoQueryInPaths();
    ByKeyTarget("/userapi", "UserApi_guid", userApiGuid);
    Call(WithQuery("/userapi", ByKey("UserApi_guid", userApiGuid)), RequestInit("PATCH", None, Some(JsonText(Obj(params)))))
  }

  /** `delete(userApiGuid)`: DELETE that key. */
  function Delete(userApiGuid: string): (c: Call)
    ensures Target(c.endpoint) == ("/userapi", Encoded([("UserApi_guid", userApiGuid)]))
    ensures c.init == RequestInit("DELETE", None, None)
  {
    NoQueryInPaths();
    ByKeyTarget("/userapi", "UserApi_guid", userApiGuid);
    Call(WithQuery("/userapi", ByKey("UserApi_guid", userApiGuid)), RequestInit("DELETE", None, None))
  }

  /** `verify(apiKey)`: POST `{UserApi_Key: apiKey}` to `/userapi/verify`. */
  function Verify(apiKey: string): (c: Call)
    ensures c.endpoint == "/userapi/verify" && '?' !in c.endpoint
    ensures c.init == RequestInit("POST", None, Some(JsonText(Obj([("UserApi_Key", Str(apiKey))]))))
  {
    NoQueryInPaths();
    Call("/userapi/verify", RequestInit("POST", None, Some(JsonText(Obj([("UserApi_Key", Str(apiKey))])))))
  }

  /**
   * Verifying a key still authenticates with the configured key: the key
   * being checked travels only in the body, whatever it is.
   */
  lemma VerifyCarriesAuthorization(config: Object, apiKey: string)
    ensures var c := Verify(apiKey);
      var request := BuildRequest(config, c.endpoint, c.init);
      && Lookup(request.headers, "Authorization") == Str("Bearer " + ToString(Lookup(config, "apiKey")))
      && Lookup(request.headers, "Content-Type") == Str("application/json")
      && request.body == Some(JsonText(Obj([("UserApi_Key", Str(apiKey))])))
  {
    assert !HasKey([], "Authorization") && !HasKey([], "Content-Type");
  }
}
