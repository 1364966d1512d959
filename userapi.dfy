/**
 * The user resource (`UserApi`): sign-up and verification resend, whose
 * bodies are projections of the caller's object and whose results are
 * rewrapped as a response-like record, and the profile read.
 */
module UserApi {
  import opened Wrappers
  import opened Js
  import opened Query
  import opened Transport

  /** None of the resource's paths holds a `?`: each is all path. */
  lemma NoQueryInPaths()
    ensures '?' !in "/user/create"
    ensures '?' !in "/user/resend-verification"
    ensures '?' !in "/user/profile"
  {
  }

  const SignUpFields := ["User_Name", "User_Email", "User_Password", "User_TermsOfService"]

  /** The body of `create`: the four sign-up fields read from `params`, in this order. */
  function SignUpBody(params: Object): Object
  {
    [("User_Name", Lookup(params, "User_Name")),
     ("User_Email", Lookup(params, "User_Email")),
     ("User_Password", Lookup(params, "User_Password")),
     ("User_TermsOfService", Lookup(params, "User_TermsOfService"))]
  }

  lemma SignUpBodyFields(params: Object)
    ensures Keys(SignUpBody(params)) == SignUpFields
    ensures forall k :: k in SignUpFields ==> Lookup(SignUpBody(params), k) == Lookup(params, k)
  {
    var body := SignUpBody(params);
    assert Keys(body) == SignUpFields;
    assert "User_Name"[5] != "User_Email"[5] && "User_Name"[5] != "User_Password"[5];
    assert "User_Name"[5] != "User_TermsOfService"[5] && "User_Email"[5] != "User_Password"[5];
    assert "User_Email"[5] != "User_TermsOfService"[5] && "User_Password"[5] != "User_TermsOfService"[5];
    assert body[1..][1..] == body[2..] && body[2..][1..] == body[3..];
    assert Lookup(body, "User_Email") == Lookup(body[1..], "User_Email");
    assert Lookup(body, "User_Password") == Lookup(body[1..], "User_Password") == Lookup(body[2..], "User_Password");
    assert Lookup(body, "User_TermsOfService") == Lookup(body[1..], "User_TermsOfService")
      == Lookup(body[2..], "User_TermsOfService") == Lookup(body[3..], "User_TermsOfService");
  }

  /** `create(params)`: POST the four sign-up fields, and nothing else, to `/user/create`. */
  function Create(params: Object): (c: Call)
    ensures c.endpoint == "/user/create" && '?' !in c.endpoint
    ensures c.init.verb == "POST" && c.init.headers.None?
    ensures c.init.body.Some? && c.init.body.value.JsonText? && c.init.body.value.value.Obj?
    ensures var body := c.init.body.value.value.props;
      && Keys(body) == SignUpFields
      && forall k :: k in SignUpFields ==> Lookup(body, k) == Lookup(params, k)
  {
    NoQueryInPaths();
    var body := SignUpBody(params);
    SignUpBodyFields(params);
    Call("/user/create", RequestInit("POST", None, Some(JsonText(Obj(body)))))
  }

  /** Fields of `params` other than the four sign-up fields never reach the request. */
  lemma CreateDropsOtherFields(a: Object, b: Object)
    requires forall k :: k in SignUpFields ==> Lookup(a, k) == Lookup(b, k)
    ensures Create(a) == Create(b)
  {
    assert SignUpBody(a) == SignUpBody(b);
  }

  /** `resendVerificationEmail(params)`: POST only `User_Email` to `/user/resend-verification`. */
  function ResendVerificationEmail(params: Object): (c: Call)
    ensures c.endpoint == "/user/resend-verification" && '?' !in c.endpoint
    ensures c.init == RequestInit("POST", None, Some(JsonText(Obj([("User_Email", Lookup(params, "User_Email"))]))))
  {
    NoQueryInPaths();
    Call("/user/resend-verification",
         RequestInit("POST", None, Some(JsonText(Obj([("User_Email", Lookup(params, "User_Email"))])))))
  }

  /** `getFullProfile()`: GET `/user/profile`, with no body. */
  function GetFullProfile(): (c: Call)
    ensures c.endpoint == "/user/profile" && '?' !in c.endpoint
    ensures c.init == RequestInit("GET", None, None)
  {
    NoQueryInPaths();
    Call("/user/profile", RequestInit("GET", None, None))
  }

  /** The response-like record `create` and `resendVerificationEmail` return; `json()` yields `payload`. */
  datatype ResponseLike = ResponseLike(ok: bool, status: nat, payload: Payload)

  /**
   * The wrapping after `await this.makeRequest(...)`: a resolved call becomes
   * a record claiming success with status 200; anything else propagates as it
   * is, and no record is built.
   */
  function Wrap(settled: Outcome): (r: Result<ResponseLike, Outcome>)
    ensures r.Success? <==> settled.Resolved?
    ensures r.Success? ==> r.value.ok && r.value.status == 200 && r.value.payload == settled.payload
    ensures r.Failure? ==> r.error == settled
  {
    if settled.Resolved? then Success(ResponseLike(true, 200, settled.payload))
    else Failure(settled)
  }

  /**
   * The record hides the real success status: two successful JSON responses
   * with the same body are wrapped alike, whatever their statuses.
   */
  lemma WrapHidesStatus(status1: nat, status2: nat, statusText1: string, statusText2: string,
                        v: Value, text: string, bytes: seq<byte>)
    requires IsOk(status1) && IsOk(status2)
    ensures var body := ResponseBody(Parsed(v), text, bytes);
      && Wrap(Settle(Response(status1, statusText1, Some("application/json"), body)))
        == Success(ResponseLike(true, 200, JsonPayload(v)))
      && Wrap(Settle(Response(status2, statusText2, Some("application/json"), body)))
        == Success(ResponseLike(true, 200, JsonPayload(v)))
  {
    JsonRoundTrip(v, status1, statusText1, text, bytes);
    JsonRoundTrip(v, status2, statusText2, text, bytes);
  }
}
