/**
 * The client facade (`DocMasonApi`): the configuration the facade keeps,
 * the five resource modules built from the caller's object, the shallow
 * merge that `updateConfig` pushes into every module, and the redacted
 * read of `getConfig`.
 */
module Facade {
  import opened Wrappers
  import opened Js
  import opened Transport

  /** What `getConfig` returns: the stored base URL and whether a key is set, never the key. */
  datatype ConfigView = ConfigView(baseUrl: Value, hasApiKey: bool)

  /** `{ baseUrl: config.baseUrl, hasApiKey: !!config.apiKey }`. */
  function Redact(config: Object): ConfigView
  {
    ConfigView(Lookup(config, "baseUrl"), Truthy(Lookup(config, "apiKey")))
  }

  /**
   * The view depends on the key only through whether it is truthy: two
   * configurations that differ only in their (both set or both unset) keys
   * are reported alike.
   */
  lemma RedactHidesKey(a: Object, b: Object)
    requires forall k :: k != "apiKey" ==> Lookup(a, k) == Lookup(b, k)
    requires Truthy(Lookup(a, "apiKey")) == Truthy(Lookup(b, "apiKey"))
    ensures Redact(a) == Redact(b)
  {
    assert Lookup(a, "baseUrl") == Lookup(b, "baseUrl");
  }

  class DocMasonApi {
    /** The caller's object as given, later merged with each update. */
    var config: Object
    const template: BaseApi
    const templateData: BaseApi
    const templateRequest: BaseApi
    const userApi: BaseApi
    const user: BaseApi

    /** Every module holds the same configuration. */
    predicate ModulesAgree()
      reads this, template, templateData, templateRequest, userApi, user
    {
      && templateData.config == template.config
      && templateRequest.config == template.config
      && userApi.config == template.config
      && user.config == template.config
    }

    constructor Assemble(config: Object, template: BaseApi, templateData: BaseApi,
                         templateRequest: BaseApi, userApi: BaseApi, user: BaseApi)
      ensures this.config == config
      ensures this.template == template && this.templateData == templateData
      ensures this.templateRequest == templateRequest && this.userApi == userApi && this.user == user
    {
      this.config := config;
      this.template := template;
      this.templateData := templateData;
      this.templateRequest := templateRequest;
      this.userApi := userApi;
      this.user := user;
    }

    /**
     * `new DocMasonApi(config)`: the facade keeps the caller's object itself,
     * while each module keeps its own defaulted copy. The first module's
     * constructor throws on a missing key, before any other is built.
     */
    static method New(config: Object) returns (r: Result<DocMasonApi, string>)
      ensures r.Success? <==> Truthy(Lookup(config, "apiKey"))
      ensures r.Failure? ==> r.error == MissingKeyMessage
      ensures r.Success? ==> fresh(r.value) && r.value.config == config
      ensures r.Success? ==> r.value.ModulesAgree() && r.value.template.config == WithDefaults(config)
    {
      var first := BaseApi.New(config);
      if first.Failure? {
        return Failure(first.error);
      }
      // the same object passes the same check in the other four constructors
      var templateData := new BaseApi.Adopt(WithDefaults(config));
      var templateRequest := new BaseApi.Adopt(WithDefaults(config));
      var userApi := new BaseApi.Adopt(WithDefaults(config));
      var user := new BaseApi.Adopt(WithDefaults(config));
      var api := new DocMasonApi.Assemble(config, first.value, templateData, templateRequest, userApi, user);
      return Success(api);
    }

    /**
     * `updateConfig(newConfig)`: the stored object with the update's keys laid
     * over it, then handed to all five modules. No key check is made.
     */
    method UpdateConfig(update: Object)
      modifies this, template, templateData, templateRequest, userApi, user
      ensures config == Spread(old(config), update)
      ensures template.config == config && ModulesAgree()
    {
      config := Spread(config, update);
      template.config := config;
      templateData.config := config;
      templateRequest.config := config;
      userApi.config := config;
      user.config := config;
    }

    /** `getConfig()`. */
    function GetConfig(): (view: ConfigView)
      reads this
      ensures view == Redact(config)
    {
      Redact(config)
    }
  }

  /**
   * A client built without a `baseUrl` sends its requests to the production
   * URL until its first update; an update that supplies no `baseUrl` then
   * leaves the modules without one, and every URL starts with "undefined".
   */
  lemma {:induction false} UpdateDropsDefaultBaseUrl(config: Object, update: Object, endpoint: string, init: RequestInit)
    requires !HasKey(config, "baseUrl") && !HasKey(update, "baseUrl")
    ensures BuildRequest(WithDefaults(config), endpoint, init).url == DefaultBaseUrl + endpoint
    ensures BuildRequest(Spread(config, update), endpoint, init).url == "undefined" + endpoint
  {
    LookupMissing(config, "baseUrl");
    LookupMissing(update, "baseUrl");
  }

  /**
   * `getConfig` reports the facade's stored base URL, which for a client
   * built without one is undefined while the modules use the production URL.
   */
  lemma {:induction false} ReportedBaseUrlDiffers(config: Object)
    requires !HasKey(config, "baseUrl")
    ensures Redact(config).baseUrl == Undefined
    ensures Lookup(WithDefaults(config), "baseUrl") == Str(DefaultBaseUrl)
  {
    LookupMissing(config, "baseUrl");
  }

  /**
   * An update may clear the key: the modules then send `Bearer ` with
   * nothing after it, and the view reports that no key is set.
   */
  lemma UpdateAcceptsEmptyKey(config: Object, endpoint: string, init: RequestInit)
    requires init.headers.None?
    ensures var merged := Spread(config, [("apiKey", Str(""))]);
      && Lookup(BuildRequest(merged, endpoint, init).headers, "Authorization") == Str("Bearer ")
      && !Redact(merged).hasApiKey
  {
    var update: Object := [("apiKey", Str(""))];
    assert Keys(update) == ["apiKey"];
    assert "Bearer " + "" == "Bearer ";
    assert "apiKey" != "baseUrl";
  }
}
