# docmason-api client: a Dafny model of its decision logic

docmason-api is a TypeScript REST client for a document-templating and
PDF-generation service. Its network I/O is a thin layer. Around it sits
deterministic decision logic, and that logic is what this project models and
proves properties of:

- **Transport helper** (`BaseApi`, module `Transport`):
  - the constructor's key check and its default base URL;
  - the URL and the merged headers handed to `fetch`;
  - the classification of ok responses by content type;
  - the shaping of non-ok responses into an `ApiError`;
  - the outer `catch`;
  - `buildQueryParams`.
- **Client facade** (`DocMasonApi`, module `Facade`): a class holding the
  facade's configuration and the five modules whose configuration it
  overwrites on `updateConfig`, plus the redacted read `getConfig`.
- **Resource modules** (`TemplateApi`, `TemplateDataApi`, `TemplateRequestApi`,
  `UserApiApi`, `UserApi`): each operation is a function from its arguments to
  the call it makes. That call is an endpoint (path plus query) and the
  options (method, header overrides, body). Every query is proved to read
  back, through `Query.Target`, as its path and its entries in order.
- **`isUserDto`** (module `UserInterfaces`): the type guard over a small
  JavaScript value datatype. It includes the `TypeError` that a `null` input
  raises.
- **The `.env` line parser** of the package's smoke-test script (module
  `EnvFile`, `loadFromEnv`). It is a class holding the process environment,
  and its loop is proved against a function over the lines.

Two support modules hold what the client borrows from the language:

- `Js` covers JavaScript values and the built-ins the client relies on:
  property reads, truthiness, `typeof`, `String()`, object spread, and the
  `includes`, `split`, `join` and `trim` methods.
- `Query` covers the `URLSearchParams` serializer, that is the
  application/x-www-form-urlencoded serializer of section 5.2 of the WHATWG
  URL Standard, together with the splitting of a query back into its
  components.

The `Authorization` header has the `Bearer <key>` form of section 2.1 of
RFC 6750.

`fetch` is a parameter of `Transport.BaseApi.MakeRequest`: a function from the
request to what the network settles to. That is either a response (status,
status text, optional content type, and the body's three readings: JSON
parse, text and bytes) or a rejection. The result is an `Outcome`:

- `Resolved` with a JSON, text or bytes payload;
- `Threw` with the value thrown;
- `ParseRejected`, for an ok response whose body fails to parse. The parse
  promise is returned without `await`, so its rejection bypasses the outer
  `catch` and reaches the caller as the parser's own error.

How the code tests content types and statuses:

- The JSON test is `includes('application/json')`, so
  `application/problem+json` is not JSON by that test. It is still parsed as
  JSON, by the final fallback.
- The text test is `includes('text/')`, so the text may appear anywhere in
  the header, not only at its start.
- The binary test is `includes('application/pdf')` or
  `includes('application/octet-stream')`.
- A present content type that matches none of these tests is parsed as JSON,
  exactly like a missing one.
- A non-ok response whose body parses to `null` keeps the status line,
  because reading `errors` of `null` throws inside the inner `try`.
- A non-ok response that carries status 0 is rewrapped by the outer `catch`.

## Model

| member | source | states |
|---|---|---|
| Transport.WithDefaults | src/BaseApi.ts:8-11 | the configuration has a `baseUrl` key; its value is the production URL unless the caller's object has its own `baseUrl` key, which wins even when undefined; every other key reads as in the caller's object |
| Transport.Configure | src/BaseApi.ts:7-16 | construction succeeds iff the caller's `apiKey` is truthy, otherwise fails with `API key is required`; on success the result is the defaulted configuration |
| Transport.BaseApi.New | src/BaseApi.ts:7-16 | a new module object holds exactly the defaulted copy of the caller's object, or the key error when `apiKey` is missing or empty |
| Transport.BuildRequest | src/BaseApi.ts:22-33 | the URL is `String(baseUrl)` followed by the endpoint, with nothing inserted; the method and body pass through; `Authorization` and `Content-Type` come first; a header is present iff it is a default or the caller's; a caller's key of exactly the same spelling replaces the default, even with undefined |
| Transport.HeadersOrder | src/BaseApi.ts:24-28 | whatever the caller's headers, the two defaults keep the first two positions, in this order |
| Transport.HeadersLookup | src/BaseApi.ts:24-28 | caller headers override defaults key by key, case-sensitively; `Authorization` defaults to `Bearer <apiKey>` and `Content-Type` to `application/json` |
| Transport.ShapeError | src/BaseApi.ts:38-60 | the error has the response's status and a truthy message; it is the first `errors` item's `msg` when `errors` is an array and that `msg` is truthy, else the body's `message` when `errors` is not an array, else `HTTP <status>: <statusText>`; it carries `errors` iff the array is non-empty; an unparseable or non-object body gives the status line |
| Transport.Classify | src/BaseApi.ts:63-75 | an ok response resolves to JSON if the content type includes `application/json`, else to text if it includes `text/`, else to the bytes unchanged for PDF or octet-stream, else, when the header is missing or matches none of these tests, to JSON; a parse failure is the only rejection and carries the parser's message |
| Transport.Settle | src/BaseApi.ts:35-87 | ok responses are classified; a non-ok response with a non-zero status throws the shaped error unchanged; a non-ok response with status 0 is rewrapped by the outer `catch` with the shaped message, status 0 and no `errors`; a rejected fetch whose value has a truthy message and status is rethrown as it is, any other becomes `{message or 'Network error occurred', status 0}` without `errors`; a non-zero status on a thrown `ApiError` always comes from a non-ok response |
| Transport.StatusMeansResponse | src/BaseApi.ts:54-86 | status 0 on the client's error means the network failed or the response itself said 0; any other status is that of the non-ok response |
| Transport.JsonRoundTrip | src/BaseApi.ts:66-67 | an ok `application/json` response resolves to exactly the parsed value |
| Transport.PdfRoundTrip | src/BaseApi.ts:70-72 | an ok `application/pdf` response resolves to exactly the bytes received |
| Transport.PdfContentType | src/BaseApi.ts:66-70 | `application/pdf` matches neither the JSON nor the text test, and matches the PDF test |
| Transport.ValidationErrorExample | src/BaseApi.ts:44-46 | a 422 whose body lists one error surfaces that error's `msg`, status 422 and the list |
| Transport.ServerErrorExample | src/BaseApi.ts:39-52 | a 500 with an HTML body surfaces `HTTP 500: Internal Server Error` without `errors` |
| Transport.NetworkFailureExample | src/BaseApi.ts:82-86 | a rejected fetch surfaces its message with status 0; an empty message becomes `Network error occurred` |
| Transport.BaseApi.MakeRequest | src/BaseApi.ts:18-88 | the outcome is that of settling what `fetch` returns for the request built from the module's current configuration |
| Transport.KeptAllSet | src/BaseApi.ts:93-97 | when no value is undefined or null, every entry is kept, in order, stringified: `""`, `0` and `false` included |
| Transport.KeptAppend | src/BaseApi.ts:93-97 | the filter works entry by entry: the entries kept from a concatenation are those kept from each part, in order |
| Transport.KeptSnoc | src/BaseApi.ts:94-95 | the entry appended last is kept, stringified, iff its value is neither undefined nor null |
| Transport.KeptOne | src/BaseApi.ts:94-95 | a single entry is kept, stringified, iff its value is neither undefined nor null |
| Transport.QueryStringRoundTrip | src/BaseApi.ts:90-100 | splitting the built query string gives back exactly the kept entries, in order, form-encoded; the string holds no `?` |
| Transport.BaseApi.BuildQueryParams | src/BaseApi.ts:90-100 | the loop appends exactly the kept entries and the result is their serialization |
| Transport.EndpointTarget | src/modules/TemplateApi.ts:53 | an endpoint `path?query` reads back as the path and the kept entries, form-encoded |
| Transport.ByKeyTarget | src/modules/TemplateApi.ts:28-33 | a query naming one record reads back as exactly that one entry |
| Transport.TwoKeysTarget | src/modules/TemplateRequestApi.ts:86-89 | a query of two strings reads back as those two entries, in that order |
| Transport.TwoKeysKept | src/modules/TemplateApi.ts:127-130 | both string entries of a two-key query are kept, in order |
| Transport.PageQueryTarget | src/modules/TemplateApi.ts:44-55 | a `list` query reads back as the leading entries, then `from`, `to`, then the name filter only when it is given and non-empty |
| Transport.PageKept | src/modules/TemplateApi.ts:44-51 | the kept entries of a `list` query are the leading ones, `from`, `to`, and the name only when non-empty |
| Facade.DocMasonApi.New | src/DocMasonApi.ts:17-26 | construction fails with the key error iff `apiKey` is missing or empty; otherwise the facade stores the caller's object itself, and all five modules hold the same defaulted copy |
| Facade.DocMasonApi.UpdateConfig | src/DocMasonApi.ts:31-40 | the stored configuration becomes the shallow merge of the old one and the update, and every module then holds that same configuration |
| Facade.DocMasonApi.GetConfig | src/DocMasonApi.ts:45-50 | the view is the stored `baseUrl` and whether the stored key is truthy |
| Facade.RedactHidesKey | src/DocMasonApi.ts:45-50 | two configurations that differ only in the key's value, not in its truthiness, give the same view: the key never appears |
| Facade.UpdateDropsDefaultBaseUrl | src/DocMasonApi.ts:18-39 | for a client built without `baseUrl`, requests go to the production URL until an update that supplies no `baseUrl`, after which every URL starts with `undefined` |
| Facade.ReportedBaseUrlDiffers | src/DocMasonApi.ts:47 | for a client built without `baseUrl`, `getConfig` reports undefined while the modules use the production URL |
| Facade.UpdateAcceptsEmptyKey | src/DocMasonApi.ts:31-40 | an update to an empty key is not checked: the modules send `Bearer ` and the view reports no key |
| TemplateApi.Create | src/modules/TemplateApi.ts:18-23 | POST to `/template`, no query, body the serialised params |
| TemplateApi.Get | src/modules/TemplateApi.ts:28-33 | GET `/template` with the single query entry `Template_guid`, no body |
| TemplateApi.List | src/modules/TemplateApi.ts:38-56 | GET `/template/list` with `from`, `to`, then `Template_Name` last only when it is non-empty |
| TemplateApi.Update | src/modules/TemplateApi.ts:61-79 | PATCH `/template` with `Template_guid`, body the serialised updates |
| TemplateApi.Delete | src/modules/TemplateApi.ts:84-89 | DELETE `/template` with `Template_guid`, no body |
| TemplateApi.Preview | src/modules/TemplateApi.ts:94-102 | POST to `/template/preview`, no query, body the serialised params |
| TemplateApi.GeneratePdf | src/modules/TemplateApi.ts:108-116 | POST to `/template/pdf`, no query, body the serialised params |
| TemplateApi.UploadAsset | src/modules/TemplateApi.ts:122-140 | POST to `/template/upload-asset` with `Template_guid` then `assetName`, `Content-Type` overridden by undefined, and the asset's bytes sent as they are |
| TemplateApi.UploadAssetHeaders | src/modules/TemplateApi.ts:134-138 | with that override the merged headers are exactly `Authorization` (the configured bearer) and `Content-Type` (undefined) |
| TemplateApi.GeneratePdfBuffer | src/modules/TemplateApi.ts:145-159 | a failure of `generatePdf` propagates unchanged, and a bytes result is passed on unchanged |
| TemplateApi.GeneratePdfBufferBytes | src/modules/TemplateApi.ts:145-159 | for an ok PDF response, `generatePdfBuffer` yields exactly the bytes that arrived |
| TemplateDataApi.Create | src/modules/TemplateDataApi.ts:19-24 | POST to `/template-data`, no query, body the serialised params |
| TemplateDataApi.Get | src/modules/TemplateDataApi.ts:29-34 | GET `/template-data` with the single entry `TemplateData_guid`, no body |
| TemplateDataApi.List | src/modules/TemplateDataApi.ts:39-59 | GET `/template-data/list` with `Template_guid`, `from`, `to`, then `TemplateData_Name` only when it is non-empty |
| TemplateDataApi.ListTarget | src/modules/TemplateDataApi.ts:45-58 | the `list` endpoint reads back as its path and those entries in that order |
| TemplateDataApi.Update | src/modules/TemplateDataApi.ts:64-70 | PATCH `/template-data` with `TemplateData_guid`, body the serialised updates |
| TemplateDataApi.Delete | src/modules/TemplateDataApi.ts:75-80 | DELETE `/template-data` with `TemplateData_guid`, no body |
| TemplateDataApi.Validate | src/modules/TemplateDataApi.ts:85-93 | POST to `/template-data/validate`, no query, body the serialised params |
| TemplateDataApi.Apply | src/modules/TemplateDataApi.ts:98-106 | POST to `/template-data/apply`, no query, body the serialised params |
| TemplateDataApi.ApplyAndGeneratePdf | src/modules/TemplateDataApi.ts:111-119 | POST to `/template-data/apply/pdf`, no query, body the serialised params |
| TemplateRequestApi.Create | src/modules/TemplateRequestApi.ts:18-23 | POST to `/template-request`, no query, body the serialised params |
| TemplateRequestApi.Get | src/modules/TemplateRequestApi.ts:28-33 | GET `/template-request` with the single entry `TemplateRequest_guid`, no body |
| TemplateRequestApi.List | src/modules/TemplateRequestApi.ts:38-56 | GET `/template-request/list` with `from`, `to`, then `TemplateRequest_Name` only when it is non-empty |
| TemplateRequestApi.Update | src/modules/TemplateRequestApi.ts:61-67 | PATCH `/template-request` with `TemplateRequest_guid`, body the serialised updates |
| TemplateRequestApi.Delete | src/modules/TemplateRequestApi.ts:72-77 | DELETE `/template-request` with `TemplateRequest_guid`, no body |
| TemplateRequestApi.GetStats | src/modules/TemplateRequestApi.ts:82-93 | GET `/template-request/stats` with `startDate` then `endDate`, for any strings whatever: no date validation |
| UserApiApi.Create | src/modules/UserApiApi.ts:18-23 | POST to `/userapi`, no query, body the serialised params |
| UserApiApi.List | src/modules/UserApiApi.ts:28-32 | GET `/userapi/list` with no query string and no body |
| UserApiApi.Get | src/modules/UserApiApi.ts:37-42 | GET `/userapi` with the single entry `UserApi_guid`, no body |
| UserApiApi.Update | src/modules/UserApiApi.ts:47-53 | PATCH `/userapi` with `UserApi_guid`, body the serialised params |
| UserApiApi.Delete | src/modules/UserApiApi.ts:58-63 | DELETE `/userapi` with `UserApi_guid`, no body |
| UserApiApi.Verify | src/modules/UserApiApi.ts:68-73 | POST to `/userapi/verify` with the body `{UserApi_Key: apiKey}` |
| UserApiApi.VerifyCarriesAuthorization | src/modules/UserApiApi.ts:68-73 | the verify request still authenticates with the configured key and the JSON content type; the key being checked travels only in the body |
| UserApi.SignUpBodyFields | src/modules/UserApi.ts:15-23 | the sign-up body has exactly the four named fields, in order, each read from the caller's object |
| UserApi.Create | src/modules/UserApi.ts:8-31 | POST to `/user/create` with a body of exactly `User_Name`, `User_Email`, `User_Password`, `User_TermsOfService` |
| UserApi.CreateDropsOtherFields | src/modules/UserApi.ts:15-23 | two caller objects that agree on the four fields give the same request: every other field is dropped |
| UserApi.ResendVerificationEmail | src/modules/UserApi.ts:36-50 | POST to `/user/resend-verification` with a body of only `User_Email` |
| UserApi.GetFullProfile | src/modules/UserApi.ts:55-59 | GET `/user/profile` with no body |
| UserApi.Wrap | src/modules/UserApi.ts:26-30 | a record is built iff the call resolved; it always says `ok: true` and status 200, and its `json()` yields exactly the resolved payload; a failure propagates unchanged |
| UserApi.WrapHidesStatus | src/modules/UserApi.ts:26-30 | two ok JSON responses with the same body but different statuses are wrapped alike |
| UserInterfaces.IsUserDto | src/interfaces/UserInterfaces.ts:9-15 | the guard throws iff the input is `null`; otherwise it holds iff the input is an object whose `User_guid` and `User_Name` are strings, whose `User_Active` is a boolean and whose `User_Type` is one of the four types |
| UserInterfaces.NonObjectsRejected | src/interfaces/UserInterfaces.ts:10 | strings, numbers, booleans, undefined and arrays give false without a throw |
| UserInterfaces.OnlyFourFieldsInspected | src/interfaces/UserInterfaces.ts:11-14 | objects that agree on the four fields get the same answer, whatever their other properties |
| UserInterfaces.UserTypeCaseSensitive | src/interfaces/UserInterfaces.ts:14 | `pro` is accepted and `Pro` is not |
| EnvFile.ProcessEnv.LoadFromEnv | test-package.js:5-16 | with no file nothing changes; otherwise the environment becomes the old one with every line, in order, applied |
| EnvFile.NoEqualsIgnored | test-package.js:10-11 | a line without `=` sets nothing |
| EnvFile.Assignment | test-package.js:10-12 | `key=value` sets the trimmed key to the trimmed value iff both pieces are non-empty before trimming; text after a second `=` is lost |
| EnvFile.LastAssignmentWins | test-package.js:9-14 | a key holds the value of the last line that sets it |
| EnvFile.UnsetKeyUnchanged | test-package.js:9-14 | a key no line sets keeps its old value, or stays unset |
| EnvFile.BlankValueStoredEmpty | test-package.js:11-12 | `KEY=` followed by blanks is accepted and stores the empty string |
| EnvFile.CarriageReturnRemoved | test-package.js:12 | the carriage return of a CRLF line is trimmed from the value |
| Js.Spread | src/DocMasonApi.ts:32 | `{...base, ...overlay}` has the base's keys followed by the overlay's new ones; a key is present iff either has it; the overlay's value wins, even undefined |
| Js.PutKeys | src/BaseApi.ts:24-28 | writing a property keeps an own key in its position and appends a new one |
| Js.PutLookup | src/BaseApi.ts:24-28 | after a write, the written key reads as the written value and every other key as before |
| Js.PutDistinct | src/BaseApi.ts:24-28 | a write never duplicates a key |
| Js.LookupMissing | src/BaseApi.ts:22 | reading a key an object lacks gives undefined |
| Js.NatToString | src/BaseApi.ts:95 | `String(n)` is a non-empty run of decimal digits with no leading zero unless `n` is 0 |
| Js.Split | test-package.js:9-10 | `split` always gives at least one piece |
| Js.SplitPieces | test-package.js:9-10 | no piece holds the separator, and joining the pieces with it gives the string back |
| Js.SplitJoin | src/BaseApi.ts:99 | splitting undoes joining when no piece holds the separator |
| Js.TrimStartSpec | test-package.js:12 | the result is a suffix of the input; the part removed is white space, and the result starts with none |
| Js.TrimEndSpec | test-package.js:12 | the result is a prefix of the input; the part removed is white space, and the result ends with none |
| Js.TrimSpec | test-package.js:12 | `trim` never lengthens; the result neither starts nor ends with white space; a string already so is unchanged |
| Query.Utf8 | src/BaseApi.ts:99 | one code point gives one to four bytes, a single byte, itself, iff it is ASCII |
| Query.EncodeSafe | src/BaseApi.ts:99 | an encoded name or value holds only form-safe characters, so no `&`, `=`, `?` or `#` survives |
| Query.EncodeUnreserved | src/BaseApi.ts:99 | unreserved text is written unchanged |
| Query.ComponentShape | src/BaseApi.ts:99 | a `name=value` component is non-empty, holds no `&` or `?`, and cuts at its first `=` into the encoded name and value |
| Query.QueryPairsOfSerialize | src/BaseApi.ts:99 | splitting a serialized query gives back every pair, in order, encoded; it holds no `?` |
| Query.TargetWithQuery | src/BaseApi.ts:99 | `path?query` parses back to the path and the encoded pairs |
| Query.TargetWithoutQuery | src/modules/TemplateApi.ts:18-23 | an endpoint with no `?` is all path and has no query |

## Left out

- `src/fetch.ts`: the runtime detection of `globalThis.fetch`, `global.fetch` and the `node-fetch` require depends on the host and module loading. `fetch` is a parameter instead.
- The network, body streaming and `async` scheduling are not modelled. A response is an input value, and the race between `updateConfig` and in-flight requests is not modelled.
- The `JSON.parse` and `JSON.stringify` grammars are not modelled. A request body `JsonText(v)` stands for `JSON.stringify(v)`, and `JSON.stringify` dropping undefined-valued properties is not modelled. A response body's parse is given as a value or a syntax error.
- Numbers are integers, so `String()` on fractional numbers (floating-point formatting) is not modelled.
- What the runtime does with a header whose value is undefined is not modelled; only the merged header record is.
- `Query`: the splitting back of a query string does not percent-decode. Pairs are compared in encoded form, which is enough for order and filtering.
- `Query.Utf8`: lone surrogates are not distinguished. `char` is a Unicode scalar value here.
- Configurations are values, so JavaScript object aliasing is not modelled. `DocMasonApi` stores the caller's object itself (`src/DocMasonApi.ts:18`). If the caller later mutates that object, what `getConfig` reports and what the next `updateConfig` merges from change with it (`src/DocMasonApi.ts:32,47`). In the model, the stored configuration changes only through `Facade.DocMasonApi.UpdateConfig`.
- Properties are own, non-numeric keys. Prototype properties, array-index keys and `length` are not modelled.
- TemplateApi.GeneratePdfBuffer: the host-dependent choice between `Buffer` and `Uint8Array` is identity on the bytes. A resolved JSON or text payload is passed on unchanged by the model and its contract says nothing about it. In Node, `Buffer.from` would convert such a payload or reject with a `TypeError`, so the call may then fail where the model resolves.
- The no-query operations state their endpoint as the literal path with no `?`. Reading it back with `Target` is `Query.TargetWithoutQuery`.
- `EnvFile`: `process.env` coerces values and rejects some keys. Neither is modelled: the environment is a map from strings to strings.
- The rest of `test-package.js` is not modelled: file reads and writes, live calls, the PDF header check and `process.exit`.
- `src/index.ts`, `src/types.ts` and the other interface files are declarations only. They shape the datatypes, for example `ApiError` after `src/types.ts:13-21`.
- The demo scripts `basic-usage.ts` and `browser-usage.ts` are not part of this model.
