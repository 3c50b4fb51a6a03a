# cloudflare-access-webhook-redirect, modelled in Dafny

The service takes webhook calls on any path and relays them to an upstream
host that sits behind Cloudflare Access. It relays only the calls that its
configuration allows. An allowed call goes upstream with the same method. Its
query string is decoded into a key/value map and sent re-encoded from that map.
Its headers go along except `host` and those whose values are not valid
outbound header values. The body goes along only for POST, PUT and PATCH. The
two Access credential headers are appended. Any other call to a routed method
(GET, POST, PUT, PATCH, DELETE) gets 404.

This project models the core of that service:

- **Configuration** (`config.dfy`, module `Config`). The `WEBHOOK.PATHS` setting
  is written `path:M1,M2; path2:M3`. Method tokens are upper-cased and parsed
  into `AllowedMethod`. A set of them becomes an `AllowedPath`; a map of
  them becomes the table of allowed paths.
- **Allowed-path table** (`webhook.dfy`, module `Webhook`). Every configured
  path is anchored with `^`/`$` and compiled into one pattern set. A path and
  method are allowed when some matching pattern permits the method.
  `WebHookData` holds the upstream base URL and the two credentials as header
  values.
- **Converter** (`converter.dfy`, module `Converter`). It reads the inbound
  body stream and translates the inbound headers.
- **Route handler** (`redirect.dfy`, module `Redirect`). `get_config` routes
  GET/POST/PUT/PATCH/DELETE on every path. `post_redirect` runs its fixed
  sequence of steps, and `ReqwestBuilder` shapes the outbound request.

Supporting modules:

- `results.dfy`: the `Result`/`Option` types.
- `errors.dfy`: the crate error enum.
- `http.dfy`: methods, headers, URLs and error responses.
- `strings.dfy`: `str::split`, joining and `str::to_uppercase`.
- `literal_patterns.dfy`: a concrete pattern engine for patterns without
  regex operators, used for the exact-path cases.
- `scenarios.dfy`: the repository's own unit-test cases, restated.

Collaborators the core calls but does not implement are parameters of the model:

- `Webhook.RegexEngine`: whether a pattern compiles, and whether it matches a path.
- `Redirect.Environment`: `Url::join`, `HeaderValue` validity, query-string
  decoding and the upstream send.

HashMap and HashSet iteration order is left open: the loops take elements
with `:|`.

Header names are modelled as the HTTP library stores them, in lower case: the
type `Http.HeaderName` admits no upper-case ASCII letter. So
the credential headers written `CF-Access-Client-Id` and
`CF-Access-Client-Secret` in src/routes/redirect.rs appear here as
`cf-access-client-id` and `cf-access-client-secret`.

`post_redirect` returns the outcome together with the steps it took
(`Redirect.Handled`). This makes "404 before any other work" and "each
failure names its step" statable.

## Model

| member | source | states |
|---|---|---|
| Webhook.Anchor | src/data/webhook.rs:67-75 | the key always ends up starting with `^` and ending with `$`; it is unchanged exactly when it was already anchored at both ends; it grows by at most two characters |
| Webhook.AnchorNeverDoubles | src/data/webhook.rs:68-75 | anchoring never produces a leading `^^` or a trailing `$$` that the key did not already have |
| Webhook.AnchorIdempotent | src/data/webhook.rs:68-75 | anchoring an anchored key changes nothing |
| Webhook.EscapeRegexes | src/data/webhook.rs:63-80 | the escaped map's keys are exactly the anchored input keys; each value is the value of some input key that anchors to it |
| Webhook.EscapedValuesCarryOver | src/data/webhook.rs:63-80 | when no two keys anchor alike, every value is carried over to its key's anchored form |
| Webhook.MatchIndices | src/data/webhook.rs:93 | the match set holds exactly the indices of the patterns that match the path |
| Webhook.AllowedPaths.IsAllowed | src/data/webhook.rs:92-99 | true exactly when some compiled pattern matches the path, has a permissions entry, and that entry permits the method |
| Webhook.New | src/data/webhook.rs:82-90 | fails, with the regex error, exactly when some anchored key does not compile; on success the table is consistent, its keys are the anchored keys, and each entry comes from a key that anchors to it |
| Webhook.UnionSemantics | src/data/webhook.rs:92-99 | on a consistent table, a path is allowed exactly when some pattern that matches it permits the method |
| Webhook.MorePatternsNeverRevoke | src/data/webhook.rs:92-99 | adding patterns, or widening a pattern's methods, never turns an allowed path/method into a refused one |
| Webhook.AllMeansEveryMethod | src/data/webhook.rs:110-112 | `AllowedPath.IsAllowed` permits every method exactly when the entry's `all` flag is set; a list of methods never stands in for it |
| Webhook.EmptyTableAllowsNothing | src/data/webhook.rs:92-99 | a table without entries allows no path, whatever the engine |
| Webhook.NewWebHookData | src/data/webhook.rs:23-41 | succeeds exactly when both secrets are valid header values; an invalid id fails first with its own message, then an invalid secret with its own; on success the fields are the inputs |
| Webhook.WebHookData.GetTargetUrl | src/data/webhook.rs:43-47 | succeeds exactly when joining the path onto the base URL succeeds, giving the joined URL; otherwise the error carries the join's message after `Failed to join URL: ` |
| Webhook.WebHookData.IsAllowedPath | src/data/webhook.rs:49-51 | on a consistent table, the answer is that some matching pattern permits the method |
| Config.Name | src/config.rs:112-121 | every variant's name is at least three upper-case ASCII letters |
| Config.NameInjective | src/config.rs:112-121 | distinct variants have distinct names |
| Config.ParseMethod | src/config.rs:127-137 | succeeds exactly when the upper-cased token is some variant's name, and returns that variant; otherwise the error quotes the token |
| Config.ParseName | src/config.rs:127-137 | a variant's own name parses back to that variant |
| Config.ParseIgnoresCase | src/config.rs:127-137 | any spelling of a name that differs only in ASCII letter case parses to the same variant |
| Config.ToHttpMethod | src/config.rs:175-189 | fails exactly for ALL; every other variant becomes the standard (non-extension) method of the same name |
| Config.ConvertsToNamed | src/config.rs:182 | a non-ALL variant converts to the standard method whose name is its name |
| Http.MethodFromStr | src/config.rs:182 | a name parses exactly when it is a non-empty token; the method parsed has that name, and is an extension method exactly when the name is not one of the nine standard names |
| Http.StandardNameParses | src/config.rs:182 | each standard method's own name parses to that standard method |
| Config.ToAllowedPath | src/config.rs:156-169 | never fails; `all` is set exactly when ALL is present; the methods are exactly the conversions of the other members |
| Config.ResolveCardinality | src/config.rs:156-169 | the method set has exactly as many members as the configured set without ALL |
| Config.ResolvePermits | src/config.rs:156-169 | the resolved entry permits a method exactly when ALL is configured or a variant of that name is |
| Config.ToAllowedPaths | src/config.rs:143-150 | fails, with the regex error, exactly when some anchored path does not compile; on success each anchored path holds the resolution of its configured methods |
| Config.ParseMethods | src/config.rs:88-92 | succeeds exactly when every token names a variant, giving exactly the variants named; otherwise it fails with the first unknown token, upper-cased |
| Config.ParseMethodsNames | src/config.rs:88-92 | the names of a list of variants parse back to the set of those variants |
| Config.ParseEntry | src/config.rs:75-94 | an entry without `:` fails with `Methods are missing`; otherwise, over the comma-separated tokens after the first `:`, it succeeds exactly when every token names a variant, giving exactly the variants named, and fails on the first unknown token with its upper-cased text; a parsed path is the text before the first `:` and contains no `:` |
| Config.EntryRoundTrip | src/config.rs:75-94 | an entry written as `path:NAME,NAME` (path without `:`) parses back to that path and the set of those variants |
| Config.CollectResults | src/config.rs:73-96 | collects when every item parses, in order and item by item; otherwise fails with the first failing item's error |
| Config.InsertAll | src/config.rs:73-96 | the map holds exactly the parsed paths, each mapped to the methods of the last entry naming it |
| Config.DeserializePaths | src/config.rs:65-99 | succeeds exactly when every `"; "`-separated entry parses; otherwise fails with the first bad entry's error; on success the map records the entries, later ones overriding earlier ones |
| Config.SettingRoundTrip | src/config.rs:65-99 | a setting written out from entries over plain paths reads back as those entries, a later entry for a path overriding an earlier one |
| Strings.Split | src/config.rs:74-76 | the pieces rejoin to the input, none contains the separator, and there is one piece exactly when the separator does not occur |
| Strings.SplitJoin | src/config.rs:74-76 | splitting the join of pieces that cannot hide the separator gives the pieces back |
| Strings.UpperIdempotent | src/config.rs:90 | upper-casing twice is upper-casing once |
| Strings.UpperIgnoresAsciiCase | src/config.rs:128 | words equal up to ASCII letter case upper-case to the same upper-case word |
| Converter.HostDroppedInAnySpelling | src/converter.rs:9-11 | `IsValidHeaderName` refuses a stored name exactly when it spells `host` in some letter case, so a client's `Host` is dropped however it was written |
| Converter.ConvertHeaders | src/converter.rs:26-44 | never fails; no `host` header and no invalid value is forwarded; the result is no longer than the input |
| Converter.ConvertHeadersKeepsForwarded | src/converter.rs:34-41 | every forwardable header occurs in the result as often as in the input, repeated names included; no other header occurs |
| Converter.ConvertHeadersAppend | src/converter.rs:34-41 | headers are translated one at a time in iteration order, so translation distributes over concatenation |
| Converter.ForwardableHeadersUnchanged | src/converter.rs:9-11 | when every header may be forwarded, the headers come through unchanged and in order |
| Converter.ReadFrom | src/converter.rs:17-20 | reading succeeds exactly when the stream never breaks, giving the accumulated bytes followed by every chunk's bytes; otherwise it fails with the first broken chunk's error |
| Converter.ConvertBody | src/converter.rs:13-24 | the body is the concatenation of all chunks when the stream never breaks; otherwise the first break's error |
| Converter.ConcatAppend | src/converter.rs:17-20 | the bytes of two streams read one after the other are the two byte strings concatenated |
| Converter.ToErrorResponse | src/converter.rs:53-57 | a converter error becomes a 400 that carries the payload error |
| Redirect.Build | src/routes/redirect.rs:126-166 | builds exactly for GET/POST/PUT/PATCH/DELETE, else fails naming the method; the method, URL and headers are kept; a body is attached exactly for POST/PUT/PATCH or when already requested; the query is always attached |
| Redirect.NewBuilder | src/routes/redirect.rs:97-116 | a fresh builder asks for neither body nor query, so the request it builds is decided by the verb alone: inbound method, URL and headers, the body only for POST/PUT/PATCH, the query always |
| Redirect.FreshBuilderPolicy | src/routes/redirect.rs:98-116 | a newly made builder carries a body exactly for POST/PUT/PATCH and always the query |
| Redirect.PostRedirect | src/routes/redirect.rs:21-83 | 404 exactly when the path/method is not allowed, before any other step; the steps taken are a prefix of the fixed order; every failure is a 400; a relayed call took every step |
| Redirect.RelayedRequestShape | src/routes/redirect.rs:34-76 | a relayed request has the inbound method, the joined URL, the whole body only for POST/PUT/PATCH, the decoded query, and the translated headers with the two credentials appended after them |
| Redirect.CredentialsAlwaysAttached | src/routes/redirect.rs:43-52 | the two credentials are always appended after the translated headers; no `host` header is forwarded; a client-sent header with the id's name is forwarded as well, not replaced |
| Redirect.StepsRunInOrder | src/routes/redirect.rs:29-76 | a call gets past a step only when it succeeded, in source order: the path is allowed, then the URL joins, then the body reads, then the query decodes, then the method is routed |
| Redirect.FailureNamesItsStep | src/routes/redirect.rs:34-76 | the step where a call stopped fixes its error: URL join, body, query or send errors each carry their own cause, and a send failure carries the error the upstream call returned for the request built from the joined URL, the body, the translated headers with the credentials and the decoded query; authorization and header translation never fail |
| Redirect.Serve | src/routes/redirect.rs:10-19 | exactly the five routed methods reach the handler, and for them the request builder never rejects the method |
| LiteralPatterns.AnchoredPatternAdmitsOnlyItsLiteral | src/data/webhook.rs:62-75 | once anchored, a pattern without regex operators matches only its own literal text |
| LiteralPatterns.AnchoringStopsPartialMatches | src/data/webhook.rs:306-322 | the bare pattern `/test/` matches inside `/d/test/d`; anchored, it does not |
| LiteralPatterns.LiteralTableAllowsListedPathsOnly | src/data/webhook.rs:92-99 | under the literal engine, a consistent table allows a path exactly when some entry's literal text is that path and the entry permits the method |
| Scenarios.FullSetResolves | src/config.rs:279-291 | the full method set resolves to `all` with five concrete methods |
| Scenarios.TwoPlainPaths | src/data/webhook.rs:224-256 | two plain paths configured for ALL give a table that admits exactly those two paths, for every method |

## Left out

- src/server.rs is not part of this model. It holds an older request handler that the route module supersedes: an unanchored `RegexSet::is_match`, the body always sent with PUT, and a POST-only route.
- src/main.rs is not part of this model. It sets up logging, reads and prints the configuration, and starts no server.
- src/routes/health_check.rs is not part of this model. It answers GET `/health` with 200.
- src/lib.rs is not part of this model. It only declares the crate's modules and its `Result` alias.
- `Config::get_configuration` is not modelled. It reads environment variables and files. `deserialize_url_from_string` wraps `Url::parse`, which is a library call.
- Regular expressions are not modelled. Compilation and matching are the `RegexEngine` parameter. The literal engine covers only patterns without regex operators, so the unit tests that use `\d*` are not restated.
- Anchoring does not anchor a top-level alternation. With `/a|/b`, the anchored `^/a|/b$` still matches `/b` anywhere at the end. A literal engine cannot express this, so it is only noted here.
- The query string is decoded into a `HashMap` and the outbound query is encoded from it. Repeated keys keep one value and the key order is lost; the model passes the decoded map through and does not model the encoding.
- `Url::join`, header-value validity, query-string decoding and the upstream send are collaborators. They are parameters, and their own behaviour is not modelled.
- Secrets are modelled as the bytes of their exposed text. The UTF-8 encoding of the text is not modelled.
- The capacity hints (`with_capacity`, `additional_headers`) do not change any result and are ignored. Logging is also ignored.
- Iteration order is not modelled:
  - A header map is a sequence in iteration order.
  - The HashMap/HashSet order is left open by `:|`.
  - How the actix header map groups repeated names is not modelled.
  - The outbound header map is modelled as the sequence of `append` calls. The client's `HeaderMap` groups values by name, so a client-sent `cf-access-client-id` would be iterated directly before the appended credential, not after every other header; the contracts about header order speak of the sequence of `append` calls.
- Webhook.New: building fails only when some anchored key does not compile. A pattern set can also fail on the size limit of the set as a whole; that limit is not modelled.
- Webhook.EscapeRegexes: when two keys anchor to the same pattern (`/x` and `^/x$`), the contract does not say which value survives. In the source this depends on hash order.
- Config.ParseEntry: the "Path is missing" branch is not modelled. `split` always yields a first piece, so that branch cannot be reached.
- Config.ToHttpMethod: the error when `Method::from_str` fails is modelled, but it cannot occur. Every variant's name is a valid token.
- `str::to_uppercase` is modelled for ASCII, plus the non-ASCII characters whose upper case is ASCII (dotless i, long s, sharp s, the Latin ligatures). Every other character is left unchanged. This affects only the text of error messages.
- The response conversion `ReqwestToActixConverter::convert_response` is not part of this model, so a relayed outcome carries the upstream response as received.
- Redirect.PostRedirect: at src/routes/redirect.rs:44-45 the source uses the result of the async `convert_headers` without awaiting it. The model treats the call as synchronous and never failing, as the function itself is written.
- Redirect.Serve: the framework extracts the path tail from the URL. The framework's answer to methods that are not routed is also not modelled.
