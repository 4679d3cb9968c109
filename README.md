# Request gateway of the Tableau Server client, modelled in Dafny

This project models the request gateway shared by the Tableau Server client's resource endpoints,
and the views endpoint built on it. The gateway does five things:

- it builds the `x-tableau-auth` and `content-type` headers;
- it merges the caller's keyword parameters with the session-wide `http_options`;
- it sends each request once through the HTTP session;
- it accepts only the statuses 200, 201 and 204;
- it refuses operations that need a newer server than the one connected (the `api(version)` gate).

The views endpoint adds the site and views URLs, the required-field checks on a view item, and the
assignment of fetched images to the item.

Files and modules:

- `wrappers.dfy` (`Wrappers`): `Option`, `Result` and `Outcome`, which stand for Python's `None` and
  for raised exceptions.
- `versions.dfy` (`Versions`): version strings made of digits and dots, parsed into numeric
  components and compared the way `distutils` `LooseVersion` compares them (Python list order).
- `http.dfy` (`Http`): requests, responses, keyword parameters, and two classes:
  - `Transport` stands in for the HTTP session. It records every request in `log` and answers with
    `respond(request)`, a function the client chooses.
  - `ParamDict` is a mutable Python dict, shared by reference.
- `endpoint.dfy` (`Gateway`): the header builder, the parameter merge, the status check, the version
  gate, the `Server` context (`parent_srv`) and the `Endpoint` class with `_make_request` and the
  five verb wrappers.
- `views.dfy` (`ViewsEndpoint`): the URL builders with their decoders, the `ViewItem` class and the
  `Views` class.

Design points:

- Precedence in the merge is explicit. The session `http_options` overwrite the caller's
  parameters. `headers` is then always replaced by the computed headers. `data` is set only when
  there is content.
- `parameters or {}`: a non-empty caller dict is updated in place. An empty one is falsy, so Python
  replaces it with a fresh dict and the caller's dict stays empty. `MakeRequest` states both cases.
- The auth header is present whenever the token is not `None`, so an empty token still produces
  it. The code tests `is not None`, not non-emptiness, and the model follows the code.
- The docstring of `api` says it raises when the server version is greater than the minimum. The
  code at `endpoint.py:103` raises when it is lower. The model follows the code.
- `Views` inherits `Endpoint` in the source. Here `Views` holds its `Endpoint` as a field, because
  Dafny classes do not inherit from classes.

## Model

| member | source | states |
|---|---|---|
| `Gateway.CommonHeaders` | tableauserverclient/server/endpoint/endpoint.py:20-28 | `x-tableau-auth` is present exactly when a token is given, and carries it verbatim (an empty token included). `content-type` is present exactly when a content type is given. No other header is produced, so with neither input the map is empty. |
| `Gateway.MergeParameters` | tableauserverclient/server/endpoint/endpoint.py:34-39 | The keys are the caller's, plus the session options', plus `headers`, plus `data` only when there is content. `headers` holds the computed headers whatever either side held. `data` holds the content when there is some. Any other key present in the session options takes the options' value. A key only the caller has keeps the caller's value. |
| `Gateway.FillParameters` | tableauserverclient/server/endpoint/endpoint.py:35-39 | The in-place steps (update, then force `headers`, then set `data`) leave the dict equal to the merge of its old contents. |
| `Gateway.CheckStatus` | tableauserverclient/server/endpoint/endpoint.py:51-54 | A response passes exactly when its status is 200, 201 or 204, and then it is returned unchanged. Otherwise a `ServerResponseError` carrying the response body is raised. |
| `Gateway.CheckVersion` | tableauserverclient/server/endpoint/endpoint.py:101-106 | For non-empty digit-and-dot version strings, refusal happens exactly when the server's numeric version is below the minimum. The refusal is an `EndpointUnavailableError` whose message names both version strings. |
| `Gateway.GateComparesNumerically` | tableauserverclient/server/endpoint/endpoint.py:100-107 | A 2.9 server is refused an operation that needs 2.10, with the exact message. A 2.10 server passes a 2.3 gate. |
| `Gateway.Endpoint.constructor` | tableauserverclient/server/endpoint/endpoint.py:17-18 | The endpoint keeps a reference to its server context. |
| `Gateway.Endpoint.MakeRequest` | tableauserverclient/server/endpoint/endpoint.py:30-49 | Exactly one request is appended to the session log. Its URL is the query options' rewrite when options are given and the original URL otherwise. Its parameters are the merge of the caller's dict, the session options, the computed headers and the content. The result is the status check of the session's reply. A non-empty caller dict ends up equal to the sent parameters. An empty one stays empty. |
| `Gateway.Endpoint.GetUnauthenticatedRequest` | tableauserverclient/server/endpoint/endpoint.py:56-57 | One GET is sent with an empty header map and no caller parameters. The reply goes through the status check. |
| `Gateway.Endpoint.GetRequest` | tableauserverclient/server/endpoint/endpoint.py:59-61 | One GET is sent whose headers are exactly the session's token header, with no content type. The query options and caller dict are passed through as `MakeRequest` states. |
| `Gateway.Endpoint.DeleteRequest` | tableauserverclient/server/endpoint/endpoint.py:63-65 | One DELETE is sent with the session's token header. The caller receives only success or the `ServerResponseError`, never the reply or its body. |
| `Gateway.Endpoint.PutRequest` | tableauserverclient/server/endpoint/endpoint.py:67-71 | One PUT is sent whose headers are the token and the content type, which defaults to `text/xml`. `data` is the body. The reply goes through the status check. |
| `Gateway.Endpoint.PostRequest` | tableauserverclient/server/endpoint/endpoint.py:73-77 | The same as PUT, with the POST verb. |
| `Gateway.Endpoint.Api` | tableauserverclient/server/endpoint/endpoint.py:80-109 | The operation is refused with `EndpointUnavailableError` exactly when the server's version is below the declared minimum, and the refusal does not depend on the operation. Otherwise the result is the operation's own result on the same arguments. |
| `Http.Transport.Send` | tableauserverclient/server/endpoint/endpoint.py:41 | A session call appends exactly its request to the log and returns the reply chosen for that request. |
| `Http.ParamDict.Update` | tableauserverclient/server/endpoint/endpoint.py:35 | `dict.update`: the other map's entries overwrite equal keys, and the dict's other entries are kept. |
| `Http.ParamDict.Set` | tableauserverclient/server/endpoint/endpoint.py:36-39 | A key assignment changes that key only. |
| `Versions.ParseFormat` | tableauserverclient/server/endpoint/endpoint.py:101-102 | Parsing a version recovers every list of numeric components from its dotted spelling (parse is a left inverse of format). |
| `Versions.LessIrreflexive` | tableauserverclient/server/endpoint/endpoint.py:103 | No version is below itself. |
| `Versions.LessTransitive` | tableauserverclient/server/endpoint/endpoint.py:103 | The version order is transitive. |
| `Versions.LessTrichotomy` | tableauserverclient/server/endpoint/endpoint.py:103 | Any two versions are equal or ordered one way, and never both ways, so the gate's comparison is a strict total order. |
| `Versions.PrefixNotLess` | tableauserverclient/server/endpoint/endpoint.py:103 | A version that extends another (2.0 over 2) is never below it. |
| `Versions.NumericComparison` | tableauserverclient/server/endpoint/endpoint.py:101-103 | "2.9" parses to [2, 9] and "2.10" to [2, 10]. 2.9 is below 2.10, and 2.10 is not below 2.3. |
| `ViewsEndpoint.SiteUrlNamesSite` | tableauserverclient/server/endpoint/views_endpoint.py:13-19 | The site URL (`{baseurl}/sites/{site_id}`), the views URL (site URL + `/views`) and the preview-image and image URLs all decode back to the site id they were built from. |
| `ViewsEndpoint.PreviewImageUrlDecodes` | tableauserverclient/server/endpoint/views_endpoint.py:33-35 | `{siteurl}/workbooks/{workbook_id}/views/{id}/previewImage` decodes back to the workbook and view ids. |
| `ViewsEndpoint.PreviewImageIdsEncode` | tableauserverclient/server/endpoint/views_endpoint.py:33-35 | Any URL that decodes to a workbook id and a view id is exactly the preview-image URL of those ids. |
| `ViewsEndpoint.PreviewImageUrlInjective` | tableauserverclient/server/endpoint/views_endpoint.py:33-35 | Distinct (workbook, view) pairs are fetched from distinct preview-image URLs. |
| `ViewsEndpoint.ImageUrlRoundTrip` | tableauserverclient/server/endpoint/views_endpoint.py:44-45 | `{baseurl}/{id}/image` decodes back to the view id, and only that URL decodes to it. |
| `Gateway.EffectiveUrl` | tableauserverclient/server/endpoint/endpoint.py:32-33 | The URL is rewritten by the query options' `apply_query_params` only when options are given; its property is stated in `Gateway.Endpoint.MakeRequest`'s contract. |
| `Gateway.UnavailableMessage` | tableauserverclient/server/endpoint/endpoint.py:104-105 | The refusal message naming the server version and the required version; `Gateway.GateComparesNumerically` proves its exact text for 2.9 against 2.10. |
| `Versions.Parse` | tableauserverclient/server/endpoint/endpoint.py:101-102 | `Version(...)` on a digit-and-dot string: its maximal digit runs read as numbers. `Versions.ParseFormat` and `Versions.NumericComparison` carry its properties. |
| `Versions.Less` | tableauserverclient/server/endpoint/endpoint.py:103 | The `<` between two versions, component by component as Python compares lists. `Versions.LessIrreflexive`, `Versions.LessTransitive`, `Versions.LessTrichotomy` and `Versions.PrefixNotLess` carry its properties. |
| `ViewsEndpoint.Missing` | tableauserverclient/server/endpoint/views_endpoint.py:30 | Python truthiness of an optional id: `None` and `""` both count as missing. The same test guards lines 41 and 52, as the contracts of `PopulateImage` and `Update` state. |
| `ViewsEndpoint.SiteUrl` | tableauserverclient/server/endpoint/views_endpoint.py:13-15 | The `siteurl` property, `{baseurl}/sites/{site_id}`. `ViewsEndpoint.SiteUrlNamesSite` proves that it decodes back to the site id. |
| `ViewsEndpoint.ViewsUrl` | tableauserverclient/server/endpoint/views_endpoint.py:17-19 | The views `baseurl` property, the site URL followed by `/views`. `ViewsEndpoint.SiteUrlNamesSite` proves that it still names its site. |
| `ViewsEndpoint.PreviewImageUrl` | tableauserverclient/server/endpoint/views_endpoint.py:33-35 | The preview-image URL. `PreviewImageUrlDecodes`, `PreviewImageIdsEncode` and `PreviewImageUrlInjective` carry its properties. |
| `ViewsEndpoint.ImageUrl` | tableauserverclient/server/endpoint/views_endpoint.py:44-45 | The image URL. `ViewsEndpoint.ImageUrlRoundTrip` carries its properties. |
| `ViewsEndpoint.Views.Get` | tableauserverclient/server/endpoint/views_endpoint.py:21-27 | One authenticated GET of the views URL is sent, with the caller's query options as the URL rewriter. On success the reply body is returned. Otherwise the `ServerResponseError` is returned. |
| `ViewsEndpoint.Views.PopulatePreviewImage` | tableauserverclient/server/endpoint/views_endpoint.py:29-38 | If the id or workbook id is `None` or empty, `MissingRequiredFieldError` is raised, nothing is sent and the item is untouched. Otherwise one GET of the preview-image URL is sent. On success only the preview image changes, to the reply body. On an error status the item is untouched. |
| `ViewsEndpoint.Views.PopulateImage` | tableauserverclient/server/endpoint/views_endpoint.py:40-48 | If the id is `None` or empty, `MissingRequiredFieldError` is raised and nothing is sent. Otherwise one GET of `{baseurl}/{id}/image` is sent with the query options. On success only the image changes, to the reply body. On an error status the item is untouched. |
| `ViewsEndpoint.Views.Update` | tableauserverclient/server/endpoint/views_endpoint.py:51-59 | If the id is `None` or empty, `MissingRequiredFieldError` is raised. Otherwise the very same item object is returned. |

## Left out

- The real HTTP session is not modelled: network I/O, connection errors and timeouts. `Transport` records requests and answers with a client-chosen reply; it never fails.
- Debug logging of text responses is not modelled (`endpoint.py:44-48`). When the response declares an encoding, the source decodes the body whatever the log level. That decode can raise, either `UnicodeDecodeError` for a body invalid in the declared charset or `LookupError` for an unknown charset name, after the status check has passed. This exception path is not modelled: the model returns the response as a success. `Response.encoding` is carried but never read.
- `ServerResponseError.from_response` and the other exception classes live in an `exceptions` module that is not part of this model. The error carries the raw response body instead of parsed fields.
- Version strings are restricted to digits and dots. `LooseVersion` also splits out letter components and `NormalizedVersion` (used when `distutils2` is installed) has its own grammar; neither is modelled. `Versions.Parse`, `Gateway.CheckVersion` and `Gateway.Endpoint.Api` require digit-and-dot strings for this reason.
- Gateway.CheckVersion: requires non-empty version strings. `LooseVersion("")` skips parsing, so the comparison on `endpoint.py:103` raises `AttributeError`, and `NormalizedVersion` rejects `""` too. That crash is not modelled. `"."` stays in the domain and parses to no components, as `LooseVersion(".")` does.
- Gateway.Endpoint.Api: requires non-empty version strings for the same reason.
- Gateway.Endpoint.Api: takes the wrapped operation as a pure function. It therefore does not state "invoked exactly once / never invoked" as a count of side effects. It states that the refusal does not depend on the operation, and that a pass returns the operation's own result. `functools.wraps` metadata copying is not modelled.
- ViewsEndpoint.Views.Get: returns the reply body rather than the parsed view items and pagination item. `ViewItem.from_response` and `PaginationItem.from_response` parse XML in modules that are not part of this model.
- ViewsEndpoint.Views.Update: does not send the tag-update requests. `TaggedResourcesEndpoint._update_tags` is not part of this model.
- `parent_srv.auth_token` is read as a plain optional field. Any check the server object makes when the token is read is not modelled. Concurrent mutation of the shared token is not modelled either.
- The session-wide `http_options` dict is assumed not to be the same object as the caller's `parameters` dict.
