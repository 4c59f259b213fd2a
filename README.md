# OpenSearch dashboards minimal app — verified model

This project models the decision logic of a small browser app that writes
OpenSearch Dashboards saved objects (data views, dashboards) to a remote cluster,
and of the same-origin proxy that carries its requests:

- **Client helpers** (`OpenSearch.dfy`): the choice of `Authorization` header
  (API key, Basic with Base64 of `username:password`, or none), the header merge
  and status check of the request helper with its exact error text, the
  cluster-state-to-index mapping, the 1:1 data-view derivation, the best-effort
  upsert loop, the dashboard search and its title extraction, and the saved
  dashboard document.
- **Base64** (`Base64.dfy`): the encoding of section 4 of RFC 4648 over Latin-1
  octets, as `btoa` does it, with a decoder and the round trip.
- **App state machine** (`App.dfy`): one `AppState` cell (screen, connection,
  indices, data views, errors) changed by connect, refresh and continue, with
  the invariant that the data views are always derived from the indices, and the
  banner/screen selection of the page.
- **Proxy** (`Proxy.dfy`): the `/api` handler's target-header check, path
  rewrite, header whitelist, body rule, certificate relaxation for `https:`,
  status relay and error mapping.
- **Dashboard form** (`Dashboard.dfy`): the initial draft, single-field
  updates, save validation and the status/list updates after save or load.

Every network call is replaced by its outcome, given as a parameter:
`Exchange(fetched, decoded)` says how `fetch` settled and what `response.json()`
yields; the upsert loop receives one outcome per attempt (`upserts(i)`); the
proxy receives the URL parser, applied to the `x-opensearch-url` value, and the upstream reply. Thrown values are
`Thrown.ErrorValue(message)` or `Thrown.NonErrorValue`, so each `catch` block's
"message or fallback" rule is modelled. Methods return the requests they hand
to `fetch` (`sent`), which states the number, order, paths, headers and bodies
of the calls. `crypto.randomUUID()` and the save time are parameters (`uuid`,
`now`). `JSON.stringify` is not modelled: request bodies are `Json` values.

Behaviour of the code worth noting: a failed connect keeps the newly submitted connection (it is stored before the
request); errors are replaced by a one-element list, not appended; the saved
dashboard does not store the draft's layout; the save checks only that the
data view id is non-empty, not that it names an existing data view; only the
cluster-state index lister exists, so `docsCount` is always 0 and `health`
always `"unknown"`.

## Model

| member | source | states |
|---|---|---|
| Text.NatToDecimal | minimal-app/src/utils/opensearch.ts:34 | the status in the error text is a non-empty run of decimal digits without a leading zero |
| Text.DecimalRoundTrip | minimal-app/src/utils/opensearch.ts:34 | reading the rendered digits back gives the status: the rendering loses nothing |
| Text.IndexOfFrom | minimal-app/server/index.ts:23 | the result is an occurrence of the pattern and no earlier position holds one; `None` means no position does |
| Text.ReplaceFirst | minimal-app/server/index.ts:23 | `replace` with a string pattern removes only the first occurrence, and leaves the string as it is when there is none |
| Text.StripLeading | minimal-app/server/index.ts:23 | removing `/api` from `/api` + rest gives exactly rest |
| Base64.DecodeSextet | minimal-app/src/utils/opensearch.ts:8 | every alphabet character decodes to the 6-bit value that encodes back to it |
| Base64.Encode | minimal-app/src/utils/opensearch.ts:8 | the encoding of n octets has 4 * ceil(n / 3) characters |
| Base64.DecodeEncode | minimal-app/src/utils/opensearch.ts:8 | decoding the encoding of any octets gives them back |
| Base64.Latin1 | minimal-app/src/utils/opensearch.ts:8 | a string converts to octets exactly when no character is above U+00FF, one octet per character with the same code |
| Base64.AtobBtoa | minimal-app/src/utils/opensearch.ts:8 | whatever `btoa` accepts, `atob` turns back into the same string |
| OpenSearch.ToAuthHeaders | minimal-app/src/utils/opensearch.ts:3-11 | at most one header, `Authorization`; a non-empty API key with auth type apiKey gives exactly `ApiKey <key>`; otherwise a username or password gives `Basic <token>` whose token is `btoa(username:password)` and decodes back to it, or the `btoa` error when a character is above U+00FF (this branch is also taken under apiKey with an empty key); otherwise no header |
| OpenSearch.BasicExample | minimal-app/src/utils/opensearch.ts:7-9 | username `a`, password `b` give `Basic YTpi` |
| OpenSearch.RequestHeaders | minimal-app/src/utils/opensearch.ts:20-25 | the header names are the two defaults plus the auth and caller names; caller headers win over the auth header, which wins over the defaults `Content-Type: application/json` and `x-opensearch-url: <url>` |
| OpenSearch.FailureMessageParts | minimal-app/src/utils/opensearch.ts:31-35 | the error text is `OpenSearch request failed (`, the status in decimal (it reads back as the status), `): `, then the body, or the status text when the body is empty |
| OpenSearch.RequestOutcome | minimal-app/src/utils/opensearch.ts:14-39 | with working credentials a 2xx response is the result unchanged, and only a 2xx response succeeds; a non-2xx response fails with the formatted message once its body is read, or with the rejection of that read; a `fetch` failure (a timeout included) or the `btoa` error passes through |
| OpenSearch.JsonOutcome | minimal-app/src/utils/opensearch.ts:43-44 | after a successful request the result is what `response.json()` yields, and only then; a request failure is the result |
| OpenSearch.Issued | minimal-app/src/utils/opensearch.ts:18-27 | one request to `/api` + path carrying the caller's body, or none when `btoa` throws before `fetch` |
| OpenSearch.Request | minimal-app/src/utils/opensearch.ts:14-39 | `fetch` is called once with `/api` + path, the caller's method (GET by default), the merged headers and the body; the result is the status-checked outcome |
| OpenSearch.IndicesFromClusterState | minimal-app/src/utils/opensearch.ts:45-50 | one record per index name, in order, with docsCount 0, health `unknown` and status the index state, or `open` when it is null or absent |
| OpenSearch.FetchIndices | minimal-app/src/utils/opensearch.ts:41-51 | a GET of `/api/_cluster/state`; on success as many records as the cluster state has index names |
| OpenSearch.CreateDataViewsForIndices | minimal-app/src/utils/opensearch.ts:53-59 | as many data views as indices, in order, each with id = title = index pattern = the index name |
| OpenSearch.DataViewsDependOnNamesOnly | minimal-app/src/utils/opensearch.ts:53-59 | two index lists with the same names in the same order give the same data views |
| OpenSearch.DataViewsOfConcat | minimal-app/src/utils/opensearch.ts:53-59 | the derivation distributes over concatenation, so it keeps order |
| OpenSearch.DataViewsOfClusterState | minimal-app/src/utils/opensearch.ts:45-59 | after a fetch, data view i is named after the i-th index name of the cluster state |
| OpenSearch.UpsertRequests | minimal-app/src/utils/opensearch.ts:65-79 | one POST per data view, in order, to `/api/.kibana/_doc/index-pattern:<id>` with the index-pattern document |
| OpenSearch.EnsureDataViews | minimal-app/src/utils/opensearch.ts:61-80 | every data view gets exactly one attempt, whatever earlier attempts returned, and the operation completes without an error |
| OpenSearch.TitlesFromHits | minimal-app/src/utils/opensearch.ts:95 | no more titles than hits, none of them empty |
| OpenSearch.TitlesOfConcat | minimal-app/src/utils/opensearch.ts:95 | the extraction distributes over concatenation: titles keep the order of their hits |
| OpenSearch.TitlesMembership | minimal-app/src/utils/opensearch.ts:95 | a string is among the titles exactly when some hit has it as a non-empty title |
| OpenSearch.FetchDashboards | minimal-app/src/utils/opensearch.ts:82-96 | a POST of the term query on type `dashboard` with size 100 to `/api/.kibana/_search`; the result is the extracted titles or the failure |
| OpenSearch.DashboardDocument | minimal-app/src/utils/opensearch.ts:105-122 | the document has exactly the members `type`, `dashboard`, `references`, `updated_at`, and its `dashboard` object exactly `title`, `description`, `panelsJSON`, `optionsJSON`, `version` (so no `layout`); type `dashboard`, the draft's title and description, panelsJSON `[]`, the fixed options, version 1, exactly one reference `{id: dataViewId, name, type: index-pattern}`, and the save time |
| OpenSearch.SaveDashboard | minimal-app/src/utils/opensearch.ts:98-125 | a POST of that document to `/api/.kibana/_doc/dashboard:<uuid>`; the result is the parsed reply or the failure |
| Proxy.HandleApi | minimal-app/server/index.ts:15-52 | a missing or empty target header gives 400 with the fixed text and no upstream call; otherwise the forwarded URL is the header value as parsed by the URL constructor, keeping its scheme, authority, query and fragment and its path becomes `originalUrl` without its first `/api`; only `authorization` and `content-type` are forwarded, each exactly when present; the method is kept; GET and HEAD carry no body, others carry the request body; a certificate-accepting agent is attached exactly for `https:`; the upstream status and text are relayed; a failure in the forwarding block gives 500 with the error message or `Proxy error`; an unparsable target escapes the handler with no reply |
| Proxy.ClientPathSurvivesRewrite | minimal-app/server/index.ts:23 | the path the client asks for is the path the proxy forwards: the client's `/api` prefix is exactly what the rewrite removes |
| App.Rendered | minimal-app/src/ui/App.tsx:66-84 | the banner with `errors[0]` is shown exactly when there are errors and comes first; exactly one screen body follows, the one matching `screen` |
| App.AppModel.constructor | minimal-app/src/ui/App.tsx:12-24 | the connect screen, the default URL with Basic auth and empty credentials, no indices, data views or errors |
| App.AppModel.SetScreen | minimal-app/src/ui/App.tsx:31-33 | only the screen changes |
| App.AppModel.HandleConnect | minimal-app/src/ui/App.tsx:35-46 | before any request the submitted connection is stored and errors are cleared; success stores the indices, their derived data views and the indices screen; failure sets errors to the one message (or `Unknown error`) and keeps screen, indices and data views; the requests are the cluster-state read and then one upsert per data view; the views invariant holds |
| App.AppModel.HandleRefreshIndices | minimal-app/src/ui/App.tsx:48-58 | uses the stored connection; never changes screen or connection; success replaces indices and data views and keeps errors; failure sets errors to the one message |
| App.AppModel.OnIndicesContinue | minimal-app/src/ui/App.tsx:60-62 | the screen becomes dashboards and nothing else changes |
| App.RetryAfterFailedConnect | minimal-app/src/ui/App.tsx:35-46 | a failed connect stays on the connect screen with `[message]`; a later successful connect clears the errors and opens the indices screen with the fetched indices |
| DashboardScreen.WithField | minimal-app/src/ui/DashboardScreen.tsx:41-43 | the updated field holds the new value and every other field keeps its value |
| DashboardScreen.WithFieldLaws | minimal-app/src/ui/DashboardScreen.tsx:41-43 | writing a field's own value back changes nothing; a second write to a field replaces the first |
| DashboardScreen.InitialDraftIncomplete | minimal-app/src/ui/DashboardScreen.tsx:19-24 | the starting draft never passes the save check, since its title is empty |
| DashboardScreen.DashboardModel.constructor | minimal-app/src/ui/DashboardScreen.tsx:18-25 | empty list and status; the draft has empty title and description, the first data view's id (or empty), layout `grid` |
| DashboardScreen.DashboardModel.LoadDashboards | minimal-app/src/ui/DashboardScreen.tsx:29-39 | the list becomes the fetched titles; on failure the status is the message (or `Unable to load dashboards`) and the list stays as it was |
| DashboardScreen.DashboardModel.UpdateDraft | minimal-app/src/ui/DashboardScreen.tsx:41-43 | only the named draft field changes |
| DashboardScreen.DashboardModel.HandleSave | minimal-app/src/ui/DashboardScreen.tsx:45-59 | an empty title or data view id sets `Title and data view are required.` with no request; otherwise a save, then `Dashboard saved.` and a refetch that replaces the list; a failure of either sets the message (or `Unable to save dashboard`), overwriting the saved status, and keeps the list |

## Left out

- Network I/O (`fetch`, node-fetch, the Express request and response objects, `app.listen`): each call is an input outcome.
- The 10-second client timeout and its abort controller: a timeout is one more `fetch` failure.
- The concurrency of the upsert fan-out: the attempts run as a sequential loop; the source promises no order between them.
- Interleaving of handlers while a request is in flight (a second connect or a refresh during a connect): each handler runs to completion in the model.
- `JSON.stringify` and `response.json()`: bodies are `Json` values and the parse outcome is an input; `Object.keys` ordering of integer-like index names is not modelled (the cluster state is given in enumeration order).
- The text of `btoa`'s exception is browser-defined; the model uses one fixed message.
- `fetch` treats header names case-insensitively; `RequestHeaders` merges them as the object spread does, by exact key.
- WHATWG URL parsing (the parser is a parameter of `HandleApi`) and the pathname setter's percent-encoding and normalisation (a query string in `originalUrl` is encoded into the path; an empty path becomes `/`): the rewrite is modelled as a string operation on the parsed URL's fields.
- What Express does when the URL constructor's exception escapes the handler: the model stops at `Escaped`.
- The proxy's reply headers, the TLS agent's behaviour, static file serving in production mode, the port setting and `console.log`.
- Search hits whose title is another falsy value (`0`, `false`): titles are strings or absent.
- Rendering and wiring: `ConnectScreen.tsx`, `IndicesScreen.tsx`, `Layout.tsx`, `main.tsx`, the JSX markup and the embedded-mode flag.
