# JsonApiClient in Dafny

A model of `JsonApiClient`, the fluent builder in front of a Guzzle HTTP client for
JSON:API back ends. Callers configure includes, sparse fieldsets, filters, a free-form
query, a limit/offset window, a bearer token, form data (possibly with uploaded files)
and a JSON body. A terminal verb (`get`, `post`, `patch`, `delete`) then turns that state
into one outbound request: headers, a nested query array, an optional `json` body, and
either `multipart` rows or `form_params`. The query array follows the JSON:API 1.0
conventions for `include`, `fields[type]`, `filter[...]` and `page[...]`.

Modules:

- `Options`: the Option type. PHP `null` versus a set value.
- `Php`: the PHP values the client handles (null, bool, int, string, ordered arrays with
  string keys), truthiness, `(string)` conversion, `implode(',')` and `explode(',')`, and
  ordered-array writes.
  - `Put` is `$a[$k] = $v`. An existing key keeps its place; a new key goes last.
  - `PutPath` is `$a[$k1][$k2]... = $v`.
- `Query`: `buildQuery` as functions. Each `foreach` is a fold that recurses on its last
  item. Lemmas state what the query array holds.
- `Forms`: form values, with an uploaded file as `File(path, originalName)`. Also the
  multipart rows, their specification `ToParts`, and its inverse `FromParts`.
- `Client`: the class `JsonApiClient`.
  - Its fields mirror the PHP object's fields.
  - `State()` is a snapshot of them. Each setter's contract says which one or two fields
    of that snapshot it replaces.
  - A ghost history of the forms passed to `formData` gives the object invariant: the
    multipart flag is set iff some form held a file.
  - `buildQuery`, `formData` and `convertFormDataIntoMultipart` are methods with the
    source's loops, proved against the `Query` and `Forms` functions.
  - `request` returns a `Dispatch`: what the transport receives, plus the
    `throwException` flag that goes to the response wrapper.

In the source, `buildQuery` is one method. Here each of its blocks is a static helper
method: `WritePage`, `WriteFilters`, `WriteColumns` (the column and operand loops of one
filter entry) and `WriteFields`. `BuildQuery` calls them in the source's order. The loops
and their bodies are the source's.

Behaviour of the code worth stating up front:

- A falsy offset, including the default 0, is never emitted, even when a limit is set.
- The `multipart` flag is only ever set. A later `formData` call without files does not
  clear it.
- `json` is attached whenever `jsonData` is non-null, whatever the form mode.
- An empty include list, field map or filter map does not remove a key of the same name
  that came from the free-form query. It only writes nothing.

## Model

| member | source | states |
|---|---|---|
| `Client.JsonApiClient.constructor` | src/JsonApiClient.php:13-32 | a new client holds the given token and no includes, fields, filters or query; no limit or offset; null form and JSON data; `throwException` true; multipart off; no form seen yet |
| `Client.JsonApiClient.WithIncludes` | src/JsonApiClient.php:38-42 | replaces the include list wholesale and changes no other field |
| `Client.JsonApiClient.WithFields` | src/JsonApiClient.php:48-52 | replaces the sparse-fieldset map wholesale and changes no other field |
| `Client.JsonApiClient.WithFilters` | src/JsonApiClient.php:58-62 | replaces the filter map wholesale and changes no other field |
| `Client.JsonApiClient.WithQuery` | src/JsonApiClient.php:68-72 | replaces the free-form query wholesale and changes no other field |
| `Client.JsonApiClient.FormData` | src/JsonApiClient.php:78-89 | stores the form; multipart becomes old multipart OR "some value is a file"; nothing else changes; keeps the invariant that multipart holds iff some form passed so far held a file |
| `Client.JsonApiClient.JsonData` | src/JsonApiClient.php:95-99 | replaces the JSON body and changes no other field |
| `Client.JsonApiClient.ThrowException` | src/JsonApiClient.php:101-105 | sets the error-raising flag (default true) and changes no other field |
| `Client.JsonApiClient.Limit` | src/JsonApiClient.php:246-251 | replaces exactly limit and offset (offset defaults to 0) and changes no other field |
| `Client.JsonApiClient.Token` | src/JsonApiClient.php:270-275 | replaces the token and changes no other field |
| `Client.JsonApiClient.BuildQuery` | src/JsonApiClient.php:111-151 | the query array equals `Query.Build` of the object's fields |
| `Client.JsonApiClient.WritePage` | src/JsonApiClient.php:117-125 | an empty `page`, then the truthy limit, then the truthy offset, give exactly the `AddPage` step |
| `Client.JsonApiClient.WriteFilters` | src/JsonApiClient.php:127-141 | the loop over filter entries gives exactly the `AddFilters` fold |
| `Client.JsonApiClient.WriteColumns` | src/JsonApiClient.php:129-136 | the nested column/operand loops give exactly the `AddColumns` fold |
| `Client.JsonApiClient.WriteFields` | src/JsonApiClient.php:142-146 | the loop over fieldsets gives exactly the `AddFields` fold |
| `Query.Build` | src/JsonApiClient.php:111-151 | every key of the free-form query keeps its position in the result |
| `Query.PageGroup` | src/JsonApiClient.php:118-124 | `page.limit` is present iff the limit is truthy, `page.offset` iff the offset is truthy, each with its value; the group has exactly one entry per truthy member and no other key, so it is non-empty iff one of them is truthy |
| `Query.BuildKeepsOtherKeys` | src/JsonApiClient.php:113-116 | any key other than page, filter, fields, include has the same value (or absence) as in the free-form query |
| `Query.BuildPage` | src/JsonApiClient.php:117-125 | `page` holds exactly the truthy members of the window when either is truthy (replacing a free-form `page`); otherwise the free-form `page` is untouched |
| `Query.LimitAloneEmitsOnlyLimit` | src/JsonApiClient.php:246-250 | with offset 0, as after `limit(n)`, `page` holds only `limit => n` |
| `Query.BuildFilterOperand` | src/JsonApiClient.php:128-135 | for column→operand→value filters, `filter[r][c][o]` is the value, or the comma-join of its items when it is an array |
| `Query.BuildFilterShorthand` | src/JsonApiClient.php:137-139 | a filter whose value is not an array is stored directly as `filter[r]` |
| `Query.BuildNoFilters` | src/JsonApiClient.php:127-141 | with no filters, `filter` is exactly what the free-form query had (absent when it had none) |
| `Query.BuildFields` | src/JsonApiClient.php:142-146 | `fields[r]` is the comma-join of the string forms of r's field list (`1` and `true` as "1", an array as "Array"); without a free-form `fields` the group is exactly one entry per resource in order, and absent when there are no fieldsets |
| `Query.BuildInclude` | src/JsonApiClient.php:147-149 | `include` is the comma-join of the string forms of a non-empty include list's items; with none it is what the free-form query had |
| `Php.SplitJoin` | src/JsonApiClient.php:144-148 | splitting a comma-join on commas gives back the list when no item contains a comma, so the joined groups lose nothing |
| `Php.PutPathElsewhere` | src/JsonApiClient.php:132-144 | a nested write such as `$query['filter'][r][c][o] = v` leaves every path that diverges from it unchanged |
| `Client.Headers` | src/JsonApiClient.php:256-264 | the headers are non-empty iff the token is truthy, and then are exactly one Authorization entry `Bearer <token>` |
| `Client.HeadersCarryToken` | src/JsonApiClient.php:256-264 | reading the bearer credential back from the headers gives the token's string form for a truthy token and nothing otherwise |
| `Client.Params.Keys` | src/JsonApiClient.php:155-166 | the option array starts with headers and query, has `json` iff a JSON body is set, and has exactly one of `multipart` and `form_params` |
| `Client.JsonApiClient.Request` | src/JsonApiClient.php:153-176 | `json` is present iff `jsonData` is non-null, whatever the form mode; the body is multipart iff the multipart flag is set, and then iff some `formData` call held a file; otherwise `form_params` is the stored form; the headers carry the token; the `throwException` flag is forwarded |
| `Client.JsonApiClient.ConvertFormDataIntoMultipart` | src/JsonApiClient.php:183-198 | the rows are exactly `Forms.ToParts` of the form |
| `Forms.ToParts` | src/JsonApiClient.php:183-198 | one row per form field |
| `Forms.PartAt` | src/JsonApiClient.php:186-196 | row i is named by field i's key; a file row has `filename` = the client's original name and a handle on the file's path; a scalar row has the value as contents and no `filename` |
| `Forms.PartsRoundTrip` | src/JsonApiClient.php:183-198 | the rows determine the form: converting them back gives the original fields in order |
| `Client.JsonApiClient.Get` | src/JsonApiClient.php:206-209 | issues the request with verb GET |
| `Client.JsonApiClient.Post` | src/JsonApiClient.php:216-219 | issues the request with verb POST |
| `Client.JsonApiClient.Patch` | src/JsonApiClient.php:226-229 | issues the request with verb PATCH |
| `Client.JsonApiClient.Delete` | src/JsonApiClient.php:236-239 | issues the request with verb DELETE |

## Left out

- The transport call `$this->client->request(...)` (src/JsonApiClient.php:168) is not modelled, because the Guzzle client is external code. The request ends in a `Dispatch` value that holds the verb, the URL and the option array.
- The configuration lookup and the debug log line (src/JsonApiClient.php:170-171) are not modelled, because they are global state and a side effect.
- `JsonApiResponse` and its `prepare()` (src/JsonApiClient.php:174-175) are not modelled, because that class is not part of this model. The model only records the `throwException` flag it would receive.
- `fopen` on an uploaded file is not modelled, because it is file I/O. The row's contents are `Handle(path)`, an opaque handle named by the file's path.
- The `UploadedFile` class is not modelled, because it is a foreign Laravel type. It is replaced by the `File(path, originalName)` form value, and `instanceof` becomes a match on that tag.
- URL encoding of the nested query into a query string is not modelled, because the transport library does it.
- The `$client`, `$response` and `$json` fields are not modelled. The first is the transport; this class never reads the other two.
- Floating-point values and integer array keys are not modelled. Every key is a string, so PHP's conversion of numeric-string keys to integers is not captured.
- `Php.PutPath`: the model writes a fresh array over an intermediate entry that is not an array. PHP does the same only for null and `false`. Any other non-array value already at `filter`, `filter[r]`, `filter[r][c]` or `fields`, all of which can only come from the free-form query, makes PHP warn or raise an error on the nested write; the model overwrites it instead.
- `Client.JsonApiClient.WithFields`: each resource's field list is an array (its items may be any value and are converted to strings as `implode` does). A field list that is not an array, such as `'title,body'`, makes `implode` raise a TypeError in PHP 8 (a warning and a null entry in PHP 7); that case is not modelled.
- `Client.JsonApiClient.FormData`: the argument is always a list of named form values. A PHP call with a non-array argument, which would warn and store that value, is not modelled.
- `Client.JsonApiClient.ThrowException`: the flag is a boolean. PHP accepts any value and forwards it unchanged.
- The filter and fieldset lemmas (`Query.BuildFilterOperand`, `Query.BuildFilterShorthand`, `Query.BuildFields`) require unique keys. Every PHP array has them; an association list does not have them automatically.
