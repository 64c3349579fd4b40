# FCC data API client — a Dafny model

This project models the PHP client library for the FCC data web service in two
parts.

- **`Connection`** (`lib/connection.class.php`) is the transport. It holds a
  server root and one cURL handle. Each request reconfigures the handle's
  options in place and then executes it:
  - GET and DELETE (compared case-insensitively) carry the URL-encoded data in
    the query string.
  - Any other method carries the data in the body.
  - The method is sent as given.
  - Headers are set only when supplied.

  The handle is never closed, so an option one request sets stays in force for
  the next request unless that request sets it again.
- **`FCCApi`** (`lib/fcc.class.php`) is the API layer. Each operation does four
  things:
  1. It builds a parameter array. An optional argument is left out only when
     it is `null`.
  2. `_apiHelper` adds `format=json` and issues a GET with the single header
     `Accept: application/json`.
  3. It applies PHP's loose `== null` test to the decoded body.
  4. It reshapes the envelope by one of these rules: take one key, keep only
     `Block`/`County`/`State`, re-index `Frns.Frn` by each item's `frn`, or
     take `Licenses.License` / `Stats.Stat`.

  Every operation returns one of three outcomes:
  - null: the transport failed, the body was empty or undecodable, or the
    envelope is loosely null (this includes `{}` and `[]`);
  - an empty array: the expected key is absent;
  - the extracted value.

The model has three modules:

- `Php` (`php.dfy`) covers the PHP runtime semantics the code relies on:
  - values as `json_decode($json, true)` yields them;
  - ordered arrays as association lists;
  - truthiness and loose `== null`;
  - `$a[$k] = $v`;
  - `array_intersect_key`;
  - the key cast of `$a[$v]`.
- `Http` (`http.dfy`) covers the transport:
  - a `Handle` class (the cURL option bag, updated by `SetOpt`);
  - the `Connection` class with `Request` and the four wrappers;
  - the function `RequestOptions`, which states what one request does to the
    options.
- `Fcc` (`fcc.dfy`) covers the API layer:
  - the parameter builders;
  - the `_apiHelper` request;
  - the reshape functions;
  - the `foreach` that re-indexes FRNs, as a method with a loop, plus lemmas
    about its specification;
  - the `FccApi` class, whose methods run against the shared connection.

Three things outside the code are parameters:
- the network's answer to `curl_exec`: `response`, which is `Failed` (false)
  or `Body(text)`;
- `json_decode`: `decode`, whose `Null` stands for a parse failure;
- `http_build_query`: `encode`.

The model follows the code where it differs from the doc comments. The
comments promise an empty array "if no data is found" (for example
lib/fcc.class.php:39). In the code, an envelope that is an empty JSON object
or list is `== null` (lib/fcc.class.php:45), so the operation returns null.
Likewise, a present key whose value is JSON `null` (for example
`{"SpeedTestCounty": null}`) makes `findSpeedTest` return null. The value is
returned as it is.

## Model

| member | source | states |
|---|---|---|
| `Php.LooselyNullIsFalsyButNotZeroString` | lib/fcc.class.php:45 | `$v == null` holds exactly for null, false, 0, "" and the empty array. It is falsiness except for the string "0". |
| `Php.Lookup` | lib/fcc.class.php:47-48 | The lookup finds a value exactly when `array_key_exists` holds for the key. |
| `Php.Assign` | lib/fcc.class.php:113 | `$a[$k] = $v` makes `k` map to `v` and leaves every other key's lookup unchanged. The key sequence stays the same when `k` was present, and otherwise gains `k` at the end. |
| `Php.AssignNewKeyAppends` | lib/fcc.class.php:340 | Assigning a key that is not present appends the entry after all existing entries. |
| `Php.IntersectKeys` | lib/fcc.class.php:74-76 | `array_intersect_key` keeps exactly the entries whose key is kept, with unchanged values. A kept key that is absent stays absent. The result is never longer than the input, and is empty when no kept key is present. |
| `Php.IntersectKeysKeepsOrder` | lib/fcc.class.php:74-76 | The entries `array_intersect_key` keeps appear in the order they have in the input: the result is a subsequence of it. |
| `Php.IntersectKeysDistinct` | lib/fcc.class.php:74-76 | Filtering an array whose keys are distinct leaves the keys distinct. |
| `Php.KeyOf` | lib/fcc.class.php:113 | The key `$results[$v]` uses: an integer as it is, a bool as 0 or 1, null as "", and a string as it is unless it is a canonical decimal integer within the 64-bit range, which becomes that integer. |
| `Php.DecimalIsIntegerString` | lib/fcc.class.php:113 | The decimal form of every integer is a canonical integer string that reads back as that integer. |
| `Php.IntegerStringSharesKey` | lib/fcc.class.php:113 | For every integer in range, its decimal string and the integer itself give the same array key. |
| `Php.NonCanonicalStringsStayStrings` | lib/fcc.class.php:113 | "05", "-0" and "1a" stay string keys; "" files like null and "1" like true. |
| `Http.Handle.constructor` | lib/connection.class.php:10 | `curl_init` gives a handle with no options set. |
| `Http.Handle.SetOpt` | lib/connection.class.php:36 | `curl_setopt` sets one option in place and leaves all the others unchanged. |
| `Http.QueryVerbs` | lib/connection.class.php:22 | After lower-casing, "GET", "get", "DELETE" and "Delete" put the data in the URL, and "POST" and "PUT" do not. |
| `Http.SendsQueryInUrlIgnoresCase` | lib/connection.class.php:22 | Two verbs that differ only in ASCII letter case are routed the same way. |
| `Http.RequestOptions` | lib/connection.class.php:17-39 | The URL is `root . path`, plus `?` and the encoded data for GET/DELETE with non-empty data. Other methods set POSTFIELDS to the encoded data, or "" when there is none. GET/DELETE leave an earlier POSTFIELDS in place. HTTPHEADER is set only when headers are given and is otherwise left as it was. CUSTOMREQUEST is the verb exactly as given. RETURNTRANSFER is untouched. |
| `Http.Connection.constructor` | lib/connection.class.php:5-13 | The server is stored verbatim as the root. An injected handle is used as it is. Otherwise a fresh handle is created with only RETURNTRANSFER set. |
| `Http.Connection.Request` | lib/connection.class.php:15-51 | The shared handle's options become `RequestOptions` of the old options. The result is exactly what the execution returned, `false` included. |
| `Http.Connection.Get` | lib/connection.class.php:53-55 | Delegates with "GET". The URL carries the query when there is data, and an earlier POSTFIELDS is kept. |
| `Http.Connection.Post` | lib/connection.class.php:56-58 | Delegates with "POST". The URL is `root . path`, and POSTFIELDS is the encoded data or "". |
| `Http.Connection.Put` | lib/connection.class.php:59-61 | Delegates with "PUT". The URL is `root . path`, and POSTFIELDS is the encoded data or "". |
| `Http.Connection.Delete` | lib/connection.class.php:62-64 | Delegates with "DELETE". The URL carries the query when there is data, and an earlier POSTFIELDS is kept. |
| `Fcc.AddOptional` | lib/fcc.class.php:103 | An optional argument is added under its key unless it is null; "", 0 and false are sent. No other key changes. |
| `Fcc.WithFormat` | lib/fcc.class.php:340 | The array sent always has `format` = "json", overwriting a caller value. Every other key keeps its value, and the array is never empty. |
| `Fcc.FormatOverridesCaller` | lib/fcc.class.php:340 | A caller-supplied `format` is replaced in place: the key order is unchanged. |
| `Fcc.SentStatsParams` | lib/fcc.class.php:196-200 | The statistics operations send exactly the non-null ones of `commonName` and `limit`, in that order, followed by `format`. |
| `Fcc.SentFrnListParams` | lib/fcc.class.php:101-104 | getFRNList sends `stateCode`, then `multiStates` unless it is null, then `format`. |
| `Fcc.SentLicenseParams` | lib/fcc.class.php:173-174 | getLicenses sends exactly `searchValue` = query, `pageSize` = 1000 and `format` = "json". |
| `Fcc.HelperOptions` | lib/fcc.class.php:339-341 | Every operation's request is a GET with the one header `Accept: application/json`. Its URL is root, path, `?` and the encoded parameters including `format`. An earlier POSTFIELDS is left in place. |
| `Fcc.DecodedCases` | lib/fcc.class.php:342 | A failed transfer and an empty body give null. Any other body, "0" included, is passed to `json_decode`. |
| `Fcc.SpeedTestCounty` | lib/fcc.class.php:45-49 | The result is null for a loosely-null envelope. Otherwise it is the value under `SpeedTestCounty`, or an empty array when that key is absent. |
| `Fcc.CensusBlock` | lib/fcc.class.php:72-77 | The result is null for a loosely-null envelope. Otherwise it is an array in which Block, County and State look up as in the envelope and no other key appears; it is empty when none of the three is present. |
| `Fcc.CensusBlockKeepsOrder` | lib/fcc.class.php:74-77 | The block, county and state entries come back in the envelope's order, and with distinct keys when the envelope's keys are distinct. |
| `Fcc.FrnInfo` | lib/fcc.class.php:141-146 | The result is null for a loosely-null envelope. It is the value under `Info` when the envelope is an array holding it, and an empty array otherwise (a non-array envelope included). |
| `Fcc.ListUnder` | lib/fcc.class.php:175-177 | The result is null for a loosely-null envelope, and an empty array when the outer key is absent. Otherwise it is the inner value under the outer array (`Licenses.License`, `Stats.Stat`). |
| `Fcc.ReindexKeys` | lib/fcc.class.php:111-114 | A key is in the re-indexed array exactly when some item was filed under it (for getFRNList, its `frn` field). |
| `Fcc.ReindexLastWins` | lib/fcc.class.php:111-114 | Each key maps to the last item filed under it. |
| `Fcc.ReindexDistinct` | lib/fcc.class.php:111-115 | The re-indexed array has no duplicate key. |
| `Fcc.ReindexNoLonger` | lib/fcc.class.php:111-115 | The re-indexed array has at most as many entries as the list has items. |
| `Fcc.ReindexSnoc` | lib/fcc.class.php:112-113 | Filing one more item is the assignment `$results[$item['frn']] = $item` on the array built so far. |
| `Fcc.IndexByFrn` | lib/fcc.class.php:111-114 | The `foreach` loop builds exactly the re-indexed array of the items tagged with their `frn`. |
| `Fcc.FrnList` | lib/fcc.class.php:105-118 | The result is null for a loosely-null envelope. It is an empty array when the envelope is not an array or lacks `Frns`, and otherwise the re-indexed `Frns.Frn`. |
| `Fcc.FrnListKeys` | lib/fcc.class.php:107-115 | getFRNList's result is keyed exactly by the key casts of the items' `frn` values, each key once, with no more entries than items. |
| `Fcc.FrnNumericStringsShareKey` | lib/fcc.class.php:112-113 | An frn given as the string "5" and another given as the number 5 land under the one key 5, the later item replacing the earlier. |
| `Fcc.UnavailableIsNull` | lib/fcc.class.php:339-343 | Whenever the helper's result is loosely null, every operation's reshape returns null. |
| `Fcc.MissingKeyIsEmpty` | lib/fcc.class.php:47-49 | For a non-empty envelope array without the expected key, every operation returns an empty array, never null. |
| `Fcc.FrnListExample` | lib/fcc.class.php:87-96 | A one-item `Frns.Frn` list is re-keyed under the item's frn "0016639023". |
| `Fcc.FccApi.constructor` | lib/fcc.class.php:14-16 | An injected connection is used as it is. Otherwise a new connection to `http://data.fcc.gov` is created, with a fresh handle. |
| `Fcc.FccApi.ApiHelper` | lib/fcc.class.php:339-343 | The options become `HelperOptions`, and the result is the decoded body (null when the transport result is `== null`). |
| `Fcc.FccApi.FindSpeedTest` | lib/fcc.class.php:42-50 | Sends latitude and longitude to /api/speedtest/find and returns `SpeedTestCounty` of the decoded envelope. |
| `Fcc.FccApi.FindCensusBlock` | lib/fcc.class.php:69-78 | Sends latitude and longitude to /api/block/find and returns `CensusBlock` of the decoded envelope. |
| `Fcc.FccApi.GetFrnList` | lib/fcc.class.php:101-119 | Sends `FrnListParams` to /api/frn/getList and returns `FrnList` of the decoded envelope. |
| `Fcc.FccApi.GetFrnInfo` | lib/fcc.class.php:139-147 | Sends `frn` to /api/frn/getInfo and returns `FrnInfo` of the decoded envelope. |
| `Fcc.FccApi.GetLicenses` | lib/fcc.class.php:172-178 | Sends `LicenseParams` and returns `Licenses.License`, or an empty array or null. |
| `Fcc.FccApi.GetLicenseCommonNames` | lib/fcc.class.php:196-204 | Sends the non-null `commonName`/`limit` to getCommonNames and returns `Stats.Stat`. |
| `Fcc.FccApi.GetLicenseStatuses` | lib/fcc.class.php:223-232 | Sends the non-null `commonName`/`limit` to getStatuses and returns `Stats.Stat`. |
| `Fcc.FccApi.GetLicenseCategories` | lib/fcc.class.php:251-260 | Sends the non-null `commonName`/`limit` to getCategories and returns `Stats.Stat`. |
| `Fcc.FccApi.GetLicenseEntities` | lib/fcc.class.php:279-284 | Sends no parameter but `format` to getEntities and returns `Stats.Stat`. |
| `Fcc.FccApi.GetLicenseRenewals` | lib/fcc.class.php:303-310 | Sends the non-null `commonName` to getRenewals and returns `Stats.Stat`. |
| `Fcc.FccApi.GetLicenseIssued` | lib/fcc.class.php:329-336 | Sends the non-null `commonName` to getIssued and returns `Stats.Stat`. |

## Left out

- Network I/O. `curl_exec` is the parameter `response`. `curl_error` and the
  echoed diagnostic on failure (lib/connection.class.php:44-46) are output
  only and are not modelled.
- `curl_exec` returning `true`: this happens with an injected handle that lacks
  RETURNTRANSFER, and the model has no such result.
- `json_decode` is the parameter `decode`; no JSON parser is modelled.
  Floating-point numbers are left out: numbers are integers.
- `http_build_query` is the parameter `encode`; percent-encoding and the
  `k=v&k=v` joining are not modelled.
- `$data` other than an array: the default `false` behaves like the empty
  array, and the model uses that. A string is not modelled.
- Php.KeyOf: the integer range is that of a 64-bit platform, and the string
  of the smallest integer is treated like any other in-range integer string,
  which PHP's length limit on numeric keys may not do. A float `frn`
  (which PHP truncates to an integer key) is not modelled, since numbers are
  integers here.
- Keys inside decoded JSON objects: `decode` is a parameter, so the model does
  not itself turn a numeric object key such as `"5"` into an integer key.
- Fcc.SpeedTestCounty: requires the envelope to be an array or loosely null,
  because PHP raises an error from `array_key_exists` on any other value.
- Fcc.CensusBlock: requires the envelope to be an array or loosely null, because
  `array_intersect_key` raises an error on any other value.
- Fcc.ListUnder: requires the outer key, when present, to hold an array that
  has the inner key, because PHP reports an error or notice otherwise.
- Fcc.FrnList: requires `Frns.Frn`, when `Frns` is present, to be an array of
  arrays that each have a scalar `frn`, because PHP reports an error or notice
  otherwise.
- Concurrent use of the shared handle. The library is single-threaded.
