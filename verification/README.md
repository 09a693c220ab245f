# Linksharing request handler, modelled in Dafny

This project models the request-routing and credential-resolution core of
the Storj linksharing HTTP handler (`handler/handler.go`). That core has
two modes:

- **Traditional mode.** A share link `/[raw/]<access>/<bucket>[/<key>]`
  is parsed into a raw flag, a serialized access grant, a bucket and a
  key. The handler then redirects, lists a prefix, shows an object's
  metadata page, or serves the object.
- **Hosting mode.** A request for a custom domain is resolved through the
  domain's DNS TXT records. Records `storj_grant-<N>:<fragment>` spell one
  access grant and a record `storj_root:<bucket>[/<prefix>]` gives the
  root. Resolutions are kept in a cache with a time-to-live. The request
  path is appended to the root to name the object served.

Everything is a pure function over immutable values:

- strings are `seq<char>`;
- the cache is a `map` value;
- time is an integer tick count;
- the handler's response is a `Response` value describing what would be
  written.

Every call into code outside the handler is a function parameter, and
the model knows nothing about its behaviour. These calls are the storage
client (`ParseAccess`, `OpenProject`, `StatObject`, `ListObjects`,
`GetObjectIPs`), the DNS TXT lookup, `net.SplitHostPort` and
`makeLocation`. They are gathered in `Router.Backend`.

Modules, following the structure of the source:

| module | file | what it holds |
|---|---|---|
| `Wrappers` | wrappers.dfy | `Option` and `Result` |
| `Strings` | strings.dfy | Go's `strings.Split`, `SplitN`, `TrimPrefix`, `TrimRight` and `HasSuffix` for one-character separators, with their round-trip lemmas |
| `Strconv` | strconv.dfy | Go's `strconv.Atoi` (64-bit range, with the order in which Go reports range and syntax errors) and `Itoa` |
| `Uplink` | uplink.dfy | the values that cross the storage client boundary |
| `RequestPath` | requestpath.dfy | `parseRequestPath` |
| `TxtRecords` | txtrecords.dfy | `parseRecords` and `getRemoteRecord` |
| `RecordCache` | cache.dfy | `recordIsExpired`, `checkCache`, `updateCache` and `getRootAndAccess` |
| `Listing` | listing.dfy | the breadcrumb trail and items of `servePrefix` |
| `Hosting` | hosting.dfy | the object key of `handleHostingService` |
| `Router` | router.dfy | `parseURLBase`, `handleUplinkErr`, `handleTraditional`, `handleHostingService` and `serveHTTP` |

### Behaviour of the code that is easy to miss

The model follows the code in every case below.

- **Freshness boundary.** `recordIsExpired` (line 483) expires an entry
  when `timestamp + ttl < now`. So an entry is still fresh at exactly
  `timestamp + ttl`.
- **Mode selection.** `serveHTTP` strips the port from the configured
  host only. It compares the request's `Host` header, port included, with
  that. A request carrying a port therefore always takes the hosting
  path.
- **No method gate in hosting mode.** Hosting requests are served
  whatever their method. Only traditional mode answers 405.
- **Listing errors.** A failed listing goes through `handleUplinkErr`. It
  is a 404 only for "bucket not found" or "object not found", and a 500
  otherwise.
- **Grant bound.** The grant assembly loop runs over `1..len(grants)`,
  bounded by the number of distinct indices rather than the largest one.
  It succeeds exactly when the indices are `1..n` and every fragment is
  non-empty. An index 0, a negative index, a gap and an empty fragment all
  give "missing grants".
- **Grant and root keys.** A grant key is any key that merely starts with
  `storj_grant`, and its index is the text between its first and second
  `-`. The root key is exactly `storj_root`. When several root records
  are present, the last one wins.
- **Empty root.** An empty root value fails like a missing one ("missing
  root path in txt record"), and this check comes before the grant check.
- **Breadcrumb slashes.** `TrimRight` strips ALL trailing slashes of the
  prefix. Each breadcrumb URL adds `"/" + component + "/"` to a URL that
  already ends in `/`. So the prefix `a/b/` gives `cred/bucket//a//b/`,
  with a doubled slash before every component.
- **No "missing bucket path" error.** `GET /cred/bucket` parses to an
  empty key and is answered with a 301 to `/cred/bucket/`
  (`Router.BucketLinkRedirects`). `/cred/` parses with an empty bucket
  (`RequestPath.SplitBucketLink` with an empty bucket).
- **`index.html`.** It replaces the key only when the final key is empty.
  With a sub-prefix the key always holds a slash, so `index.html` is used
  only for a root that names a bare bucket
  (`Hosting.IndexOnlyForBareBucket`).
- **Panics.** `parseRecords` indexes past the end for a `storj_grant` key
  without `-` and for a grant or root record without `:`; `servePrefix`
  slices a listed key shorter than the prefix. The server recovers from a
  handler panic and closes the connection. The model answers such a
  request with `Dropped` (`Router.DropsOnlyOnPanic`). A cache hit never
  panics, whatever the host's TXT records now say.

## Model

| member | source | states |
|---|---|---|
| RequestPath.SplitRequestPath | handler/handler.go:317-346 | A trimmed path without `/` fails with "missing access" when empty and "missing bucket" otherwise, and only such a path fails. On success the access and bucket hold no `/`, and the trimmed path is spelled back by the segments. The raw flag is set exactly when there are four pieces and the first is `raw`. |
| RequestPath.FromPieces | handler/handler.go:321-346 | Folding the pieces fails exactly for a single piece, with "missing access" when it is empty and "missing bucket" otherwise. The raw flag is set exactly for four pieces headed by `raw`; without it the first two pieces are the access and the bucket. |
| RequestPath.FromPiecesShape | handler/handler.go:320-346 | For the pieces `SplitN(t, "/", 4)` computes, folding them fails exactly when `t` has no `/`, with the right message. A success satisfies the segment contract above. |
| RequestPath.FromManyPieces | handler/handler.go:321-346 | Two to four pieces always fold to a success. The access and bucket hold no `/`. The formatted segments give back the path, except that a two-piece path has no trailing `/`. Raw holds only for four pieces headed by `raw`. |
| RequestPath.SplitShape | handler/handler.go:320 | Two, three or four pieces of `SplitN` joined by `/` give back the split string. |
| RequestPath.ParseRequestPath | handler/handler.go:315-353 | An error is reported exactly when no access is returned. Every failure carries empty access, bucket and key strings. A segmenting error is returned with raw false. A `ParseAccess` error is propagated with the raw flag kept. A success carries the parsed access and the segments. |
| RequestPath.SplitFormatted | handler/handler.go:317-346 | Round trip: segmenting `"/" + FormatRequestPath(s)` gives back `s`. This needs an access and bucket free of `/`, and a non-raw link whose access is `raw` must have a key without `/`. |
| RequestPath.ParseFormatted | handler/handler.go:315-353 | Parsing a formatted link yields its segments with the parsed access, or exactly the error `ParseAccess` reports. |
| RequestPath.PiecesOfFour | handler/handler.go:320-324 | `m/a/b/key` with `m`, `a`, `b` free of `/` splits into exactly `[m, a, b, key]`, whatever slashes the key holds. |
| RequestPath.PiecesOfPlain | handler/handler.go:320-330 | A plain link `a/b/key` splits into `[a, b, key]` when the key has no `/`. Otherwise it gives four pieces whose last two, re-joined by `/`, are the key. |
| RequestPath.SplitBucketLink | handler/handler.go:334-346 | `/<access>/<bucket>` without a trailing slash segments into that access and bucket with an empty key. This holds for an empty bucket too. |
| Strings.JoinSplitN | handler/handler.go:320 | `SplitN` loses nothing: its pieces re-joined by the separator give back the input. |
| Strings.SplitNSingle | handler/handler.go:320 | `SplitN` returns the input alone when it holds no separator. With a limit of 2 or more it splits when it does. A last piece short of the limit holds no separator. |
| Strings.JoinSplit | handler/handler.go:263 | `Split` loses nothing: its pieces re-joined by the separator give back the input. |
| Strings.SplitJoin | handler/handler.go:263 | Splitting pieces that are free of the separator after joining them gives them back. |
| Strings.SplitSingle | handler/handler.go:263 | `Split` returns one piece exactly when the separator does not occur, and that piece is the input. |
| Strings.Split | handler/handler.go:263 | `strings.Split` gives at least one piece, and no piece holds the separator. |
| Strings.SplitN | handler/handler.go:320 | `strings.SplitN` gives between one and `n` pieces, and no piece but the last holds the separator. |
| Strings.TrimPrefix | handler/handler.go:435 | The input is the result with at most one leading separator put back, and it is put back exactly when the input starts with one. |
| Strings.TrimRight | handler/handler.go:262 | The result is a prefix of the input that does not end in the character, and everything cut off is that character. |
| Strings.LastSegmentIsSuffix | handler/handler.go:231-232 | The last segment of `strings.Split(key, "/")` holds no `/`. It is a suffix of the key, and is preceded by a `/` when it is not the whole key. |
| Strconv.Atoi | handler/handler.go:506 | A success exactly for an optional `+` or `-`, at least one digit and nothing else, with a value in the signed 64-bit range; the value is the digits' value, negated after `-`. Well-formed input out of range is a range error; any other failure is a syntax error or a range error, each with the input quoted. |
| Strconv.AtoiItoa | handler/handler.go:506 | `Atoi` reads back every non-negative 64-bit value `Itoa` writes. |
| Strconv.OverflowBeforeBadChar | handler/handler.go:506 | Digits whose value exceeds the unsigned 64-bit range are a range error even when a character that is not a digit follows them, as Go's digit scan reports the overflow first. |
| TxtRecords.ScanGathers | handler/handler.go:502-514 | The record loop fails exactly when some grant index does not parse, with the first such error. Otherwise each index holds the fragment of the LAST record naming it, indices no record names keep their value, and the last root record wins. |
| TxtRecords.LastGrant | handler/handler.go:510 | There is a last fragment for an index exactly when some grant record names that index. |
| TxtRecords.ClassifyReadsRecord | handler/handler.go:503-513 | The key is the text before the first `:`. A record is ignored exactly when its key neither starts with `storj_grant` nor is `storj_root`. A grant or root record is its key, a `:` and its value. An unparsable index needs a grant key, and a panic needs a record without `:` or a grant key without `-`. |
| TxtRecords.Scan | handler/handler.go:502-514 | The loop fails exactly when some grant index does not parse, and the grants already gathered are never removed. |
| TxtRecords.AssembleUpTo | handler/handler.go:521-526 | Assembling up to `n` succeeds exactly when every index `1..n` is present with a non-empty fragment, giving the fragments in index order. Otherwise it fails with "missing grants". |
| TxtRecords.AssembleGrants | handler/handler.go:520-526 | With the map's size as the bound, assembly succeeds exactly when the indices are precisely `1..n` and every fragment is non-empty. |
| TxtRecords.CompleteIndices | handler/handler.go:521-522 | A map with `n` keys holds every index `1..n` exactly when its keys are `1..n`. |
| TxtRecords.ParseRecords | handler/handler.go:500-529 | The checks come in the source's order. An unparsable index gives its error. A missing or empty last root gives "missing root path in txt record". Grant indices that are not exactly `1..n`, or an empty fragment, give "missing grants". Otherwise the result is `ParseAccess` on the fragments in index order, with the last root. |
| TxtRecords.ParseKinds | handler/handler.go:500-529 | On the classified records: an unparsable index gives the first such error, a missing or empty last root gives "missing root path in txt record", and a success carries the last root. |
| TxtRecords.ScannedFragments | handler/handler.go:520-526 | After the loop, the grant map spells the same concatenation as the last fragment of each index taken from the records. |
| TxtRecords.GetRemoteRecord | handler/handler.go:489-495 | A failed TXT lookup is returned unchanged. A successful lookup gives exactly `parseRecords` of its records, so a success carries the last root record's path. |
| TxtRecords.ScanSwap | handler/handler.go:502-514 | Swapping two adjacent grants with different indices changes neither safety nor what the loop gathers. |
| TxtRecords.ParseRecordsSwap | handler/handler.go:500-529 | The order of grant records with different indices does not matter: swapping two adjacent ones leaves the result of `parseRecords` unchanged. |
| TxtRecords.ClassifyGrantRecord | handler/handler.go:503-510 | A written record `storj_grant-<N>:<fragment>` reads back as grant `N` with that fragment. |
| TxtRecords.ClassifyRootRecord | handler/handler.go:503-512 | A written record `storj_root:<path>` reads back as that root. |
| TxtRecords.ParseEncodedRecords | handler/handler.go:500-529 | Round trip: non-empty fragments written as numbered grant records, followed by a non-empty root record, parse to that root and to what `ParseAccess` makes of the fragments joined in order. |
| TxtRecords.ScanNumberedGrants | handler/handler.go:502-514 | Scanning grants numbered from `first` overlays their fragments onto the map. |
| TxtRecords.Overlay | handler/handler.go:510 | The overlay holds the old keys plus the numbered range, with the new fragments on the range and the old values elsewhere. |
| RecordCache.CheckCache | handler/handler.go:471-486 | A hit means the host has an entry and `now` is at or before its deadline `timestamp + ttl`. A hit returns that entry. |
| RecordCache.IsExpired | handler/handler.go:483-486 | An entry is expired exactly when its age at `now` exceeds the ttl. |
| RecordCache.UpdateCache | handler/handler.go:532-537 | The host's entry becomes the new access and root stamped `now`. The ttl and every other host's entry are unchanged, and the only key that can be added is the host. |
| RecordCache.GetRootAndAccess | handler/handler.go:456-468 | A fresh hit answers from the cache and leaves it unchanged, whatever DNS holds. On a miss, a failed resolution returns the error with the cache unchanged, and a successful one returns it and replaces only the host's entry, stamped with the store time. Only a miss needs records `parseRecords` can process. |
| RecordCache.FreshUntilDeadline | handler/handler.go:483-486 | An entry is still fresh at exactly its deadline and stale one tick later. |
| RecordCache.StaleStaysStale | handler/handler.go:483-486 | Once an entry is stale, it stays stale. |
| RecordCache.UpdateThenCheck | handler/handler.go:532-537 | A stored entry is a hit throughout its time-to-live. Storing it changes no other host's lookup. |
| RecordCache.ResolvedThenCached | handler/handler.go:456-468 | After a resolution succeeds, asking again within the ttl gives the same answer from the cache and changes nothing, whatever any later TXT lookup would return. |
| RecordCache.FailedResolutionKeepsStale | handler/handler.go:461-464 | A failed resolution never evicts: a stale entry stays in the map. |
| Listing.Components | handler/handler.go:261-263 | The empty prefix has no components, and any other prefix has at least one. No component holds a `/`. |
| Listing.Extend | handler/handler.go:263-268 | One breadcrumb per component, appended after the existing ones, each URL being the previous URL plus `"/" + component + "/"`. |
| Listing.Breadcrumbs | handler/handler.go:256-269 | The trail is the bucket's breadcrumb `access/bucket/` followed by exactly one breadcrumb per component, each URL extending the previous one. |
| Listing.BreadcrumbUrlsDescend | handler/handler.go:257-268 | Each breadcrumb URL is a strict prefix of every later one. |
| Listing.BreadcrumbLabels | handler/handler.go:261-268 | The labels after the bucket, joined by `/`, spell the prefix less its trailing slashes. |
| Listing.TwoLevelTrail | handler/handler.go:256-269 | The prefix `a/b/` gives the trail bucket, `a`, `b` with URLs `base`, `base/a/` and `base/a//b/`, where `base` ends in a slash. |
| Listing.Items | handler/handler.go:279-287 | One item per listed object, in order. Each name is the key less its first `len(prefix)` characters, and each item keeps the object's size and prefix flag. |
| Listing.ItemNamesRestoreKeys | handler/handler.go:281 | For keys that start with the prefix, the prefix plus an item's name gives back the key. |
| Listing.ServePrefix | handler/handler.go:256-290 | A listing error is returned as is. Otherwise the page holds the bucket, the trail and the items of the listing. |
| Hosting.HostingTarget | handler/handler.go:433-443 | The bucket is the root up to its first `/` and holds no `/`. With a sub-prefix the key is the sub-prefix, a `/` and the path less one leading `/`. Without one the key is that path, or `index.html` when it is empty. The key is never empty. |
| Hosting.SplitRoot | handler/handler.go:433 | `SplitN(root, "/", 2)` is the root alone when it has no `/`. Otherwise it is the parts before and after the first `/`. |
| Hosting.HostingTargetOfRoot | handler/handler.go:433-439 | For a root built from a bucket and a sub-prefix, the target is that bucket, and the key is the sub-prefix and the trimmed path joined by `/`. |
| Hosting.IndexOnlyForBareBucket | handler/handler.go:436-443 | `index.html` is served only for a root without a sub-prefix, and only for the path `""`, `/`, `index.html` or `/index.html`. |
| Hosting.HostingSlashedPath | handler/handler.go:432-438 | Root `bucket/sub` and path `/rest` name `sub/rest` in `bucket`, as the example in the source's comment shows. |
| Router.ParseURLBase | handler/handler.go:378-397 | A parse error is returned as is. A base is accepted exactly when its scheme is http or https, it has a host, and it has no user, query or fragment; an accepted base is returned unchanged. Each rejected base gets the message of the first check it fails, in the order scheme, host, user, query, fragment. |
| Router.ParseURLBaseFirstDefect | handler/handler.go:384-395 | A rejected base reports the first check it fails. The user, query and fragment errors are reported only when every earlier check passes. |
| Router.HandleUplinkErr | handler/handler.go:295-313 | Status 404 exactly for "bucket not found" and "object not found", each with its page message. Status 500, "unable to handle request", exactly for every other error. |
| Router.Disposition | handler/handler.go:230-233 | The header is `attachment; filename="<name>"`, where the name holds no `/`, is a suffix of the key, and is preceded by a `/` unless it is the whole key. |
| Router.ServeObject | handler/handler.go:191-236 | With `download`, `view` or the raw flag, the content of the stat'ed object is served for the requested key and bucket, as an attachment named by `Disposition` exactly when `download` is present. Otherwise the IP lookup decides: a failure goes through `handleUplinkErr`, a success gives the metadata page with the object's key, size and IPs. |
| Router.ServeParsed | handler/handler.go:166-236 | A 301 to `path + "/"` exactly when the key is empty or ends in `/` and the path does not. A directory on a slash-terminated path: a listing error goes through `handleUplinkErr`, a key shorter than the prefix drops the request, and otherwise the page has the bucket, trail and items of the listing. Any other key: a stat error goes through `handleUplinkErr`, HEAD gets a 302 to `makeLocation`, and GET is served by `ServeObject`. |
| Router.Dispatch | handler/handler.go:147-159 | Status 400, carrying "invalid request: " and the parse error, exactly when the path does not parse. A project that does not open is reported by `handleUplinkErr`; an open project is served by `ServeParsed`. It is never a 405. |
| Router.HandleTraditional | handler/handler.go:147-159 | A 400 exactly when the path does not split into segments or its access does not parse; never a 405; a project that does not open is reported by `handleUplinkErr`. |
| Router.HandleHosting | handler/handler.go:406-453 | A host that does not split, or a failed resolution, gives a 500. TXT records that make `parseRecords` panic on a cache miss drop the request. After a successful resolution an open or stat error goes through `handleUplinkErr`, and a found object is served, never as an attachment, for the bucket and key the root and path name. The cache afterwards is the one `getRootAndAccess` leaves. Hosting never answers 400 or 405. |
| Router.ServeHTTP | handler/handler.go:112-144 | A configured host that does not split writes nothing. A `Host` header that differs from the port-stripped configured host goes to hosting. Otherwise HEAD is location-only and GET is a full request, and the cache is unchanged. The response is a 405 "method not allowed" exactly for any other method in traditional mode. |
| Router.HeadOnlyLocates | handler/handler.go:133-189 | A traditional HEAD request never transfers an object or its metadata page. |
| Router.BucketLinkRedirects | handler/handler.go:166-171 | `GET /<access>/<bucket>` without a trailing slash is a 301 to the same path plus `/` once the access parses and the project opens. |
| Router.StatusesOfServeHTTP | handler/handler.go:112-313 | Every response has status 0 (dropped), 200, 301, 302, 400, 404, 405 or 500. A 404 is always one of the two "not found" pages, a 500 always "unable to handle request", a 405 always "method not allowed". |
| Router.ServesOnlyStatted | handler/handler.go:179-235 | Content is served only for an object the storage client has just reported for that bucket and key. |
| Router.DropsOnlyOnPanic | handler/handler.go:112-529 | A request is dropped only when a cache miss meets TXT records `parseRecords` cannot process, or when a directory listing holds a key shorter than its prefix. |
| Router.LocatingServesNothing | handler/handler.go:185-189 | Asked for the location only, an open project never answers with the object or its metadata page. |

## Left out

- HTTP response writing is not modelled: headers, bodies, `http.Error`'s trailing newline and `http.Redirect`'s body. A `Response` value names the status, the message and what would be served.
- `httpranger.ServeContent` and its range-header handling are an external library. `Content` stands for a range-capable download of the stat'ed object.
- `objectRanger` (lines 355-376) is not modelled. It only delegates to `DownloadObject` and reports the object's content length.
- Template rendering and `memory.Size.Base10String` are left out. A listed item keeps its byte count, and the metadata page keeps the object's key, size and IP list.
- The geo-IP lookup and the floating-point `Location` values are left out. The metadata page carries the raw IP list instead.
- `net.SplitHostPort`, `url.Parse`, `path.Join` (inside `makeLocation`), `net.LookupTXT` and every storage client call are parameters with no assumed behaviour.
- `uplink.ParseAccess` is a parameter, and `Access` is an opaque handle.
- `errors.Is` on wrapped errors is reduced to a three-way `UplinkError`.
- The clock is two integer readings: one when an entry is checked, one when an entry is stored. This matches the source's two `time.Now()` calls. `time.Duration` arithmetic does not overflow here.
- The cache's mutex is not modelled. Each operation is one atomic step on a cache value, and concurrent interleavings are not considered.
- Logging, monkit instrumentation and the `fmt.Println` debugging output are left out.
- `NewHandler` and template loading are not modelled; only `parseURLBase` is.
- TxtRecords.ParseRecords: on an error the source also returns the root gathered so far. The only caller discards it, so the model returns the error alone.
- Router.ServeHTTP: the error `serveHTTP` returns is dropped by `ServeHTTP` and is not modelled. A configured host that does not split gives `Nothing`, which would be an empty 200 in the source.
- Router.HandleHosting: what `ServeContent` does when the object vanishes between stat and download is not modelled.
- Router.ServeParsed: a template failure after the listing or metadata page has started is not modelled.
- The two panics of the source are answered with `Dropped` rather than modelled further. A listing that fails after yielding a key shorter than the prefix panics in the source, but the model sees only the listing error, because a listing is one `Result` value.
- Strconv.Atoi: the input in an error message is wrapped in double quotes. Go's `strconv.Quote` also escapes quotes, backslashes and non-printable characters. The text is only logged by the handler.
- Strings are sequences of characters, while Go slices strings by bytes (`item.Key[len(prefix):]`, line 281). The two agree when the prefix is a byte prefix of the key, as a listing by prefix returns it.
- Router.ServeParsed: the 301 target is `path + "/"` as the handler passes it. `http.Redirect` also cleans it with `path.Clean`, so a `..` segment would be resolved. Ordinary share links are unaffected.
