/** Request routing of the handler: `parseURLBase`, `serveHTTP`,
    `handleTraditional`, `handleHostingService` and `handleUplinkErr`.
    Every call into the storage client, the resolver and the standard
    library's URL helpers is a field of `Backend`, and the response is a
    value describing what would be written. */
module Router {
  import opened Wrappers
  import opened Strings
  import opened Uplink
  import opened RequestPath
  import opened TxtRecords
  import opened RecordCache
  import opened Listing
  import opened Hosting

  /** The parts of a parsed URL that the handler inspects. `hasUser`
      stands for a non-nil `User`. */
  datatype URL = URL(scheme: string, host: string, hasUser: bool, path: string, rawQuery: string, fragment: string)

  const SchemeError := "URL base must be http:// or https://"
  const HostError := "URL base must contain host"
  const UserError := "URL base must not contain user info"
  const QueryError := "URL base must not contain query values"
  const FragmentError := "URL base must not contain a fragment"

  /** A base URL the handler accepts. */
  predicate ValidBase(u: URL)
  {
    (u.scheme == "http" || u.scheme == "https") && u.host != "" && !u.hasUser && u.rawQuery == "" && u.fragment == ""
  }

  /** `parseURLBase` (lines 378-397) over the outcome of `url.Parse`: a
      parse error is returned as is; the checks run in the order scheme,
      host, user, query, fragment, and the first that fails is reported. */
  function ParseURLBase(parsed: Result<URL, string>): (r: Result<URL, string>)
    ensures parsed.Failure? ==> r == parsed
    ensures r.Success? <==> parsed.Success? && ValidBase(parsed.value)
    ensures r.Success? ==> r.value == parsed.value
    ensures parsed.Success? ==>
      var u := parsed.value;
      && (u.scheme != "http" && u.scheme != "https" ==> r == Failure(SchemeError))
      && ((u.scheme == "http" || u.scheme == "https") && u.host == "" ==> r == Failure(HostError))
      && ((u.scheme == "http" || u.scheme == "https") && u.host != "" && u.hasUser ==> r == Failure(UserError))
      && ((u.scheme == "http" || u.scheme == "https") && u.host != "" && !u.hasUser && u.rawQuery != "" ==>
            r == Failure(QueryError))
      && (ValidBase(u.(fragment := "")) && u.fragment != "" ==> r == Failure(FragmentError))
  {
    match parsed
    case Failure(e) => Failure(e)
    case Success(u) =>
      if u.scheme != "http" && u.scheme != "https" then Failure(SchemeError)
      else if u.host == "" then Failure(HostError)
      else if u.hasUser then Failure(UserError)
      else if u.rawQuery != "" then Failure(QueryError)
      else if u.fragment != "" then Failure(FragmentError)
      else Success(u)
  }

  /** A rejected base URL names the first check it fails: a later defect
      is reported only when every earlier check passes. */
  lemma ParseURLBaseFirstDefect(u: URL)
    requires !ValidBase(u)
    ensures ParseURLBase(Success(u)).Failure?
    ensures ParseURLBase(Success(u)).error == UserError ==>
      (u.scheme == "http" || u.scheme == "https") && u.host != "" && u.hasUser
    ensures ParseURLBase(Success(u)).error == QueryError ==>
      (u.scheme == "http" || u.scheme == "https") && u.host != "" && !u.hasUser && u.rawQuery != ""
    ensures ParseURLBase(Success(u)).error == FragmentError ==>
      ValidBase(u.(fragment := "")) && u.fragment != ""
  {
  }

  /** What the handler writes. `Content` stands for a range-capable
      download of `object` served under `name`; `Nothing` is a request
      abandoned before anything is written, which the server completes
      with an empty 200. `Dropped` is a request whose handler panics: the
      server recovers, and the connection is closed without any response. */
  datatype Response =
    | TextError(status: int, body: string)
    | NotFound(message: string)
    | Redirect(status: int, location: string)
    | ListingPage(page: Page)
    | ObjectPage(name: string, size: int, ips: seq<string>)
    | Content(name: string, bucket: string, info: ObjectInfo, disposition: Option<string>)
    | Nothing
    | Dropped

  /** The HTTP status of a response; pages and content are written with
      the default 200, and a dropped request has no status line, written
      here as 0. */
  function Status(r: Response): int
  {
    match r
    case TextError(status, _) => status
    case NotFound(_) => 404
    case Redirect(status, _) => status
    case Dropped => 0
    case _ => 200
  }

  const UnableToHandle := "unable to handle request"
  const MethodNotAllowed := "method not allowed"
  const BucketNotFoundPage := "Oops! Bucket not found."
  const ObjectNotFoundPage := "Oops! Object not found."

  /** `handleUplinkErr` (lines 295-313): the two "not found" errors give
      the 404 page with their message, anything else a plain 500. */
  function HandleUplinkErr(e: UplinkError): (r: Response)
    ensures Status(r) == 404 <==> e.BucketNotFound? || e.ObjectNotFound?
    ensures Status(r) == 500 <==> e.OtherError?
    ensures e.BucketNotFound? ==> r == NotFound(BucketNotFoundPage)
    ensures e.ObjectNotFound? ==> r == NotFound(ObjectNotFoundPage)
    ensures e.OtherError? ==> r == TextError(500, UnableToHandle)
  {
    match e
    case BucketNotFound => NotFound(BucketNotFoundPage)
    case ObjectNotFound => NotFound(ObjectNotFoundPage)
    case OtherError(_) => TextError(500, UnableToHandle)
  }

  /** The calls the handler makes to code outside this model. */
  datatype Backend = Backend(
    splitHostPort: string -> Result<string, string>,
    parseAccess: string -> Result<Access, string>,
    openProject: Access -> Result<Project, UplinkError>,
    statObject: (Project, string, string) -> Result<ObjectInfo, UplinkError>,
    listObjects: (Project, string, string) -> Result<seq<ObjectInfo>, UplinkError>,
    objectIPs: (Access, string, string) -> Result<seq<string>, UplinkError>,
    makeLocation: (URL, string) -> string,
    lookupTxt: string -> Result<seq<string>, string>)

  /** An incoming request: method, `Host` header, URL path and the names
      of the query parameters present. */
  datatype Request = Request(verb: string, host: string, path: string, query: set<string>)

  /** A key naming a directory: empty or ending in `/`. */
  predicate IsDirectory(key: string)
  {
    key == "" || HasSuffix(key, '/')
  }

  /** The `Content-Disposition` of a download (lines 230-233): the file
      name is a slash-free tail of the key, right after its last slash or
      the whole key. */
  function Disposition(key: string): (d: string)
    ensures |AttachmentPrefix| < |d| && d[..|AttachmentPrefix|] == AttachmentPrefix && d[|d| - 1] == '"'
    ensures Names(key, d[|AttachmentPrefix|..|d| - 1])
  {
    var name := LastSegment(key, '/');
    LastSegmentIsSuffix(key, '/');
    var d := AttachmentPrefix + name + "\"";
    assert d[|AttachmentPrefix|..|d| - 1] == name;
    d
  }

  const AttachmentPrefix := "attachment; filename=\""

  /** `name` is what follows the last `/` of `key`, or all of it. */
  predicate Names(key: string, name: string)
  {
    && '/' !in name
    && |name| <= |key|
    && key[|key| - |name|..] == name
    && (|name| < |key| ==> key[|key| - |name| - 1] == '/')
  }

  /** An object that exists and is not asked for by location only:
      `handleTraditional` from line 191 on. Without `download`, `view` or
      the raw prefix the metadata page is shown, and a failed IP lookup
      goes through `handleUplinkErr`; otherwise the content is served,
      as an attachment when `download` is present, and no IP lookup is
      made. */
  function ServeObject(parsed: ParsedPath, o: ObjectInfo, query: set<string>, b: Backend): (r: Response)
    requires parsed.access.Some?
    ensures r.Content? <==> "download" in query || "view" in query || parsed.raw
    ensures r.Content? ==>
      r == Content(parsed.key, parsed.bucket, o, if "download" in query then Some(Disposition(parsed.key)) else None)
    ensures !r.Content? ==>
      var ips := b.objectIPs(parsed.access.value, parsed.bucket, parsed.key);
      && (ips.Failure? ==> r == HandleUplinkErr(ips.error))
      && (ips.Success? ==> r == ObjectPage(o.key, o.contentLength, ips.value))
  {
    var download := "download" in query;
    var view := "view" in query;
    if !download && !view && !parsed.raw then
      match b.objectIPs(parsed.access.value, parsed.bucket, parsed.key)
      case Failure(e) => HandleUplinkErr(e)
      case Success(ips) => ObjectPage(o.key, o.contentLength, ips)
    else
      Content(parsed.key, parsed.bucket, o, if download then Some(Disposition(parsed.key)) else None)
  }

  /** `handleTraditional` (lines 166-236) once the access has parsed and
      the project is open. A directory link without its trailing slash is
      redirected to it; a directory link is listed, a listing error going
      through `handleUplinkErr` and a listed key shorter than the prefix
      panicking at line 281; any other key is looked up, and a HEAD request
      for an object that exists is answered with a 302 to its location. */
  function ServeParsed(base: URL, req: Request, locationOnly: bool, parsed: ParsedPath, p: Project, b: Backend)
    : (r: Response)
    requires parsed.access.Some?
    ensures IsDirectory(parsed.key) && !HasSuffix(req.path, '/') <==> r == Redirect(301, req.path + "/")
    ensures IsDirectory(parsed.key) && HasSuffix(req.path, '/') ==>
      var listing := b.listObjects(p, parsed.bucket, parsed.key);
      && (listing.Failure? ==> r == HandleUplinkErr(listing.error))
      && (listing.Success? && !KeysCoverPrefix(parsed.key, listing.value) ==> r == Dropped)
      && (listing.Success? && KeysCoverPrefix(parsed.key, listing.value) ==>
            r == ListingPage(Page(parsed.bucket, Breadcrumbs(parsed.serializedAccess, parsed.bucket, parsed.key),
                                  Items(parsed.key, listing.value))))
    ensures !IsDirectory(parsed.key) ==>
      var stat := b.statObject(p, parsed.bucket, parsed.key);
      && (stat.Failure? ==> r == HandleUplinkErr(stat.error))
      && (stat.Success? && locationOnly ==> r == Redirect(302, b.makeLocation(base, req.path)))
      && (stat.Success? && !locationOnly ==> r == ServeObject(parsed, stat.value, req.query, b))
    ensures r.Redirect? && r.status == 302 <==>
      !IsDirectory(parsed.key) && b.statObject(p, parsed.bucket, parsed.key).Success? && locationOnly
  {
    if IsDirectory(parsed.key) then
      if !HasSuffix(req.path, '/') then Redirect(301, req.path + "/")
      else
        var listing := b.listObjects(p, parsed.bucket, parsed.key);
        if listing.Success? && !KeysCoverPrefix(parsed.key, listing.value) then Dropped
        else
          match ServePrefix(parsed.serializedAccess, parsed.bucket, parsed.key, listing)
          case Failure(e) => HandleUplinkErr(e)
          case Success(page) => ListingPage(page)
    else
      match b.statObject(p, parsed.bucket, parsed.key)
      case Failure(e) => HandleUplinkErr(e)
      case Success(o) =>
        if locationOnly then Redirect(302, b.makeLocation(base, req.path))
        else ServeObject(parsed, o, req.query, b)
  }

  /** `handleTraditional` (lines 147-237) on the outcome of
      `parseRequestPath`: a path that does not parse is a 400 carrying the
      parse error; a project that does not open is reported by
      `handleUplinkErr`; otherwise the request is served. */
  function Dispatch(base: URL, req: Request, locationOnly: bool, parsed: ParsedPath, b: Backend): (r: Response)
    requires parsed.err.Some? <==> parsed.access.None?
    ensures Status(r) == 400 <==> parsed.err.Some?
    ensures parsed.err.Some? ==> r == TextError(400, "invalid request: " + parsed.err.value)
    ensures parsed.err.None? ==>
      var opening := b.openProject(parsed.access.value);
      && (opening.Failure? ==> r == HandleUplinkErr(opening.error))
      && (opening.Success? ==> r == ServeParsed(base, req, locationOnly, parsed, opening.value, b))
    ensures Status(r) != 405
  {
    match parsed.access
    case None => TextError(400, "invalid request: " + parsed.err.value)
    case Some(access) =>
      match b.openProject(access)
      case Failure(e) => HandleUplinkErr(e)
      case Success(p) => ServeParsed(base, req, locationOnly, parsed, p, b)
  }

  /** `handleTraditional`: the request path is parsed with the backend's
      `ParseAccess` and the outcome dispatched. The request is refused with
      a 400 exactly when the path does not split into segments or its
      access does not parse, and never with a 405; a project that does not
      open is reported by `handleUplinkErr`. */
  function HandleTraditional(base: URL, req: Request, locationOnly: bool, b: Backend): (r: Response)
    ensures var split := SplitRequestPath(req.path);
      && (Status(r) == 400 <==> split.Failure? || b.parseAccess(split.value.serializedAccess).Failure?)
      && (split.Success? && b.parseAccess(split.value.serializedAccess).Success? ==>
            var opening := b.openProject(b.parseAccess(split.value.serializedAccess).value);
            opening.Failure? ==> r == HandleUplinkErr(opening.error))
    ensures Status(r) != 405
  {
    Dispatch(base, req, locationOnly, ParseRequestPath(req.path, b.parseAccess), b)
  }

  /** `handleHostingService` (lines 406-453): the host is looked up in the
      credential cache (or in DNS), and the object the root and path name
      is served whatever the request method. TXT records that make
      `parseRecords` panic drop the request. The cache afterwards is
      returned with the response. */
  function HandleHosting(c: Cache, req: Request, b: Backend, checkTime: int, storeTime: int)
    : (r: (Response, Cache))
    ensures b.splitHostPort(req.host).Failure? ==> r == (TextError(500, UnableToHandle), c)
    ensures b.splitHostPort(req.host).Success? && ResolutionPanics(c, b.splitHostPort(req.host).value, checkTime, b.lookupTxt) ==>
      r == (Dropped, c)
    ensures b.splitHostPort(req.host).Success? && !ResolutionPanics(c, b.splitHostPort(req.host).value, checkTime, b.lookupTxt) ==>
      var resolved := GetRootAndAccess(c, b.splitHostPort(req.host).value, checkTime, storeTime, b.lookupTxt, b.parseAccess);
      && r.1 == resolved.1
      && (resolved.0.Failure? ==> r.0 == TextError(500, UnableToHandle))
      && (resolved.0.Success? ==>
            var t := HostingTarget(resolved.0.value.1, req.path);
            var opening := b.openProject(resolved.0.value.0);
            && (opening.Failure? ==> r.0 == HandleUplinkErr(opening.error))
            && (opening.Success? ==>
                  var stat := b.statObject(opening.value, t.bucket, t.key);
                  && (stat.Failure? ==> r.0 == HandleUplinkErr(stat.error))
                  && (stat.Success? ==> r.0 == Content(t.key, t.bucket, stat.value, None))))
    ensures Status(r.0) == 200 ==> r.0.Content?
    ensures Status(r.0) != 405 && Status(r.0) != 400
  {
    match b.splitHostPort(req.host)
    case Failure(_) => (TextError(500, UnableToHandle), c)
    case Success(host) =>
      if ResolutionPanics(c, host, checkTime, b.lookupTxt) then (Dropped, c)
      else
        var (resolved, c') := GetRootAndAccess(c, host, checkTime, storeTime, b.lookupTxt, b.parseAccess);
        match resolved
        case Failure(_) => (TextError(500, UnableToHandle), c')
        case Success((access, root)) =>
          match b.openProject(access)
          case Failure(e) => (HandleUplinkErr(e), c')
          case Success(p) =>
            var t := HostingTarget(root, req.path);
            match b.statObject(p, t.bucket, t.key)
            case Failure(e) => (HandleUplinkErr(e), c')
            case Success(o) => (Content(t.key, t.bucket, o, None), c')
  }

  /** `serveHTTP` (lines 112-144). The configured host, stripped of its
      port, selects the mode: a request whose `Host` header differs from it
      (compared with its port still on) is a hosting request; otherwise
      HEAD asks for the location only, GET for the object, and every other
      method is refused. A configured host that does not split abandons the
      request. */
  function ServeHTTP(base: URL, c: Cache, req: Request, b: Backend, checkTime: int, storeTime: int)
    : (r: (Response, Cache))
    ensures b.splitHostPort(base.host).Failure? ==> r == (Nothing, c)
    ensures b.splitHostPort(base.host).Success? && req.host != b.splitHostPort(base.host).value ==>
      r == HandleHosting(c, req, b, checkTime, storeTime)
    ensures b.splitHostPort(base.host).Success? && req.host == b.splitHostPort(base.host).value ==>
      && r.1 == c
      && (req.verb == "HEAD" ==> r.0 == HandleTraditional(base, req, true, b))
      && (req.verb == "GET" ==> r.0 == HandleTraditional(base, req, false, b))
    ensures Status(r.0) == 405 <==>
      && b.splitHostPort(base.host).Success?
      && req.host == b.splitHostPort(base.host).value
      && req.verb != "GET" && req.verb != "HEAD"
    ensures Status(r.0) == 405 ==> r.0 == TextError(405, MethodNotAllowed)
  {
    match b.splitHostPort(base.host)
    case Failure(_) => (Nothing, c)
    case Success(serverHost) =>
      if req.host != serverHost then HandleHosting(c, req, b, checkTime, storeTime)
      else if req.verb == "HEAD" then (HandleTraditional(base, req, true, b), c)
      else if req.verb == "GET" then (HandleTraditional(base, req, false, b), c)
      else (TextError(405, MethodNotAllowed), c)
  }

  /** The statuses the handler writes and what each carries: a 404 is
      always one of the two "not found" pages, a 500 always the plain
      "unable to handle request", a 405 the plain "method not allowed", a
      400 the parse error; no other error status occurs. */
  predicate StatusesKept(r: Response)
  {
    && Status(r) in {0, 200, 301, 302, 400, 404, 405, 500}
    && (Status(r) == 404 ==> r == NotFound(BucketNotFoundPage) || r == NotFound(ObjectNotFoundPage))
    && (Status(r) == 500 ==> r == TextError(500, UnableToHandle))
    && (Status(r) == 405 ==> r == TextError(405, MethodNotAllowed))
    && (Status(r) == 400 ==> r.TextError?)
  }

  /** Every response of `serveHTTP` keeps to `StatusesKept`. */
  lemma StatusesOfServeHTTP(base: URL, c: Cache, req: Request, b: Backend, checkTime: int, storeTime: int)
    ensures StatusesKept(ServeHTTP(base, c, req, b, checkTime, storeTime).0)
  {
    match b.splitHostPort(base.host)
    case Failure(_) =>
    case Success(serverHost) =>
      if req.host != serverHost {
        StatusesOfHosting(c, req, b, checkTime, storeTime);
      } else if req.verb == "HEAD" || req.verb == "GET" {
        StatusesOfTraditional(base, req, req.verb == "HEAD", b);
      }
  }

  lemma StatusesOfUplinkErr(e: UplinkError)
    ensures StatusesKept(HandleUplinkErr(e))
  {
  }

  lemma StatusesOfHosting(c: Cache, req: Request, b: Backend, checkTime: int, storeTime: int)
    ensures StatusesKept(HandleHosting(c, req, b, checkTime, storeTime).0)
  {
    var r := HandleHosting(c, req, b, checkTime, storeTime).0;
    if r.NotFound? || (r.TextError? && r.status != 500) {
      var host := b.splitHostPort(req.host).value;
      var resolved := GetRootAndAccess(c, host, checkTime, storeTime, b.lookupTxt, b.parseAccess);
      var t := HostingTarget(resolved.0.value.1, req.path);
      var opening := b.openProject(resolved.0.value.0);
      if opening.Failure? {
        StatusesOfUplinkErr(opening.error);
      } else {
        StatusesOfUplinkErr(b.statObject(opening.value, t.bucket, t.key).error);
      }
    }
  }

  lemma StatusesOfTraditional(base: URL, req: Request, locationOnly: bool, b: Backend)
    ensures StatusesKept(HandleTraditional(base, req, locationOnly, b))
  {
    var parsed := ParseRequestPath(req.path, b.parseAccess);
    if parsed.err.None? {
      var opening := b.openProject(parsed.access.value);
      if opening.Failure? {
        StatusesOfUplinkErr(opening.error);
      } else {
        StatusesOfServeParsed(base, req, locationOnly, parsed, opening.value, b);
      }
    }
  }

  lemma StatusesOfServeParsed(base: URL, req: Request, locationOnly: bool, parsed: ParsedPath, p: Project, b: Backend)
    requires parsed.access.Some?
    ensures StatusesKept(ServeParsed(base, req, locationOnly, parsed, p, b))
  {
    if IsDirectory(parsed.key) {
      var listing := b.listObjects(p, parsed.bucket, parsed.key);
      if listing.Failure? {
        StatusesOfUplinkErr(listing.error);
      }
    } else {
      var stat := b.statObject(p, parsed.bucket, parsed.key);
      if stat.Failure? {
        StatusesOfUplinkErr(stat.error);
      } else if !locationOnly {
        var ips := b.objectIPs(parsed.access.value, parsed.bucket, parsed.key);
        if ips.Failure? {
          StatusesOfUplinkErr(ips.error);
        }
      }
    }
  }

  /** Content is served only for an object the storage client has just
      reported, under the bucket and key it was asked for. */
  lemma ServesOnlyStatted(base: URL, c: Cache, req: Request, b: Backend, checkTime: int, storeTime: int)
    ensures var r := ServeHTTP(base, c, req, b, checkTime, storeTime).0;
      r.Content? ==> exists p :: b.statObject(p, r.bucket, r.name) == Success(r.info)
  {
    match b.splitHostPort(base.host)
    case Failure(_) =>
    case Success(serverHost) =>
      if req.host != serverHost {
        HostingServesStatted(c, req, b, checkTime, storeTime);
      } else if req.verb == "HEAD" || req.verb == "GET" {
        TraditionalServesStatted(base, req, req.verb == "HEAD", b);
      }
  }

  lemma HostingServesStatted(c: Cache, req: Request, b: Backend, checkTime: int, storeTime: int)
    ensures var r := HandleHosting(c, req, b, checkTime, storeTime).0;
      r.Content? ==> exists p :: b.statObject(p, r.bucket, r.name) == Success(r.info)
  {
    var r := HandleHosting(c, req, b, checkTime, storeTime).0;
    if r.Content? {
      var host := b.splitHostPort(req.host).value;
      var resolved := GetRootAndAccess(c, host, checkTime, storeTime, b.lookupTxt, b.parseAccess);
      var p := b.openProject(resolved.0.value.0).value;
      var t := HostingTarget(resolved.0.value.1, req.path);
      assert b.statObject(p, r.bucket, r.name) == Success(r.info);
    }
  }

  lemma TraditionalServesStatted(base: URL, req: Request, locationOnly: bool, b: Backend)
    ensures var r := HandleTraditional(base, req, locationOnly, b);
      r.Content? ==> exists p :: b.statObject(p, r.bucket, r.name) == Success(r.info)
  {
    var parsed := ParseRequestPath(req.path, b.parseAccess);
    var r := HandleTraditional(base, req, locationOnly, b);
    assert r == Dispatch(base, req, locationOnly, parsed, b);
    if parsed.err.None? {
      var opening := b.openProject(parsed.access.value);
      if opening.Failure? {
        StatusesOfUplinkErr(opening.error);
      } else {
        ParsedServesStatted(base, req, locationOnly, parsed, opening.value, b);
      }
    }
  }

  lemma ParsedServesStatted(base: URL, req: Request, locationOnly: bool, parsed: ParsedPath, p: Project, b: Backend)
    requires parsed.access.Some?
    ensures var r := ServeParsed(base, req, locationOnly, parsed, p, b);
      r.Content? ==> b.statObject(p, r.bucket, r.name) == Success(r.info)
  {
    if IsDirectory(parsed.key) {
      var listing := b.listObjects(p, parsed.bucket, parsed.key);
      if listing.Failure? {
        StatusesOfUplinkErr(listing.error);
      }
    } else if b.statObject(p, parsed.bucket, parsed.key).Failure? {
      StatusesOfUplinkErr(b.statObject(p, parsed.bucket, parsed.key).error);
    }
  }

  /** A request is dropped only where the source panics: TXT records that
      `parseRecords` cannot index on a cache miss, or a listed key shorter
      than the listed prefix. */
  lemma DropsOnlyOnPanic(base: URL, c: Cache, req: Request, b: Backend, checkTime: int, storeTime: int)
    ensures ServeHTTP(base, c, req, b, checkTime, storeTime).0.Dropped? ==>
      || (b.splitHostPort(req.host).Success? && ResolutionPanics(c, b.splitHostPort(req.host).value, checkTime, b.lookupTxt))
      || ListingPanics(ParseRequestPath(req.path, b.parseAccess), b)
  {
    match b.splitHostPort(base.host)
    case Failure(_) =>
    case Success(serverHost) =>
      if req.host != serverHost {
        HostingDropsOnlyOnPanic(c, req, b, checkTime, storeTime);
      } else if req.verb == "HEAD" || req.verb == "GET" {
        TraditionalDropsOnlyOnPanic(base, req, req.verb == "HEAD", b);
      }
  }

  lemma HostingDropsOnlyOnPanic(c: Cache, req: Request, b: Backend, checkTime: int, storeTime: int)
    ensures HandleHosting(c, req, b, checkTime, storeTime).0.Dropped? ==>
      b.splitHostPort(req.host).Success? && ResolutionPanics(c, b.splitHostPort(req.host).value, checkTime, b.lookupTxt)
  {
    var r := HandleHosting(c, req, b, checkTime, storeTime).0;
    if r.Dropped? && b.splitHostPort(req.host).Success? {
      var host := b.splitHostPort(req.host).value;
      if !ResolutionPanics(c, host, checkTime, b.lookupTxt) {
        assert false;
      }
    }
  }

  /** The listing of a parsed directory link holds a key shorter than its
      prefix, for some open project. */
  ghost predicate ListingPanics(parsed: ParsedPath, b: Backend)
  {
    && IsDirectory(parsed.key)
    && exists p :: b.listObjects(p, parsed.bucket, parsed.key).Success? &&
         !KeysCoverPrefix(parsed.key, b.listObjects(p, parsed.bucket, parsed.key).value)
  }

  lemma TraditionalDropsOnlyOnPanic(base: URL, req: Request, locationOnly: bool, b: Backend)
    ensures HandleTraditional(base, req, locationOnly, b).Dropped? ==>
      ListingPanics(ParseRequestPath(req.path, b.parseAccess), b)
  {
    var parsed := ParseRequestPath(req.path, b.parseAccess);
    var r := HandleTraditional(base, req, locationOnly, b);
    assert r == Dispatch(base, req, locationOnly, parsed, b);
    if parsed.err.None? {
      var opening := b.openProject(parsed.access.value);
      if opening.Failure? {
        StatusesOfUplinkErr(opening.error);
      } else {
        ParsedDropsOnlyOnPanic(base, req, locationOnly, parsed, opening.value, b);
      }
    }
  }

  lemma ParsedDropsOnlyOnPanic(base: URL, req: Request, locationOnly: bool, parsed: ParsedPath, p: Project, b: Backend)
    requires parsed.access.Some?
    ensures ServeParsed(base, req, locationOnly, parsed, p, b).Dropped? ==>
      IsDirectory(parsed.key) && b.listObjects(p, parsed.bucket, parsed.key).Success? &&
      !KeysCoverPrefix(parsed.key, b.listObjects(p, parsed.bucket, parsed.key).value)
  {
    if IsDirectory(parsed.key) {
      var listing := b.listObjects(p, parsed.bucket, parsed.key);
      if listing.Failure? {
        StatusesOfUplinkErr(listing.error);
      }
    } else {
      var stat := b.statObject(p, parsed.bucket, parsed.key);
      if stat.Failure? {
        StatusesOfUplinkErr(stat.error);
      } else if !locationOnly {
        var ips := b.objectIPs(parsed.access.value, parsed.bucket, parsed.key);
        if ips.Failure? {
          StatusesOfUplinkErr(ips.error);
        }
      }
    }
  }

  /** A HEAD request never transfers an object or its metadata page: an
      object that exists answers with a 302 to its location. */
  lemma HeadOnlyLocates(base: URL, c: Cache, req: Request, b: Backend, checkTime: int, storeTime: int)
    requires b.splitHostPort(base.host).Success? && req.host == b.splitHostPort(base.host).value
    requires req.verb == "HEAD"
    ensures var r := ServeHTTP(base, c, req, b, checkTime, storeTime).0;
      !r.Content? && !r.ObjectPage?
  {
    var parsed := ParseRequestPath(req.path, b.parseAccess);
    var r := HandleTraditional(base, req, true, b);
    assert r == Dispatch(base, req, true, parsed, b);
    if parsed.err.None? && b.openProject(parsed.access.value).Success? {
      LocatingServesNothing(base, req, parsed, b.openProject(parsed.access.value).value, b);
    }
  }

  /** Asked for the location only, the served answer is never the object
      or its metadata page. */
  lemma LocatingServesNothing(base: URL, req: Request, parsed: ParsedPath, p: Project, b: Backend)
    requires parsed.access.Some?
    ensures var r := ServeParsed(base, req, true, parsed, p, b);
      !r.Content? && !r.ObjectPage?
  {
    if !IsDirectory(parsed.key) && b.statObject(p, parsed.bucket, parsed.key).Failure? {
      var e := b.statObject(p, parsed.bucket, parsed.key).error;
      assert !HandleUplinkErr(e).Content? && !HandleUplinkErr(e).ObjectPage?;
    }
  }

  /** A share link to a bucket without the trailing slash, `GET /cred/bucket`,
      is redirected to `/cred/bucket/` once the access parses and the
      project opens. */
  lemma BucketLinkRedirects(base: URL, req: Request, b: Backend, access: string, bucket: string)
    requires '/' !in access && '/' !in bucket && bucket != ""
    requires req.path == "/" + access + "/" + bucket
    requires b.parseAccess(access).Success?
    requires b.openProject(b.parseAccess(access).value).Success?
    ensures HandleTraditional(base, req, false, b) == Redirect(301, req.path + "/")
  {
    SplitBucketLink(access, bucket);
    var parsed := ParseRequestPath(req.path, b.parseAccess);
    assert parsed == ParsedPath(false, Some(b.parseAccess(access).value), access, bucket, "", None);
    assert !HasSuffix(req.path, '/') by {
      assert req.path[|req.path| - 1] == bucket[|bucket| - 1];
    }
  }
}
