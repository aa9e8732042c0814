/**
  The decision logic of the vanity-import handler `Redirect` (redirect.go), as
  a function from an abstract request to an abstract response: the ordered
  guard chain (https, GET, go-get=1, metadata), the godoc target for browsers,
  and the package name and PkgDescriptor served to the go tool.
 */
module Vanity {
  import opened Wrappers
  import opened GoStrings

  /** The service's own host name. */
  const HOSTNAME := "go.kendal.io"
  /** Documentation viewer and its search page. */
  const GODOC_BASE := "https://godoc.org/"
  const GODOC_SEARCH := "https://godoc.org/?q="
  /** Where the packages are hosted. */
  const GITHUB_BASE := "https://github.com/kharland/"
  /** The caching hint sent with a metadata document. */
  const CACHE_CONTROL := "public, max-age=600"

  const METHOD_GET := "GET"
  const STATUS_OK := 200
  const STATUS_MOVED_PERMANENTLY := 301
  const STATUS_TEMPORARY_REDIRECT := 307
  const STATUS_METHOD_NOT_ALLOWED := 405
  const STATUS_INTERNAL_SERVER_ERROR := 500
  /** http.StatusText(405). */
  const METHOD_NOT_ALLOWED_TEXT := "Method Not Allowed"

  /** The parts of a request URL the handler reads or rewrites. */
  datatype Url = Url(scheme: string, host: string, path: string, rawQuery: string)

  /**
    An incoming request: its method (`verb`), URL, Host header, and the value of the
    `go-get` query parameter (None when the parameter is absent).
   */
  datatype Request = Request(verb: string, url: Url, host: string, goGet: Option<string>)

  /** A Location header: the request's own URL (301) or a literal address (307). */
  datatype Location = ToUrl(url: Url) | ToAddress(address: string)

  /** PkgDescriptor: the import path and the repository holding it. */
  datatype PkgDescriptor = PkgDescriptor(package: string, remote: string)

  /** A piece of response body: plain text, or the metadata page rendered for a descriptor. */
  datatype Chunk = Text(text: string) | Page(descriptor: PkgDescriptor)

  /** What the client receives: status, the two headers the handler sets, and the body. */
  datatype Response = Response(status: int, location: Option<Location>, cacheControl: Option<string>, body: seq<Chunk>)

  // ---------------------------------------------------------------- guards

  /** The request arrived over plain http. */
  predicate Insecure(req: Request) {
    req.url.scheme == "http"
  }

  /** The go tool asked for metadata: the `go-get` value is exactly "1". */
  predicate ToolRequest(req: Request) {
    req.goGet == Some("1")
  }

  /** The metadata branch is reached: https (or any scheme but "http"), GET, go-get=1. */
  predicate MetadataRequested(req: Request) {
    !Insecure(req) && req.verb == METHOD_GET && ToolRequest(req)
  }

  /** The URL requireHTTPS leaves behind: the scheme is forced to "https" when it was "http". */
  function SecureUrl(u: Url): (v: Url)
    ensures v.host == u.host && v.path == u.path && v.rawQuery == u.rawQuery
    ensures u.scheme == "http" ==> v.scheme == "https"
    ensures u.scheme != "http" ==> v == u
  {
    if u.scheme == "http" then u.(scheme := "https") else u
  }

  // ------------------------------------------------------ browser redirect

  /**
    Where a browser is sent: the godoc search page for this host name when the
    path is "" or "/", otherwise the godoc page of host + path.
   */
  function GodocTarget(host: string, path: string): (target: string)
    ensures path == "" || path == "/" ==> target == GODOC_SEARCH + HOSTNAME
    ensures path != "" && path != "/" ==> GODOC_BASE + host <= target && HasSuffix(target, path)
    ensures path != "" && path != "/" ==> |target| == |GODOC_BASE| + |host| + |path|
  {
    TrimPrefixEmptyIff(path, '/');
    var newUrl := GODOC_BASE + host + path;
    if TrimPrefix(path, "/") == "" then GODOC_SEARCH + HOSTNAME else newUrl
  }

  // ------------------------------------------------------ package metadata

  /**
    The package a path names: slashes trimmed from both ends, then the first
    "/"-separated segment (go.kendal.io/foo/cmd/bar names foo).
   */
  function PackageName(path: string): (pkg: string)
    ensures '/' !in pkg
    ensures pkg <= Trim(path, "/")
    ensures pkg == Split(Trim(path, "/"), '/')[0]
  {
    var trimmed := Trim(path, "/");
    var parts := Split(trimmed, '/');
    assert parts[0] in parts;
    if |parts| > 1 then
      assert trimmed == parts[0] + [ '/' ] + Join(parts[1..], '/');
      parts[0]
    else
      trimmed
  }

  /** The descriptor for a package name. */
  function Describe(pkg: string): (d: PkgDescriptor)
    ensures HOSTNAME + "/" <= d.package && d.package[|HOSTNAME| + 1..] == pkg
    ensures GITHUB_BASE <= d.remote && d.remote[|GITHUB_BASE|..] == pkg
  {
    PkgDescriptor(HOSTNAME + "/" + pkg, GITHUB_BASE + pkg)
  }

  /** The descriptor served for a request path. */
  function DescriptorFor(path: string): PkgDescriptor {
    Describe(PackageName(path))
  }

  /**
    The package name a descriptor announces, read back from its import path;
    None when the import path is not under this host name.
   */
  function AnnouncedPackage(d: PkgDescriptor): (pkg: Option<string>)
    ensures pkg.Some? ==> d.package == HOSTNAME + "/" + pkg.value
  {
    if HOSTNAME + "/" <= d.package then Some(d.package[|HOSTNAME| + 1..]) else None
  }

  // ---------------------------------------------------------- the responses

  /** requireHTTPS: 301 to the request URL with its scheme upgraded. */
  function MovedPermanently(u: Url): Response {
    Response(STATUS_MOVED_PERMANENTLY, Some(ToUrl(SecureUrl(u))), None, [])
  }

  /** requireGET: 405 whose body is the status text. */
  const METHOD_NOT_ALLOWED := Response(STATUS_METHOD_NOT_ALLOWED, None, None, [Text(METHOD_NOT_ALLOWED_TEXT)])

  /** redirectBrowserToGodoc: 307 to the godoc target. */
  function BrowserRedirect(host: string, path: string): Response {
    Response(STATUS_TEMPORARY_REDIRECT, Some(ToAddress(GodocTarget(host, path))), None, [])
  }

  /**
    redirectToGithub: the page rendered for the path's descriptor, with the
    caching hint, or 500 with the error text when rendering fails.
   */
  function Metadata(path: string, renderFault: Option<string>): Response {
    match renderFault
    case Some(err) => Response(STATUS_INTERNAL_SERVER_ERROR, None, None, [Text(err)])
    case None => Response(STATUS_OK, None, Some(CACHE_CONTROL), [Page(DescriptorFor(path))])
  }

  /**
    Redirect: the first guard that handles the request produces the response.
    `renderFault` is what template execution does with the descriptor: None
    when it succeeds, Some(error text) when it fails.
   */
  function Handle(req: Request, renderFault: Option<string>): (resp: Response)
    ensures resp.status == STATUS_MOVED_PERMANENTLY <==> Insecure(req)
    ensures Insecure(req) ==> resp.location == Some(ToUrl(req.url.(scheme := "https")))
    ensures resp.status == STATUS_METHOD_NOT_ALLOWED <==> !Insecure(req) && req.verb != METHOD_GET
    ensures resp.status == STATUS_METHOD_NOT_ALLOWED ==> resp.body == [Text(METHOD_NOT_ALLOWED_TEXT)]
    ensures resp.status == STATUS_TEMPORARY_REDIRECT <==>
              !Insecure(req) && req.verb == METHOD_GET && !ToolRequest(req)
    ensures resp.status == STATUS_TEMPORARY_REDIRECT ==>
              resp.location == Some(ToAddress(GodocTarget(req.host, req.url.path)))
    ensures resp.status == STATUS_OK <==> MetadataRequested(req) && renderFault.None?
    ensures resp.status == STATUS_OK ==> resp.body == [Page(DescriptorFor(req.url.path))]
    ensures resp.status == STATUS_INTERNAL_SERVER_ERROR <==> MetadataRequested(req) && renderFault.Some?
    ensures resp.status == STATUS_INTERNAL_SERVER_ERROR ==> resp.body == [Text(renderFault.value)]
    ensures resp.cacheControl.Some? <==> resp.status == STATUS_OK
    ensures resp.cacheControl.Some? ==> resp.cacheControl.value == CACHE_CONTROL
    ensures resp.location.Some? <==> resp.status in {STATUS_MOVED_PERMANENTLY, STATUS_TEMPORARY_REDIRECT}
  {
    if Insecure(req) then MovedPermanently(req.url)
    else if req.verb != METHOD_GET then METHOD_NOT_ALLOWED
    else if !ToolRequest(req) then BrowserRedirect(req.host, req.url.path)
    else Metadata(req.url.path, renderFault)
  }

  // ----------------------------------------------------------------- lemmas

  /**
    The scheme upgrade does not loop: the URL a 301 points to is already
    secure, so the same request sent there is never moved again.
   */
  lemma FollowingMoveDoesNotLoop(req: Request, renderFault: Option<string>)
    requires Insecure(req)
    ensures Handle(req, renderFault).location == Some(ToUrl(SecureUrl(req.url)))
    ensures Handle(req.(url := SecureUrl(req.url)), renderFault).status != STATUS_MOVED_PERMANENTLY
    ensures SecureUrl(SecureUrl(req.url)) == SecureUrl(req.url)
  {
  }

  /** The scheme guard runs first: a POST over http is moved, not refused. */
  lemma SchemeCheckedBeforeMethod(req: Request, renderFault: Option<string>)
    requires Insecure(req) && req.verb != METHOD_GET
    ensures Handle(req, renderFault).status == STATUS_MOVED_PERMANENTLY
  {
  }

  /**
    The method gate looks at nothing but the scheme and the method: two
    non-GET requests that are not over http get the same response whatever
    their paths, hosts, queries or go-get values.
   */
  lemma MethodGateIgnoresRest(r1: Request, r2: Request, f1: Option<string>, f2: Option<string>)
    requires !Insecure(r1) && !Insecure(r2)
    requires r1.verb != METHOD_GET && r2.verb != METHOD_GET
    ensures Handle(r1, f1) == Handle(r2, f2) == METHOD_NOT_ALLOWED
  {
  }

  /**
    Only the exact value "1" reaches the metadata branch: any other go-get
    value, or none, sends a secure GET to godoc.
   */
  lemma ToolFlagIsExact(req: Request, renderFault: Option<string>)
    requires !Insecure(req) && req.verb == METHOD_GET
    ensures Handle(req, renderFault).status in {STATUS_OK, STATUS_INTERNAL_SERVER_ERROR} <==> req.goGet == Some("1")
    ensures req.goGet in {None, Some(""), Some("0"), Some("true"), Some("01")} ==>
              Handle(req, renderFault).status == STATUS_TEMPORARY_REDIRECT
  {
  }

  /**
    The two slash-stripping steps differ: for the path "//" a browser is sent
    to godoc's page for host + "//", not to the search page, while the go tool
    is served the empty package name.
   */
  lemma DoubleSlashPath(host: string)
    ensures GodocTarget(host, "//") == GODOC_BASE + host + "//"
    ensures PackageName("//") == ""
  {
    PackageNameEmptyIff("//");
  }

  /**
    Any sub-path names its first segment, however many slashes lead it or
    follow it: lead + seg + rest names seg when rest is empty or starts with a
    slash (go.kendal.io/foo/cmd/bar names foo).
   */
  lemma PackageNameOfSubPath(lead: string, seg: string, rest: string)
    requires AllIn(lead, "/") && seg != [] && '/' !in seg
    requires rest == [] || rest[0] == '/'
    ensures PackageName(lead + seg + rest) == seg
  {
    var tail := TrimRight(rest, "/");
    var trail := rest[|tail|..];
    assert rest == tail + trail;
    assert lead + seg + rest == lead + (seg + tail) + trail;
    TrimAround(lead, seg + tail, trail, "/");
    assert tail != [] ==> tail[0] == rest[0];
    FirstPiece(seg + tail, '/', seg);
  }

  /** A path names the empty package exactly when it holds nothing but slashes. */
  lemma PackageNameEmptyIff(path: string)
    ensures PackageName(path) == "" <==> AllIn(path, "/")
  {
    var t := Trim(path, "/");
    TrimEmptyIff(path, "/");
    if t == [] {
      FirstPiece(t, '/', []);
    } else {
      var i, j :| Trimmed(path, "/", i, j) && t == path[i..j];
      assert t[0] == path[i];
    }
  }

  /** A package name names itself: deriving it again changes nothing. */
  lemma PackageNameIdempotent(path: string)
    ensures PackageName(PackageName(path)) == PackageName(path)
  {
    var pkg := PackageName(path);
    if pkg == [] {
      PackageNameEmptyIff(pkg);
    } else {
      assert [] + pkg + [] == pkg;
      PackageNameOfSubPath([], pkg, []);
    }
  }

  /** /foo names foo. */
  lemma ExampleFoo()
    ensures PackageName("/foo") == "foo"
  {
    var p := "/foo";
    assert p == p[..1] + p[1..] + [] && p[1..] == "foo";
    PackageNameOfSubPath(p[..1], p[1..], []);
  }

  /** /foo/ names foo: trailing slashes are trimmed. */
  lemma ExampleFooSlash()
    ensures PackageName("/foo/") == "foo"
  {
    var p := "/foo/";
    assert p == p[..1] + p[1..4] + p[4..] && p[1..4] == "foo";
    PackageNameOfSubPath(p[..1], p[1..4], p[4..]);
  }

  /** /foo/cmd/bar names foo: a command under a package maps to the package. */
  lemma ExampleFooCmdBar()
    ensures PackageName("/foo/cmd/bar") == "foo"
  {
    var p := "/foo/cmd/bar";
    assert p == p[..1] + p[1..4] + p[4..] && p[1..4] == "foo";
    PackageNameOfSubPath(p[..1], p[1..4], p[4..]);
  }

  /** "" and "/" name the empty package. */
  lemma ExampleEmptyPaths()
    ensures PackageName("") == "" && PackageName("/") == ""
  {
    PackageNameEmptyIff("");
    PackageNameEmptyIff("/");
  }

  /**
    The import path and the remote both end with the package name, and the
    package name can be read back from the descriptor.
   */
  lemma DescriptorRoundTrip(pkg: string)
    ensures HasSuffix(Describe(pkg).package, pkg) && HasSuffix(Describe(pkg).remote, pkg)
    ensures AnnouncedPackage(Describe(pkg)) == Some(pkg)
  {
  }

  /** Two paths get the same descriptor exactly when they name the same package. */
  lemma SameDescriptorIff(p1: string, p2: string)
    ensures DescriptorFor(p1) == DescriptorFor(p2) <==> PackageName(p1) == PackageName(p2)
  {
    DescriptorRoundTrip(PackageName(p1));
    DescriptorRoundTrip(PackageName(p2));
  }

  /** A path of slashes only (or none) still yields a descriptor: the import path is HOSTNAME + "/". */
  lemma EmptyPackageDescriptor(path: string)
    requires AllIn(path, "/")
    ensures DescriptorFor(path) == PkgDescriptor(HOSTNAME + "/", GITHUB_BASE)
  {
    PackageNameEmptyIff(path);
  }

  /** widget's descriptor announces go.kendal.io/widget, hosted at github.com/kharland/widget. */
  lemma ExampleWidgetDescriptor()
    ensures Describe("widget") == PkgDescriptor("go.kendal.io/widget", "https://github.com/kharland/widget")
  {
  }

  /** /widget names widget. */
  lemma ExampleWidget()
    ensures PackageName("/widget") == "widget"
  {
    var p := "/widget";
    assert p == p[..1] + p[1..] + [] && p[1..] == "widget";
    PackageNameOfSubPath(p[..1], p[1..], []);
  }

  /** GET https://go.kendal.io/widget?go-get=1 is served the go-import page for widget. */
  lemma ExampleMetadata()
    ensures var u := Url("https", HOSTNAME, "/widget", "go-get=1");
            Handle(Request("GET", u, HOSTNAME, Some("1")), None) ==
              Response(STATUS_OK, None, Some(CACHE_CONTROL),
                       [Page(PkgDescriptor("go.kendal.io/widget", "https://github.com/kharland/widget"))])
  {
    ExampleWidget();
    ExampleWidgetDescriptor();
  }

  /** GET http://go.kendal.io/widget is moved to the same URL over https. */
  lemma ExampleInsecure()
    ensures var u := Url("http", HOSTNAME, "/widget", "");
            Handle(Request("GET", u, HOSTNAME, None), None) ==
              Response(STATUS_MOVED_PERMANENTLY, Some(ToUrl(Url("https", HOSTNAME, "/widget", ""))), None, [])
  {
  }

  /** GET https://go.kendal.io/widget without go-get goes to godoc's page for go.kendal.io/widget. */
  lemma ExampleBrowser()
    ensures var u := Url("https", HOSTNAME, "/widget", "");
            Handle(Request("GET", u, HOSTNAME, None), None) ==
              Response(STATUS_TEMPORARY_REDIRECT, Some(ToAddress("https://godoc.org/go.kendal.io/widget")), None, [])
  {
    assert TrimPrefix("/widget", "/") == "widget";
    assert GODOC_BASE + HOSTNAME + "/widget" == "https://godoc.org/go.kendal.io/widget";
  }

  /** POST https://go.kendal.io/widget?go-get=1 is refused with 405. */
  lemma ExamplePost()
    ensures var u := Url("https", HOSTNAME, "/widget", "go-get=1");
            Handle(Request("POST", u, HOSTNAME, Some("1")), None).status == STATUS_METHOD_NOT_ALLOWED
  {
  }
}
