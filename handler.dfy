/**
  The handler as it runs: the request's URL is rewritten in place, each guard
  writes its status, headers and body into the response writer, and Redirect
  chains the guards so that the first one that handles the request ends it.
  Each step is proved to leave the writer holding the response that the pure
  model in module Vanity gives for it.
 */
module Handler {
  import opened Wrappers
  import opened GoStrings
  import opened Vanity

  /** The *http.Request the handler receives; requireHTTPS rewrites its URL in place. */
  class HttpRequest {
    const verb: string
    /** r.Host, the Host the client asked for. */
    const host: string
    /** The `go-get` query parameter, None when absent. */
    const goGet: Option<string>
    var url: Url

    constructor (verb: string, url: Url, host: string, goGet: Option<string>)
      ensures Value() == Request(verb, url, host, goGet)
    {
      this.verb := verb;
      this.url := url;
      this.host := host;
      this.goGet := goGet;
    }

    /** The request as the pure model sees it. */
    function Value(): Request
      reads this
    {
      Request(verb, url, host, goGet)
    }

    /** r.FormValue("go-get"): the parameter's value, "" when it is absent. */
    function FormValue(): (v: string)
      reads this
      ensures v == "1" <==> goGet == Some("1")
    {
      if goGet.Some? then goGet.value else ""
    }
  }

  /**
    The http.ResponseWriter, as far as the client sees it: the status once it
    is written, the Location and Cache-Control headers sent with it, and the
    body chunks written so far.
   */
  class ResponseWriter {
    var status: Option<int>
    var location: Option<Location>
    var cacheControl: Option<string>
    var body: seq<Chunk>

    constructor ()
      ensures Blank()
    {
      status, location, cacheControl, body := None, None, None, [];
    }

    /** Nothing has been written yet. */
    predicate Blank()
      reads this
    {
      status == None && location == None && cacheControl == None && body == []
    }

    /** The response the client receives; a status never written is an implicit 200. */
    function Sent(): Response
      reads this
    {
      Response(if status.Some? then status.value else STATUS_OK, location, cacheControl, body)
    }

    /** w.Header().Set("Location", …): headers changed after the status is written are not sent. */
    method SetLocation(loc: Location)
      modifies this
      ensures location == (if old(status).None? then Some(loc) else old(location))
      ensures status == old(status) && cacheControl == old(cacheControl) && body == old(body)
    {
      if status.None? {
        location := Some(loc);
      }
    }

    /** w.Header().Set("Cache-Control", …). */
    method SetCacheControl(value: string)
      modifies this
      ensures cacheControl == (if old(status).None? then Some(value) else old(cacheControl))
      ensures status == old(status) && location == old(location) && body == old(body)
    {
      if status.None? {
        cacheControl := Some(value);
      }
    }

    /** w.WriteHeader: the first status written is the one sent; later ones are ignored. */
    method WriteHeader(code: int)
      modifies this
      ensures status == (if old(status).None? then Some(code) else old(status))
      ensures location == old(location) && cacheControl == old(cacheControl) && body == old(body)
    {
      if status.None? {
        status := Some(code);
      }
    }

    /** w.Write: appends to the body, writing the status 200 first when none is written yet. */
    method Write(chunk: Chunk)
      modifies this
      ensures status == (if old(status).None? then Some(STATUS_OK) else old(status))
      ensures location == old(location) && cacheControl == old(cacheControl)
      ensures body == old(body) + [chunk]
    {
      WriteHeader(STATUS_OK);
      body := body + [chunk];
    }
  }

  /** http.Redirect: sets Location and writes the status. */
  method HttpRedirect(w: ResponseWriter, loc: Location, code: int)
    modifies w
    ensures w.location == (if old(w.status).None? then Some(loc) else old(w.location))
    ensures w.status == (if old(w.status).None? then Some(code) else old(w.status))
    ensures w.cacheControl == old(w.cacheControl) && w.body == old(w.body)
  {
    w.SetLocation(loc);
    w.WriteHeader(code);
  }

  /** http.Error: writes the status, then the error text as the body. */
  method HttpError(w: ResponseWriter, text: string, code: int)
    modifies w
    ensures w.status == (if old(w.status).None? then Some(code) else old(w.status))
    ensures w.location == old(w.location) && w.cacheControl == old(w.cacheControl)
    ensures w.body == old(w.body) + [Text(text)]
  {
    w.WriteHeader(code);
    w.Write(Text(text));
  }

  /** requireHTTPS: over http, upgrades the URL's scheme in place and answers 301 to it. */
  method RequireHTTPS(w: ResponseWriter, r: HttpRequest) returns (handled: bool)
    requires w.Blank()
    modifies w, r
    ensures handled <==> Insecure(old(r.Value()))
    ensures r.Value() == old(r.Value()).(url := SecureUrl(old(r.url)))
    ensures handled ==> w.Sent() == MovedPermanently(old(r.url))
    ensures !handled ==> w.Blank()
  {
    if r.url.scheme == "http" {
      r.url := r.url.(scheme := "https");
      HttpRedirect(w, ToUrl(r.url), STATUS_MOVED_PERMANENTLY);
      return true;
    }
    return false;
  }

  /** requireGET: any method but GET is answered 405 with the status text. */
  method RequireGET(w: ResponseWriter, r: HttpRequest) returns (handled: bool)
    requires w.Blank()
    modifies w
    ensures handled <==> r.verb != METHOD_GET
    ensures handled ==> w.Sent() == METHOD_NOT_ALLOWED
    ensures !handled ==> w.Blank()
  {
    if r.verb != METHOD_GET {
      var status := STATUS_METHOD_NOT_ALLOWED;
      HttpError(w, METHOD_NOT_ALLOWED_TEXT, status);
      return true;
    }
    return false;
  }

  /** redirectBrowserToGodoc: unless go-get is "1", answers 307 to godoc. */
  method RedirectBrowserToGodoc(w: ResponseWriter, r: HttpRequest) returns (handled: bool)
    requires w.Blank()
    modifies w
    ensures handled <==> !ToolRequest(r.Value())
    ensures handled ==> w.Sent() == BrowserRedirect(r.host, r.url.path)
    ensures !handled ==> w.Blank()
  {
    if r.FormValue() != "1" {
      var newUrl := GODOC_BASE + r.host + r.url.path;
      if TrimPrefix(r.url.path, "/") == "" {
        newUrl := GODOC_SEARCH + HOSTNAME;
      }
      HttpRedirect(w, ToAddress(newUrl), STATUS_TEMPORARY_REDIRECT);
      return true;
    }
    return false;
  }

  /**
    redirectToGithub: renders the descriptor of the path's package and serves
    it with the caching hint, or answers 500 with the error text when
    rendering fails (`renderFault`). It handles every request it sees.
   */
  method RedirectToGithub(w: ResponseWriter, r: HttpRequest, renderFault: Option<string>) returns (handled: bool)
    requires w.Blank()
    modifies w
    ensures handled
    ensures w.Sent() == Metadata(r.url.path, renderFault)
  {
    var descriptor := DescriptorFor(r.url.path);
    if renderFault.Some? {
      HttpError(w, renderFault.value, STATUS_INTERNAL_SERVER_ERROR);
      return true;
    }
    w.SetCacheControl(CACHE_CONTROL);
    w.Write(Page(descriptor));
    return true;
  }

  /**
    Redirect: requireHTTPS, requireGET, redirectBrowserToGodoc and
    redirectToGithub in turn, stopping at the first that handles the request.
   */
  method Redirect(w: ResponseWriter, r: HttpRequest, renderFault: Option<string>)
    requires w.Blank()
    modifies w, r
    ensures w.Sent() == Handle(old(r.Value()), renderFault)
    ensures r.Value() == old(r.Value()).(url := SecureUrl(old(r.url)))
  {
    var handled := RequireHTTPS(w, r);
    if !handled {
      handled := RequireGET(w, r);
    }
    if !handled {
      handled := RedirectBrowserToGodoc(w, r);
    }
    if !handled {
      handled := RedirectToGithub(w, r, renderFault);
    }
  }
}
