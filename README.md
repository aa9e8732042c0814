# go.kendal.io vanity-import redirector, modelled in Dafny

The repository is a single HTTP handler, `Redirect` (redirect.go), that serves
vanity import paths under `go.kendal.io`. Every request passes an ordered,
short-circuiting chain of four guards, and the first guard that handles it
writes the response:

1. `requireHTTPS`: a URL whose scheme is exactly `http` has its scheme rewritten
   to `https` in place and is answered 301 to the rewritten URL;
2. `requireGET`: any method but `GET` is answered 405, body "Method Not Allowed";
3. `redirectBrowserToGodoc`: unless the `go-get` query value is exactly `"1"`,
   the browser is sent (307) to godoc: the search page for `go.kendal.io` when
   the path minus one leading `/` is empty, else `https://godoc.org/` + host + path;
4. `redirectToGithub`: the package name (path trimmed of all leading and trailing
   `/`, first `/`-segment) gives a `PkgDescriptor`
   (`go.kendal.io/<pkg>`, `https://github.com/kharland/<pkg>`), rendered into the
   go-import page and served with `Cache-Control: public, max-age=600`; a
   rendering failure is answered 500 with the error text.

The project has four modules:

- `Wrappers` (wrappers.dfy): `Option`.
- `GoStrings` (go_strings.dfy): the `strings` functions the handler calls,
  written out on `seq<char>`: `TrimPrefix`, `Trim` with a cutset (`TrimLeft`
  and `TrimRight`; the order does not matter, as `TrimUnique` and
  `TrimRightThenLeft` show), and `Split` on a one-character
  separator with `Join` as its inverse. `Trim` is proved equal to an independent
  characterisation (`Trimmed`: everything cut is in the cutset, what is kept
  starts and ends outside it) and idempotent; `Split` and `Join` are proved
  inverse in both directions, and the first piece of a split is proved to be
  the longest separator-free prefix.
- `Vanity` (vanity.dfy): the decision logic as pure functions: the request and
  response records, the godoc target, the package name, the descriptor, and
  `Handle`, the whole guard chain as a function from a request to a response,
  whose contract is the routing table. Lemmas state the ordering, the
  exactness of `go-get`, the scheme upgrade not looping, the sub-path to
  package mapping, and the descriptor round trip.
- `Handler` (handler.dfy): the handler as the source runs it. `HttpRequest` is a
  class whose `url` field `requireHTTPS` rewrites in place; `ResponseWriter` is a
  class that records the status, the two headers and the body chunks (the first
  status written wins, headers changed after it are not sent, `Write` implies
  200). Each guard is a method with the source's name, returning the
  "handled" flag, and `Redirect` chains them; each is proved to leave in the
  writer exactly the response `Vanity` gives, so `Redirect`'s contract is
  `w.Sent() == Handle(old(r.Value()), renderFault)`.

Inputs that come from outside the handler are parameters: the `go-get` value
is an `Option<string>` (None when absent; `FormValue` turns that into `""`), and
template execution is the parameter `renderFault`: None when `tmpl.Execute`
succeeds, `Some(text)` when it fails with that error text.

Edge cases of the code worth knowing:

- A `go-get=1` GET whose path is empty or all slashes is served the
  descriptor (`go.kendal.io/`, `https://github.com/kharland/`)
  (`EmptyPackageDescriptor`).
- Only the exact scheme `http` is upgraded. Any other scheme, the empty one
  included, passes through.
- The browser check strips ONE leading slash while the package derivation
  strips all of them, so the path `//` sends a browser to godoc's page for
  host + `//`, not to the search page, while the go tool gets the empty
  package name (`DoubleSlashPath`).

## Model

| member | source | states |
|---|---|---|
| GoStrings.TrimPrefix | redirect.go:62 | the result is `s` minus one leading `prefix` when `s` starts with it, else `s` itself |
| GoStrings.TrimPrefixEmptyIff | redirect.go:62 | trimming one leading `/` leaves nothing exactly for `""` and `"/"` |
| GoStrings.TrimPrefixRemovesOne | redirect.go:62 | `TrimPrefix("//", "/")` is `"/"` while `Trim("//", "/")` is `""`: one slash versus all of them |
| GoStrings.TrimLeft | redirect.go:72 | the result is a suffix of `s`, everything dropped is in the cutset, and it is empty or starts outside the cutset |
| GoStrings.TrimRight | redirect.go:72 | the result is a prefix of `s`, everything dropped is in the cutset, and it is empty or ends outside the cutset |
| GoStrings.Trim | redirect.go:72 | the result is some `s[i..j]` satisfying `Trimmed`: all cut characters in the cutset, a non-empty remainder starting and ending outside it |
| GoStrings.TrimLeftThenRight | redirect.go:72 | TrimLeft followed by TrimRight keeps a stretch of `s` that `Trimmed` describes |
| GoStrings.TrimmedBetween | redirect.go:72 | a suffix cut after cutset characters, then a prefix of it cut before cutset characters, form a `Trimmed` stretch of `s` |
| GoStrings.TrimLeftAt | redirect.go:72 | TrimLeft stops exactly at the first character outside the cutset |
| GoStrings.TrimRightAt | redirect.go:72 | TrimRight stops exactly after the last character outside the cutset |
| GoStrings.TrimUnique | redirect.go:72 | any `i, j` that `Trimmed` allows give exactly `Trim`'s result: the characterisation is unique |
| GoStrings.TrimAround | redirect.go:72 | cutset characters around a core that starts and ends outside the cutset are all removed, leaving the core |
| GoStrings.TrimRightThenLeft | redirect.go:72 | stripping the right end first and the left end second gives the same result as `Trim` |
| GoStrings.TrimRightThenLeftAt | redirect.go:72 | right-then-left stripping keeps exactly the stretch any `Trimmed` pair `i, j` describes |
| GoStrings.TrimIdempotent | redirect.go:72 | trimming a trimmed string changes nothing |
| GoStrings.TrimEmptyIff | redirect.go:72 | Trim leaves nothing exactly when every character is in the cutset |
| GoStrings.Split | redirect.go:75 | at least one piece, no piece contains the separator, and joining the pieces with it gives back `s` |
| GoStrings.FirstPiece | redirect.go:75-78 | the first piece is the unique separator-free prefix that ends at a separator or at the end |
| GoStrings.SplitCons | redirect.go:75 | splitting piece + separator + tail gives the piece followed by the tail's pieces |
| GoStrings.SplitJoin | redirect.go:75 | Split undoes Join on separator-free pieces (with Split's contract: the two are inverses) |
| Vanity.HOSTNAME | redirect.go:11 | the constant `hostname`, "go.kendal.io", used in the search target and the import path |
| Vanity.METHOD_NOT_ALLOWED | redirect.go:52-53 | the 405 whose body is the status text; a constant with no contract of its own, pinned through `Handle`'s contract (405 iff not `http` and not GET, body the status text) |
| Vanity.Insecure | redirect.go:42 | predicate: the URL's scheme is exactly `http` (no contract of its own; used by `Handle`'s contract) |
| Vanity.ToolRequest | redirect.go:60 | predicate: the `go-get` value is present and exactly `"1"` (no contract of its own; used by `Handle`'s contract) |
| Vanity.SecureUrl | redirect.go:41-47 | an `http` URL gets scheme `https`; host, path and query never change; any other scheme passes through unchanged |
| Vanity.GodocTarget | redirect.go:61-64 | for path `""` or `"/"` the godoc search URL for go.kendal.io; otherwise a URL that starts with the godoc base + host and ends with the path, with no other characters |
| Vanity.PackageName | redirect.go:72-78 | the name holds no `/`, is a prefix of the slash-trimmed path, and is its first `/`-piece whichever branch of the `len(parts) > 1` test is taken |
| Vanity.Describe | redirect.go:79-82 | the import path is go.kendal.io/ followed by the name; the remote is github.com/kharland/ followed by the name |
| Vanity.DescriptorFor | redirect.go:72-82 | the descriptor of the path's package name; no contract of its own, pinned through `Describe`, `PackageName` and `SameDescriptorIff` |
| Vanity.AnnouncedPackage | redirect.go:79-80 | a recovered name is exactly what follows go.kendal.io/ in the import path |
| Vanity.MovedPermanently | redirect.go:44 | the 301 to the scheme-upgraded URL; no contract of its own, pinned through `Handle`'s contract (301 iff `http`, Location the https URL) |
| Vanity.BrowserRedirect | redirect.go:65 | the 307 to `GodocTarget`; no contract of its own, pinned through `Handle`'s contract (307 iff secure GET without go-get "1", Location the godoc target) |
| Vanity.Metadata | redirect.go:84-92 | the 200 page with the caching hint or the 500 with the render error; no contract of its own, pinned through `Handle`'s contract (200/500 by render outcome, Cache-Control exactly on 200) |
| Vanity.Handle | redirect.go:34-39 | the routing table: 301 iff scheme is `http` (to the https URL); 405 iff not `http` and not GET (status text body); 307 iff not `http`, GET and go-get not exactly "1" (to the godoc target); 200 or 500 iff the metadata branch runs, by render outcome; Cache-Control exactly on the 200; Location exactly on 301 and 307 |
| Vanity.FollowingMoveDoesNotLoop | redirect.go:41-46 | the 301 points at the secure URL, the same request there is never moved again, and the upgrade is idempotent |
| Vanity.SchemeCheckedBeforeMethod | redirect.go:35-36 | a non-GET request over http is answered 301, not 405 |
| Vanity.MethodGateIgnoresRest | redirect.go:50-56 | any two non-GET requests not over http get the same 405 response whatever their path, host, query or go-get value |
| Vanity.ToolFlagIsExact | redirect.go:59-60 | a secure GET reaches the metadata branch iff go-get is exactly "1"; absent, "", "0", "true" and "01" get 307 |
| Vanity.DoubleSlashPath | redirect.go:62 | path `//` sends a browser to godoc base + host + `//`, while it names the empty package |
| Vanity.PackageNameOfSubPath | redirect.go:72-78 | slashes + segment + (nothing or a `/`-led rest) names that segment, whatever follows |
| Vanity.PackageNameEmptyIff | redirect.go:72-78 | a path names the empty package exactly when it holds only slashes |
| Vanity.PackageNameIdempotent | redirect.go:72-78 | deriving the name of a package name gives it back |
| Vanity.ExampleFoo | redirect.go:72-78 | `/foo` names `foo` |
| Vanity.ExampleFooSlash | redirect.go:72-78 | `/foo/` names `foo` |
| Vanity.ExampleFooCmdBar | redirect.go:74-78 | `/foo/cmd/bar` names `foo` |
| Vanity.ExampleEmptyPaths | redirect.go:72-78 | `""` and `"/"` name the empty package |
| Vanity.DescriptorRoundTrip | redirect.go:79-82 | import path and remote both end with the name, and the name is recovered from the descriptor |
| Vanity.SameDescriptorIff | redirect.go:74-82 | two paths get the same descriptor iff they name the same package |
| Vanity.EmptyPackageDescriptor | redirect.go:72-82 | an all-slash path yields the descriptor (`go.kendal.io/`, `https://github.com/kharland/`) |
| Vanity.ExampleWidget | redirect.go:72-78 | `/widget` names `widget` |
| Vanity.ExampleWidgetDescriptor | redirect.go:79-82 | `widget`'s descriptor is (`go.kendal.io/widget`, `https://github.com/kharland/widget`) |
| Vanity.ExampleMetadata | redirect.go:71-93 | GET https://go.kendal.io/widget?go-get=1 is answered 200 with the caching hint and the widget page |
| Vanity.ExampleInsecure | redirect.go:41-46 | GET http://go.kendal.io/widget is answered 301 to the same URL over https |
| Vanity.ExampleBrowser | redirect.go:59-66 | GET https://go.kendal.io/widget without go-get is answered 307 to https://godoc.org/go.kendal.io/widget |
| Vanity.ExamplePost | redirect.go:50-55 | POST https://go.kendal.io/widget?go-get=1 is answered 405 |
| Handler.HttpRequest.FormValue | redirect.go:60 | the go-get value read as a string is "1" exactly when the parameter is present with value "1" |
| Handler.ResponseWriter.SetLocation | redirect.go:44 | the Location header is set unless the status is already written; nothing else changes |
| Handler.ResponseWriter.WriteHeader | redirect.go:44 | the first status written is the one sent, later ones are ignored; nothing else changes |
| Handler.ResponseWriter.SetCacheControl | redirect.go:90 | the header is set unless the status is already written; nothing else changes |
| Handler.ResponseWriter.Write | redirect.go:91 | appends the chunk to the body, writing status 200 first when none was written |
| Handler.HttpRedirect | redirect.go:44 | sets Location and writes the status unless a status was already written; the body is untouched |
| Handler.HttpError | redirect.go:53 | writes the status unless one was written, and appends the text to the body |
| Handler.RequireHTTPS | redirect.go:41-48 | handled iff the scheme is `http`; the request's URL becomes the upgraded URL; the writer then holds the 301, else stays blank |
| Handler.RequireGET | redirect.go:50-57 | handled iff the method is not GET; the writer then holds the 405 with the status text, else stays blank |
| Handler.RedirectBrowserToGodoc | redirect.go:59-69 | handled iff go-get is not exactly "1"; the writer then holds the 307 to the godoc target, else stays blank |
| Handler.RedirectToGithub | redirect.go:71-93 | always handled; the writer holds the 200 page with the caching hint, or the 500 with the render error |
| Handler.Redirect | redirect.go:34-39 | the writer ends holding `Handle` of the request as it arrived, and the request's URL is the scheme-upgraded one |

## Left out

- `html/template` parsing and execution (redirect.go:15-22, 84-88): the page is the
  chunk `Page(descriptor)`, not its HTML-escaped bytes, and whether `Execute`
  fails is the input `renderFault`.
- `r.URL.String()`: the 301 Location is the rewritten URL record, not its text.
- `http.Redirect`'s short HTML note in the body and its Content-Type header;
  `http.Error`'s Content-Type and X-Content-Type-Options headers and the
  newline it appends to the text. Only status, Location, Cache-Control and the
  body chunks are modelled.
- `http.Redirect` writes the Location as `hexEscapeNonASCII(url)`: the modelled
  307 Location `ToAddress(GodocTarget(…))` is the unescaped string, and differs
  from the header sent when the host or path holds non-ASCII characters.
- `FormValue`'s parsing of the query string and form body, and its choice of the
  first of several values: the `go-get` value is an input.
- GoStrings.Split: models Go's `strings.Split` only for a one-character
  separator, the only kind the handler uses.
- GoStrings.Trim: characters are Dafny `char`s, not runes decoded from UTF-8
  bytes; for the ASCII cutset `/` the two agree.
- Server start-up, TLS and concurrency: the handler keeps no state between
  requests.
