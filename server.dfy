/**
 * The request handler `FsService`: GET only, a synthesized index for `/` and
 * `/index.html`, and every other path read from under the documentation root.
 */
module Server {

  import opened Http
  import opened Paths
  import opened DocTargets

  /** `ServerConfig`: the documentation root and the targets the index lists. */
  datatype ServerConfig = ServerConfig(docDir: Path, targets: seq<Target>)

  /** A request, as far as the handler looks at it: its method (`verb`) and its URI path (not percent-decoded). */
  datatype Request = Request(verb: Method, path: string)

  /**
   * What the handler consults and cannot see: `Path::is_dir`, opening and reading
   * a file to the end, `mime_guess::guess_mime_type`, and the compiled askama
   * template `index.html`.
   */
  datatype Host = Host(
    isDir: Path -> bool,
    read: Path -> ReadResult,
    guessMime: Path -> string,
    template: seq<Target> -> string)

  const NotGetText: string := "The request method is not GET"
  const DefaultFile: Path := "index.html"

  /** The two paths that are answered with the index instead of a file. */
  predicate IsIndexPath(path: string)
  {
    path == "/" || path == "/index.html"
  }

  /**
   * `error_response`: the given status, `cache-control: no-cache` and
   * `connection: close`, and the error's display text as the body.
   */
  function ErrorResponse(status: int, text: string): (r: Response)
    ensures r.status == status
    ensures r.headers == [Header("cache-control", "no-cache"), Header("connection", "close")]
    ensures r.body == Text(text)
  {
    Response(status, [Header("cache-control", "no-cache"), Header("connection", "close")], Text(text))
  }

  /** `render_index`: status 200, no headers at all, the template rendered over the targets. */
  function RenderIndex(config: ServerConfig, host: Host): (r: Response)
  {
    Response(OK, [], Text(host.template(config.targets)))
  }

  /**
   * `resolve_path`: every leading `/` stripped, the rest joined onto the
   * documentation root, and `index.html` appended exactly when that joined path is
   * a directory. The result always starts with the root as text, but `..`
   * components are kept, so it need not lie inside the root.
   */
  function ResolvePath(config: ServerConfig, path: string, host: Host): (r: Path)
    ensures IsPrefix(config.docDir, r)
    ensures var joined := Join(config.docDir, TrimLeftSlashes(path));
      (r == joined || r == Join(joined, DefaultFile)) && (host.isDir(joined) <==> r != joined)
  {
    var trimmed := TrimLeftSlashes(path);
    assert !IsAbsolute(trimmed);
    var joined := Join(config.docDir, trimmed);
    if host.isDir(joined) then
      var r := Join(joined, DefaultFile);
      assert |r| > |joined|;
      PrefixTransitive(config.docDir, joined, r);
      r
    else
      joined
  }

  /** The status a failed read maps to. */
  function ErrorStatus(kind: ErrorKind): (s: int)
    ensures s == NOT_FOUND <==> kind == NotFound
    ensures s == FORBIDDEN <==> kind == PermissionDenied
    ensures s == INTERNAL_SERVER_ERROR <==> kind.OtherKind?
  {
    match kind
    case NotFound => NOT_FOUND
    case PermissionDenied => FORBIDDEN
    case OtherKind(_) => INTERNAL_SERVER_ERROR
  }

  /** The continuation after the read: the whole content with the guessed type, or an error response. */
  function FileResponse(result: ReadResult, contentType: string): (r: Response)
    ensures result.Read? ==> r.status == OK && r.body == Bytes(result.content)
    ensures result.Read? ==> r.headers == [Header("content-type", contentType)]
    ensures result.Failed? ==> r == ErrorResponse(ErrorStatus(result.error.kind), result.error.display)
  {
    match result
    case Read(content) => Response(OK, [Header("content-type", contentType)], Bytes(content))
    case Failed(e) => ErrorResponse(ErrorStatus(e.kind), e.display)
  }

  /**
   * `FsService::call`. The method is checked first, then the index paths, and
   * only then is the filesystem consulted.
   */
  function Handle(req: Request, config: ServerConfig, host: Host): (r: Response)
    ensures r.status in {OK, FORBIDDEN, NOT_FOUND, METHOD_NOT_ALLOWED, INTERNAL_SERVER_ERROR}
    ensures r.status == METHOD_NOT_ALLOWED <==> req.verb != GET
  {
    if req.verb != GET then
      ErrorResponse(METHOD_NOT_ALLOWED, NotGetText)
    else if IsIndexPath(req.path) then
      RenderIndex(config, host)
    else
      var path := ResolvePath(config, req.path, host);
      FileResponse(host.read(path), host.guessMime(path))
  }

  // ---- Routing ----

  /** Lemma: every method other than GET, HEAD included, is refused, whatever the path. */
  lemma NonGetRefused(req: Request, config: ServerConfig, host: Host)
    requires req.verb != GET
    ensures Handle(req, config, host).status == METHOD_NOT_ALLOWED
    ensures Handle(req, config, host).body == Text("The request method is not GET")
    ensures HasHeader(Handle(req, config, host), "cache-control", "no-cache")
    ensures HasHeader(Handle(req, config, host), "connection", "close")
  {
  }

  /** Lemma: the method check comes before routing, so POST and HEAD of the index are refused. */
  lemma IndexNeedsGet(config: ServerConfig, host: Host)
    ensures Handle(Request(POST, "/index.html"), config, host).status == METHOD_NOT_ALLOWED
    ensures Handle(Request(HEAD, "/"), config, host).status == METHOD_NOT_ALLOWED
  {
  }

  /**
   * Lemma: GET of `/` or `/index.html` is answered with 200 and the rendered
   * target list, with no header at all (in particular no content-type).
   */
  lemma IndexServed(path: string, config: ServerConfig, host: Host)
    requires IsIndexPath(path)
    ensures Handle(Request(GET, path), config, host) == Response(OK, [], Text(host.template(config.targets)))
  {
  }

  /**
   * Lemma: the index depends only on the target list and the template: not on
   * the documentation root, and not on the filesystem, which is never consulted.
   */
  lemma IndexIgnoresFilesystem(path: string, c1: ServerConfig, c2: ServerConfig, h1: Host, h2: Host)
    requires IsIndexPath(path)
    requires c1.targets == c2.targets && h1.template == h2.template
    ensures Handle(Request(GET, path), c1, h1) == Handle(Request(GET, path), c2, h2)
  {
  }

  /**
   * Lemma: any other GET reads the resolved path and maps the outcome: the whole
   * content with the guessed type, 404 for a missing file, 403 for a refused one,
   * 500 for every other error, the error text as the body.
   */
  lemma StaticFileServed(path: string, config: ServerConfig, host: Host)
    requires !IsIndexPath(path)
    ensures var p := ResolvePath(config, path, host);
      var r := Handle(Request(GET, path), config, host);
      match host.read(p)
      case Read(content) =>
        r == Response(OK, [Header("content-type", host.guessMime(p))], Bytes(content))
      case Failed(e) =>
        && r.status == (if e.kind == NotFound then NOT_FOUND
                        else if e.kind == PermissionDenied then FORBIDDEN
                        else INTERNAL_SERVER_ERROR)
        && r == ErrorResponse(r.status, e.display)
  {
  }

  /**
   * Lemma: every response that is not a 200 is an error response: no-cache and
   * close, and a text body; a 200 carries at most a content-type header.
   */
  lemma ErrorsAreUncached(req: Request, config: ServerConfig, host: Host)
    ensures var r := Handle(req, config, host);
      (r.status != OK ==> r.headers == [Header("cache-control", "no-cache"), Header("connection", "close")] && r.body.Text?)
      && (r.status == OK ==> |r.headers| <= 1 && (|r.headers| == 1 ==> r.headers[0].name == "content-type"))
  {
    if req.verb == GET && !IsIndexPath(req.path) {
      var p := ResolvePath(config, req.path, host);
      var r := FileResponse(host.read(p), host.guessMime(p));
      assert Handle(req, config, host) == r;
      if host.read(p).Read? {
        assert r.headers == [Header("content-type", host.guessMime(p))];
      }
    }
  }

  // ---- Path resolution ----

  /** Lemma: `/a`, `//a` and `a` resolve alike: all leading separators are stripped, not only one. */
  lemma {:induction false} ResolveIgnoresLeadingSlashes(config: ServerConfig, n: nat, path: string, host: Host)
    ensures ResolvePath(config, Slashes(n) + path, host) == ResolvePath(config, path, host)
  {
    TrimIgnoresLeadingSlashes(n, path);
  }

  /**
   * Lemma: below the root the request path is used verbatim. `..` components
   * survive, so nothing keeps a resolved path inside the documentation root.
   */
  lemma RequestPathVerbatim(config: ServerConfig, rest: string, host: Host)
    requires !IsAbsolute(rest) && NeedsSeparator(config.docDir)
    requires !host.isDir(config.docDir + "/" + rest)
    ensures ResolvePath(config, "/" + rest, host) == config.docDir + "/" + rest
  {
    assert ("/" + rest)[1..] == rest;
    assert TrimLeftSlashes(rest) == rest;
  }

  /**
   * Lemma: a request that climbs out of the root with `/../` is not refused:
   * `<root>/../<rest>` is read and its outcome served like any other file.
   */
  lemma DotDotNotRefused(config: ServerConfig, rest: string, host: Host)
    requires !IsAbsolute(rest) && NeedsSeparator(config.docDir)
    requires !host.isDir(config.docDir + "/../" + rest)
    ensures var p := config.docDir + "/../" + rest;
      Handle(Request(GET, "/../" + rest), config, host) == FileResponse(host.read(p), host.guessMime(p))
  {
    var path := "/../" + rest;
    assert path[1] == '.';
    assert path == "/" + ("../" + rest);
    assert config.docDir + "/" + ("../" + rest) == config.docDir + "/../" + rest;
    RequestPathVerbatim(config, "../" + rest, host);
  }

  /** Lemma: a directory gets `index.html` appended; `<root>/` itself for a request of `//`. */
  lemma DirectoryGetsIndexFile(config: ServerConfig, host: Host)
    requires NeedsSeparator(config.docDir)
    requires host.isDir(config.docDir + "/")
    ensures ResolvePath(config, "//", host) == config.docDir + "/index.html"
  {
    assert TrimLeftSlashes("//") == "";
    assert Join(config.docDir, "") == config.docDir + "/";
    assert Join(config.docDir + "/", DefaultFile) == config.docDir + "/index.html";
  }
}
