/**
 * The older one-shot `serve`: it derives the documentation root, collects the
 * documented libraries, and serves them on a fixed address with the same
 * handler as `FsService` (its `ServiceContext::call`, `resolve_path`,
 * `render_index` and `error_response` are the same code).
 */
module Serve {

  import opened Errors
  import opened Http
  import opened Paths
  import opened DocTargets
  import opened Server

  /** The address `([127, 0, 0, 1], 8000).into()`. */
  const LegacyAddr: SocketAddr := SocketAddr([127, 0, 0, 1], 8000)

  /** What `serve` binds and runs: the address and the handler's `Inner` context. */
  datatype Listener = Listener(addr: SocketAddr, context: ServerConfig)

  /**
   * `serve(ws)`: a failing target-directory lookup is returned as the error;
   * otherwise the server runs on 127.0.0.1:8000 over `<target_dir>/doc` (with
   * `./target` by default) and the documented libraries of the members.
   */
  function Serve(targetDir: Fallible<Option<Path>>, members: seq<Package>): (r: Fallible<Listener>)
    ensures targetDir.Err? <==> r.Err?
    ensures targetDir.Err? ==> r.error == targetDir.error
    ensures r.Ok? ==> r.value.addr == SocketAddr([127, 0, 0, 1], 8000)
    ensures r.Ok? && targetDir.value.None? ==> r.value.context.docDir == "./target/doc"
    ensures r.Ok? ==> r.value.context == ServerConfig(DocDir(targetDir.value), DocumentedLibs(members))
    ensures r.Ok? ==> forall t :: t in r.value.context.targets <==>
      Listed(t) && exists p :: p in members && t in p.targets
  {
    match targetDir
    case Err(e) => Err(e)
    case Ok(dir) => Ok(Listener(LegacyAddr, ServerConfig(DocDir(dir), DocumentedLibs(members))))
  }

  /**
   * Lemma: the legacy service refuses every non-GET method, answers `/` and
   * `/index.html` with the template over exactly the documented libraries, and
   * reads every other path under `<target_dir>/doc`.
   */
  lemma LegacyCallRoutes(targetDir: Option<Path>, members: seq<Package>, req: Request, host: Host)
    ensures var l := Serve(Ok(targetDir), members).value;
      var r := Handle(req, l.context, host);
      && (req.verb != GET ==> r == ErrorResponse(METHOD_NOT_ALLOWED, "The request method is not GET"))
      && (req.verb == GET && IsIndexPath(req.path) ==>
            r == Response(OK, [], Text(host.template(DocumentedLibs(members)))))
      && (req.verb == GET && !IsIndexPath(req.path) ==>
            var p := ResolvePath(l.context, req.path, host);
            r == FileResponse(host.read(p), host.guessMime(p)))
  {
  }

  /**
   * Lemma: with no configured target directory, the legacy service resolves a
   * plain file request to `./target/doc/<file>`, whatever number of leading `/`.
   */
  lemma LegacyResolvesUnderDefaultDocDir(members: seq<Package>, n: nat, file: string, host: Host)
    requires !IsAbsolute(file)
    requires !host.isDir(DocDir(None) + "/" + file)
    ensures DocDir(None) == "./target/doc"
    ensures ResolvePath(Serve(Ok(None), members).value.context, Slashes(n) + file, host) == DocDir(None) + "/" + file
  {
    var c := ServerConfig(DocDir(None), DocumentedLibs(members));
    assert Serve(Ok(None), members).value.context == c;
    ResolveIgnoresLeadingSlashes(c, n, file, host);
    assert NeedsSeparator(c.docDir);
  }

  /** Lemma: every error the legacy service gives carries no-cache and close, with a text body. */
  lemma LegacyErrorsUncached(targetDir: Option<Path>, members: seq<Package>, req: Request, host: Host)
    ensures var r := Handle(req, Serve(Ok(targetDir), members).value.context, host);
      r.status != OK ==>
        && HasHeader(r, "cache-control", "no-cache")
        && HasHeader(r, "connection", "close")
        && r.body.Text?
  {
    ErrorsAreUncached(req, Serve(Ok(targetDir), members).value.context, host);
  }
}
