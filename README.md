# cargo-docserve, modelled in Dafny

cargo-docserve is a cargo subcommand. It generates a workspace's rustdoc
documentation and serves it over HTTP. In watch mode it also regenerates the
documentation whenever a source file changes, restarting the server around each
regeneration. This project models three parts of it:

- the request handler `FsService` (`src/server.rs`): its method check, its
  index route, path resolution, the mapping from read outcomes to status
  codes, and the shape of error responses;
- the older one-shot `serve` (`src/serve.rs`), which has the same handler plus
  its own setup and a fixed address;
- the coordinator `run` (`src/lib.rs`): setup, the first generation, then the
  serve / wait-for-event / stop / regenerate loop.

The modules:

- `Errors`: `Option`, `Fallible` (`Ok` / `Err` with a text error) and
  `Outcome`, which stands for `Fallible<()>`.
- `Http`: methods, the status codes used, headers, responses, I/O error kinds
  and socket addresses.
- `Paths`: `trim_left_matches('/')` and Unix `Path::join` on text paths.
- `DocTargets`: targets and packages, the filter that keeps documented
  libraries, and the documentation root `<target_dir>/doc`.
- `Server`: the handler as a function of the request, the configuration and a
  `Host`. The `Host` holds what the handler cannot see: `is_dir`, reading a
  file, the MIME guess and the compiled index template.
- `Serve`: the legacy `serve`, reusing `Server`'s handler. Its own handler is
  the same code.
- `Coordinator`: `run` as a method over the setup outcomes and a sequence of
  watcher notifications. It records a ghost trace of `Build`, `Start` and
  `Stop` actions and is proved against a reference definition of that trace
  and of the final outcome.

What the code does that a reader may not expect:

- every leading `/` of a request path is stripped, not only one;
- no check keeps a resolved path inside the documentation root, and `..` is
  kept (`Server.DotDotNotRefused`);
- HEAD is refused with 405 like every other non-GET method;
- the index response carries no content-type header;
- a failed regeneration in watch mode ends `run` with that error (the `?` of
  `src/lib.rs:117`), rather than continuing to serve the old documentation.

## Model

| member | source | states |
|---|---|---|
| Paths.TrimLeftSlashes | src/server.rs:50 | the trimmed path is no longer than the input and never starts with `/` |
| Paths.TrimRemovesOnlySlashes | src/server.rs:50 | the trim's result is a suffix of the input and everything removed was a `/` |
| Paths.TrimIgnoresLeadingSlashes | src/server.rs:50 | any number of leading `/` in front of a path trims to the same result as the path alone |
| Paths.Join | src/server.rs:50-52 | an absolute argument replaces the base; otherwise the result is the base, then one `/` exactly when the base lacks a trailing `/`, then the argument |
| Server.ErrorResponse | src/server.rs:120-127 | the given status, exactly the headers cache-control: no-cache and connection: close, and the error text as the body |
| Server.ResolvePath | src/server.rs:49-55 | the result starts with the documentation root; it is the root joined with the trimmed path, with `index.html` appended exactly when that joined path is a directory |
| Server.ErrorStatus | src/server.rs:88-94 | 404 exactly for NotFound, 403 exactly for PermissionDenied, 500 exactly for every other kind |
| Server.FileResponse | src/server.rs:82-95 | a successful read gives 200, the whole content and one content-type header; a failed read gives the error response for its kind with the error's text |
| Server.Handle | src/server.rs:64-97 | every response has one of the statuses 200, 403, 404, 405 or 500, and it is 405 exactly when the method is not GET |
| Server.NonGetRefused | src/server.rs:65-70 | any non-GET request, whatever its path, gets 405, the fixed text and the no-cache and close headers |
| Server.IndexNeedsGet | src/server.rs:64-74 | the method check comes before the index route: POST of /index.html and HEAD of / get 405 |
| Server.IndexServed | src/server.rs:72-73 | GET of / or /index.html gets 200, no headers, and the template rendered over the configured targets |
| Server.IndexIgnoresFilesystem | src/server.rs:32-47 | the index depends only on the target list and the template, not on the documentation root or the filesystem |
| Server.StaticFileServed | src/server.rs:76-95 | any other GET reads the resolved path: content with the guessed type on success, 404, 403 or 500 with the error text otherwise |
| Server.ErrorsAreUncached | src/server.rs:120-125 | every non-200 response carries exactly the no-cache and close headers and a text body; a 200 carries at most a content-type header |
| Server.ResolveIgnoresLeadingSlashes | src/server.rs:50 | a path resolves the same whatever number of `/` precede it |
| Server.RequestPathVerbatim | src/server.rs:49-55 | below the root, a non-directory request path is appended to the root verbatim, `..` included |
| Server.DotDotNotRefused | src/server.rs:76-81 | GET of `/../<rest>` reads `<root>/../<rest>` and serves its outcome like any other file: the root does not contain the request |
| Server.DirectoryGetsIndexFile | src/server.rs:51-53 | a directory request gets `index.html` appended: when `<root>/` is a directory, `//` resolves to `<root>/index.html` |
| DocTargets.ListedTargets | src/lib.rs:58-64 | a target is kept exactly when it is a documented library |
| DocTargets.DocumentedLibs | src/lib.rs:55-66 | a target is collected exactly when it is a documented library of some member |
| DocTargets.ListedTargetsAppend | src/lib.rs:58-64 | the filter keeps the targets' order: it distributes over concatenation |
| DocTargets.DocumentedLibsAppend | src/lib.rs:55-66 | the collected targets follow the members' order: collection distributes over concatenation |
| DocTargets.DocumentedLibsSingle | src/lib.rs:57 | a single member contributes exactly its own kept targets |
| DocTargets.DocDir | src/lib.rs:50-53 | `./target/doc` without a configured target directory; otherwise the configured directory, a `/` unless it already ends in one, then `doc` |
| Serve.Serve | src/serve.rs:100-136 | a failed target-directory lookup is returned as the error; otherwise the server is bound to 127.0.0.1:8000 with the documentation root `<target_dir>/doc` (`./target/doc` by default) and the documented libraries of the members, in member order |
| Serve.LegacyCallRoutes | src/serve.rs:64-97 | the legacy service refuses non-GET methods, answers / and /index.html with the template over the documented libraries, and reads every other path |
| Serve.LegacyResolvesUnderDefaultDocDir | src/serve.rs:49-55 | with no target directory, a plain file request with any number of leading `/` resolves to `./target/doc/<file>` |
| Serve.LegacyErrorsUncached | src/serve.rs:138-145 | every non-200 legacy response carries no-cache and close and a text body |
| Coordinator.Run | src/lib.rs:45-127 | the method's outcome and trace equal the reference definition, and the trace keeps the one-server discipline |
| Coordinator.ServeLoop | src/lib.rs:79-126 | in watch mode, the loop's outcome and trace equal the reference watch trace; in standard mode, one server with a never-firing signal, then Ok |
| Coordinator.BeforeTheLoop | src/lib.rs:46-88 | a setup failure returns its error with nothing done; a failed first generation returns its error after that one build; standard mode builds once, starts one server and returns Ok |
| Coordinator.WatchTraceDisciplined | src/lib.rs:91-119 | the watch loop starts a server only when none is live, stops one only when one is live, and regenerates only when none is live |
| Coordinator.RunTraceDisciplined | src/lib.rs:74-126 | every trace of `run` keeps that discipline |
| Coordinator.DisciplinedAtMostOneServer | src/lib.rs:92-112 | in a disciplined trace, at every point at most one server is live |
| Coordinator.WatchTraceStep | src/lib.rs:103-124 | after a start: an exhausted input or receive error ends the trace; a failed regeneration ends it after stop and build; a successful one goes on with the rest |
| Coordinator.WatchCycles | src/lib.rs:103-119 | k successful regenerations contribute k start/stop/build cycles and do not change how the loop ends |
| Coordinator.WatchLoopExit | src/lib.rs:103-124 | after k successful cycles the loop waits, exits with status 1, or returns the regeneration error, with the matching trace |
| Coordinator.RebuildFailureIsFatal | src/lib.rs:117 | a failed regeneration ends `run` with its error; no server is started after it |
| Coordinator.RecvErrorExits | src/lib.rs:121-124 | a receive error exits with status 1 while the current server is still live |
| Coordinator.KeepsServing | src/lib.rs:79-119 | while every regeneration succeeds, `run` keeps waiting with one more server started than events received |
| Coordinator.WatchTraceShape | src/lib.rs:94-101 | every watch-loop server gets the same configuration, the same address and a oneshot signal; each later start follows a successful build, and each build follows a stop |
| Coordinator.RunTraceShape | src/lib.rs:67 | each server of `run` gets the one configuration computed before the loop, the configured address and the mode's signal, right after a successful build |

## Left out

- hyper and tokio: binding, connection handling, futures and graceful-shutdown draining are not modelled. A server is a `Start` action and its lifetime ends at the matching `Stop`.
- Threads and channels: spawning the server thread, the oneshot shutdown and done channels, and the notify channel are modelled as sequential steps. No interleaving is modelled.
- The watcher's 500 ms debounce and the event payloads: an event is only the outcome of the regeneration it triggers.
- Cargo: `doc::generate` (`src/doc.rs`), manifest lookup, workspace loading and `target_dir` are outcomes given as inputs (`Environment`, `Notification`).
- `src/main.rs` is not part of this model: it is command-line glue, and its call to `run` does not match the signature of `run`.
- `mime_guess` and the askama index template are uninterpreted functions in `Host`. So are `Path::is_dir` and reading a file.
- Shell status messages (`shell().status(..)?`): the model assumes they succeed, so their failure paths are not modelled.
- Panics from `unwrap` (channel sends and receives, template rendering, response building) are not modelled.
- Coordinator.ServeLoop: in standard mode `server::start` returns only once hyper's runtime stops; the model records the start and then returns Ok, as the code does when it returns.
- Coordinator.Run: the returned errors are the setup step's error values. The text of cargo's errors is not modelled.
- Paths are compared as text, not by `PathBuf` components. Request paths are used as received, without percent-decoding. Only Unix joining is modelled, not Windows prefixes.
- `Server.RenderIndex` has no contract of its own; what it returns is stated by `Server.IndexServed`.
- Logging through `trace!` and `error!` (src/lib.rs:69, 86, 91, 105, 122, and the `server error` log in src/server.rs:113) is not modelled: it has no effect on the state.
- An exhausted notification sequence ends the model with `AwaitingEvent`: the real loop would block there.
