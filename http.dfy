/**
 * The HTTP vocabulary the service speaks: request methods, status codes,
 * response headers and bodies, and the outcome of reading a file.
 */
module Http {

  newtype byte = x: int | 0 <= x < 256

  /** Request methods as the http crate names them; anything else is an extension method. */
  datatype Method =
    | GET | HEAD | POST | PUT | DELETE | OPTIONS | CONNECT | PATCH | TRACE
    | Extension(name: string)

  const OK: int := 200
  const FORBIDDEN: int := 403
  const NOT_FOUND: int := 404
  const METHOD_NOT_ALLOWED: int := 405
  const INTERNAL_SERVER_ERROR: int := 500

  datatype Header = Header(name: string, value: string)

  /** A body built from a `String` (rendered text, error text) or from raw file bytes. */
  datatype Body = Text(text: string) | Bytes(content: seq<byte>)

  datatype Response = Response(status: int, headers: seq<Header>, body: Body)

  /** `std::io::ErrorKind`, reduced to the two kinds the handler tells apart. */
  datatype ErrorKind = NotFound | PermissionDenied | OtherKind(name: string)

  /** An `std::io::Error`: its kind and its `Display` text. */
  datatype IoError = IoError(kind: ErrorKind, display: string)

  /** What opening a file and reading it to the end yields. */
  datatype ReadResult = Read(content: seq<byte>) | Failed(error: IoError)

  /** A socket address: the four octets of an IPv4 address and a port. */
  datatype SocketAddr = SocketAddr(ip: seq<int>, port: int)

  /** True when `h` is among the headers of `r` with exactly this name and value. */
  predicate HasHeader(r: Response, name: string, value: string)
  {
    Header(name, value) in r.headers
  }
}
