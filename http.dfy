/**
 * The HTTP boundary. A GET either delivers a parsed body or fails in the
 * transport (network error, non-2xx status), in which case the program only
 * sees the error's text. A request is a route and its query parameters.
 */
module Http {
  import opened Js

  datatype Response = Body(data: Json) | TransportError(message: string)

  datatype Param = PString(s: string) | PNumber(n: int) | PBool(b: bool)

  datatype Request = Request(route: string, params: map<string, Param>)
}
