/** The parts of Django's request/response objects the views touch: method, status, JSON body or redirect, headers. */
module Http {
  import opened Json

  datatype Method = GET | POST | OPTIONS | PUT | PATCH | DELETE | HEAD

  datatype Body = JsonBody(fields: Object) | RedirectTo(location: string) | NoBody

  datatype Response = Response(status: int, body: Body, headers: map<string, string>)

  /** `JsonResponse(fields, status=status)`. */
  function JsonResponse(fields: Object, status: int := 200): Response {
    Response(status, JsonBody(fields), map[])
  }

  /** `redirect(location)`: a 302 response. */
  function Redirect(location: string): Response {
    Response(302, RedirectTo(location), map[])
  }

  /** The 405 response `require_http_methods` sends, listing the permitted methods in `Allow`. */
  function NotAllowed(permitted: string): Response {
    Response(405, NoBody, map["Allow" := permitted])
  }
}
