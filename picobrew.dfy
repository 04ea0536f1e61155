/**
 * The HTTP client every command posts through: a `got` instance extended with
 * the vendor's base URL, a user-agent header, JSON responses by default, and
 * one handler that turns vendor error responses into readable errors.
 */
module Picobrew {
  import opened Wrappers
  import opened Js

  const PrefixUrl := "https://picobrew.com"
  const UserAgent := "picobrew-cli/0.1.0"

  /** A cookie in a cookie jar: its Set-Cookie text and the URL it is scoped to. */
  datatype Cookie = Cookie(text: string, url: string)

  /** A request body: `json:`, `form:`, or literal text made of a prefix and a serialised value. */
  datatype Body =
    | NoBody
    | JsonBody(json: Value)
    | FormBody(fields: seq<(string, string)>)
    | TextBody(prefix: string, serialised: Value)

  /** The options one `picobrew.post(path, options)` call passes. */
  datatype Options = Options(
    path: string,
    cookieJar: seq<Cookie>,
    headers: seq<(string, string)>,
    body: Body,
    responseType: string)

  /** A request after the instance defaults are merged in, as the handler receives it. */
  datatype Request = Request(
    verb: string,
    url: string,
    cookieJar: seq<Cookie>,
    headers: seq<(string, string)>,
    body: Body,
    responseType: string,
    isStream: bool)

  datatype Response = Response(statusCode: int, body: Value)

  /** A request error: its name, its message and the response it carries, if any. */
  datatype HttpError = HttpError(name: string, message: string, response: Option<Response>)

  datatype Reply = Ok(response: Response) | Thrown(error: HttpError)

  /** What the transport under the handler answers to each request (the network itself). */
  type Transport = Request -> Reply

  /** `post` on the extended instance: the path is appended to the base URL and the user-agent header goes first. */
  function Extend(o: Options): (r: Request)
    ensures r.url == PrefixUrl + "/" + o.path
    ensures r.headers == [("user-agent", UserAgent)] + o.headers
    ensures r.verb == "POST" && !r.isStream
    ensures r.cookieJar == o.cookieJar && r.body == o.body && r.responseType == o.responseType
  {
    Request("POST", PrefixUrl + "/" + o.path, o.cookieJar, [("user-agent", UserAgent)] + o.headers,
            o.body, o.responseType, false)
  }

  /** `response && response.body`: the error carries a response whose body is truthy. */
  predicate HasBody(e: HttpError)
    ensures HasBody(e) ==> e.response.Some? && !Nullish(e.response.value.body)
    ensures e.response.Some? && (e.response.value.body.Obj? || e.response.value.body.Arr?) ==> HasBody(e)
  {
    e.response.Some? && Truthy(e.response.value.body)
  }

  /** `${response.body.message} (${response.statusCode} status code)` */
  function NicerMessage(resp: Response): (m: string)
    requires Truthy(resp.body)
    ensures var text := Display(Get(resp.body, "message").value);
            |text| + 2 <= |m| && m[..|text| + 2] == text + " ("
    ensures |m| >= 13 && m[|m| - 13..] == " status code)"
    ensures var text := Display(Get(resp.body, "message").value);
            |text| + 2 <= |m| - 13 && m[|text| + 2..|m| - 13] == IntToDecimal(resp.statusCode)
  {
    Display(Get(resp.body, "message").value) + " (" + IntToDecimal(resp.statusCode) + " status code)"
  }

  /**
   * The handler: streams go straight to `next`; otherwise a success is returned
   * as it is and an error is rethrown, renamed and re-worded when its response
   * has a body.
   */
  function Handle(options: Request, next: Transport): (r: Reply)
    ensures options.isStream ==> r == next(options)
    ensures r.Ok? <==> next(options).Ok?
    ensures r.Ok? ==> r == next(options)
    ensures r.Thrown? ==> r.error.response == next(options).error.response
    ensures r.Thrown? ==> r.error.(name := next(options).error.name, message := next(options).error.message)
                          == next(options).error
    ensures r.Thrown? && !options.isStream ==>
              if HasBody(next(options).error)
              then r.error.name == "PicobrewError"
                   && r.error.message == NicerMessage(next(options).error.response.value)
              else r.error == next(options).error
  {
    if options.isStream then next(options)
    else match next(options)
      case Ok(response) => Ok(response)
      case Thrown(error) =>
        if HasBody(error)
        then Thrown(error.(name := "PicobrewError", message := NicerMessage(error.response.value)))
        else Thrown(error)
  }

  /** `picobrew.post(path, options)` over a given transport. */
  function Post(transport: Transport, o: Options): (r: Reply)
    ensures r.Ok? <==> transport(Extend(o)).Ok?
    ensures r.Ok? ==> r == transport(Extend(o))
    ensures r.Thrown? ==> r.error.response == transport(Extend(o)).error.response
  {
    Handle(Extend(o), transport)
  }
}
