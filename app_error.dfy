/**
 * The application's error type, its HTTP response and its `Display` text
 * (src/app_error.rs).
 */
module AppErrors {
  import opened Wrappers

  datatype AppError =
    | NotFound
    | BadRequest(msg: string)
    | Unauthorized(msg: string)
    | OtherInternalServerError(msg: string)

  /** A response body: a plain text message, or a rendered HTML page with its title and language. */
  datatype Body = Text(text: string) | HtmlPage(title: string, lang: string)

  datatype Response = Response(status: nat, body: Body)

  /** The error a `core::fmt::Formatter` reports when its sink refuses a write. */
  datatype FmtError = FmtError

  /** `IntoResponse for AppError`: the status code and body of each variant. */
  function IntoResponse(e: AppError): (r: Response)
    ensures e.NotFound? <==> r.status == 404
    ensures e.BadRequest? <==> r.status == 400
    ensures e.Unauthorized? <==> r.status == 401
    ensures e.OtherInternalServerError? <==> r.status == 500
    ensures (e.BadRequest? || e.Unauthorized?) <==> r.body.Text?
    ensures (e.BadRequest? || e.Unauthorized?) ==> r.body.text == e.msg
  {
    match e
    case NotFound => Response(404, HtmlPage("Svoote - 404 Not Found", "en"))
    case BadRequest(msg) => Response(400, Text(msg))
    case Unauthorized(msg) => Response(401, Text(msg))
    case OtherInternalServerError(_) =>
      Response(500, HtmlPage("Svoote - 500 Internal Server Error", "en"))
  }

  /** Only the internal server error is a server-side (5xx) status; the other three are client errors. */
  lemma ClientErrorStatus(e: AppError)
    ensures 400 <= IntoResponse(e).status < 500 <==> !e.OtherInternalServerError?
  {
  }

  /** The text `Display for AppError` writes. */
  function Display(e: AppError): string
  {
    match e
    case NotFound => "Not Found"
    case BadRequest(s) => "Bad request: " + s
    case Unauthorized(s) => "Unauthorized: " + s
    case OtherInternalServerError(s) => "Internal server error: " + s
  }

  /**
   * `fmt` writes `Display(e)` into a formatter whose sink either accepts the
   * write or refuses it; a refusal is propagated by `?`, otherwise `Ok(())`.
   */
  function Fmt(e: AppError, sinkAccepts: bool): (r: Result<string, FmtError>)
    ensures r.Ok? <==> sinkAccepts
    ensures r.Ok? ==> r.value == Display(e)
  {
    if sinkAccepts then Ok(Display(e)) else Err(FmtError)
  }

  /** Distinct errors display differently: the text determines the variant and its message. */
  lemma DisplayInjective(e1: AppError, e2: AppError)
    requires Display(e1) == Display(e2)
    ensures e1 == e2
  {
    var d := Display(e1);
    assert d[0] == Display(e2)[0];
    match e1
    case NotFound =>
      assert e2.NotFound?;
    case BadRequest(s) =>
      assert e2.BadRequest?;
      assert s == d[|"Bad request: "|..] == e2.msg;
    case Unauthorized(s) =>
      assert e2.Unauthorized?;
      assert s == d[|"Unauthorized: "|..] == e2.msg;
    case OtherInternalServerError(s) =>
      assert e2.OtherInternalServerError?;
      assert s == d[|"Internal server error: "|..] == e2.msg;
  }
}
