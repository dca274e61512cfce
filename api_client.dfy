/** `get_api_answer`, without the network: the reply the HTTP library gives
    (or the exception it raises) is an input, and the function maps it to
    the decoded answer or to the error the poll loop catches. */
module ApiClient {
  import opened PyValues

  const HttpOk := 200
  const EndpointUnreachable := "Ошибка связи с Эндпойнт."
  const OtherRequestErrors := "Прочие ошибки запроса: "

  /** What `response.json()` makes of the body: a document, or a decoding
      error carrying its own text. */
  datatype Body = Parsed(json: Json) | Unparsable(detail: string)

  /** The outcome of `requests.get`: it raised a request exception with the
      given text, or it returned a status code and a body. */
  datatype HttpReply = Raised(detail: string) | Reply(code: int, body: Body)

  /** The answer handed to the loop, or the exception that escapes
      `get_api_answer`, by its text. */
  datatype ApiAnswer = Answer(response: Json) | ConnectionError(detail: string) | DecodeError(detail: string)

  function GetApiAnswer(reply: HttpReply): (r: ApiAnswer)
    // the body is used only for a 200 reply that decodes
    ensures r.Answer? <==> reply.Reply? && reply.code == HttpOk && reply.body.Parsed?
    ensures r.Answer? ==> r.response == reply.body.json
    // any other status is one fixed connection error, whatever the code or body
    ensures reply.Reply? && reply.code != HttpOk ==> r == ConnectionError(EndpointUnreachable)
    // a raised request exception is wrapped, keeping its text
    ensures reply.Raised? ==> r == ConnectionError(OtherRequestErrors + reply.detail)
    // a decoding failure is not wrapped: it leaves with its own text
    ensures r.DecodeError? ==> reply.Reply? && reply.body == Unparsable(r.detail)
    ensures reply.Reply? && reply.code == HttpOk && reply.body.Unparsable? ==> r == DecodeError(reply.body.detail)
  {
    match reply
    case Raised(detail) => ConnectionError(OtherRequestErrors + detail)
    case Reply(code, body) =>
      if code != HttpOk then ConnectionError(EndpointUnreachable)
      else
        match body
        case Parsed(json) => Answer(json)
        case Unparsable(detail) => DecodeError(detail)
  }
}
