/** The HTTP layer as the client sees it: the requests it posts and an
    abstract transport that records every request and answers it. */
module Http {
  import opened PyRuntime

  /** The value of a request header. An `Authorization` header carries the
      bearer token as the client stored it; the transport writes it as
      `f"Bearer {token}"`. */
  datatype HeaderValue = Plain(text: string) | Bearer(token: Json)

  datatype Body =
    | Form(fields: map<string, string>)   // a dict of form fields, form-encoded
    | JsonText(doc: Json)                 // a JSON document serialised as the body
    | Multipart(part: string, fileName: string, path: string, contentType: string)
                                          // one file part: its field name, file name, the opened path and its type

  datatype Request = Request(url: string, headers: map<string, HeaderValue>, body: Body)

  /** A reply: its status code and its decoded JSON body. */
  datatype Response = Response(status: int, body: Json)

  /** How the platform answers: the reply to a request may depend on the
      request and on how many requests came before it. */
  type Server = (nat, Request) -> Response

  /** `requests.post`: every request is recorded, in order, in `trace`. */
  class Transport {
    const server: Server
    var trace: seq<Request>

    constructor (server: Server)
      ensures this.server == server && trace == []
    {
      this.server := server;
      trace := [];
    }

    method Post(req: Request) returns (resp: Response)
      modifies this
      ensures trace == old(trace) + [req]
      ensures resp == server(|old(trace)|, req)
    {
      resp := server(|trace|, req);
      trace := trace + [req];
    }
  }
}
