/** What the resolver sees of the host's web server: status codes, requests and responses. */
module Http {

  /** 303 See Other (section 15.4.4 of RFC 9110). */
  const SeeOther := 303
  /** 403 Forbidden (section 15.5.4 of RFC 9110). */
  const Forbidden := 403
  /** 404 Not Found (section 15.5.5 of RFC 9110). */
  const NotFound := 404

  /** An incoming request; the resolver reads only its URL. */
  datatype Request = Request(url: string)

  /** The host's per-request response sink: a reply status and a header table. */
  class Response {
    var status: int
    var headers: map<string, string>

    method SetReplyStatus(code: int)
      modifies this
      ensures status == code && headers == old(headers)
    {
      status := code;
    }

    /** Sets a header, replacing any earlier value under the same name. */
    method SetHeader(name: string, value: string)
      modifies this
      ensures headers == old(headers)[name := value] && status == old(status)
    {
      headers := headers[name := value];
    }
  }
}
