/**
 * The response of response.go: a status, a body and header values held
 * until `Send` writes them to the client, which happens at most once.
 *
 * The client connection is a log of writes: the header write carries the
 * status and the header values at that moment, the body write the body.
 * Writing the body through `fmt.Fprintf` treats it as a format string;
 * that expansion is not modelled and the body is written as it is.
 */
module Response {
  import RequestContext

  /** What reaches the client. */
  datatype Write =
    | WriteHeader(status: int, header: map<string, string>)
    | WriteBody(body: string)

  /**
   * `http.StatusText`, with Go's text, for the six codes the framework
   * sends; the model's table holds no other code.
   */
  function StatusText(code: int): (t: string)
    ensures code in {200, 302, 400, 403, 404, 500} <==> t != ""
  {
    if code == 200 then "OK"
    else if code == 302 then "Found"
    else if code == 400 then "Bad Request"
    else if code == 403 then "Forbidden"
    else if code == 404 then "Not Found"
    else if code == 500 then "Internal Server Error"
    else ""
  }

  /** `Content-Type` is already in canonical form. */
  lemma ContentTypeCanonical()
    ensures RequestContext.CanonicalKey("Content-Type") == "Content-Type"
  {
    var k := "Content-Type";
    assert forall i :: 0 <= i < |k| ==> RequestContext.IsTokenChar(k[i]);
    RequestContext.CanonicalFromFixed(k, true);
  }

  /** `Location` is already in canonical form. */
  lemma LocationCanonical()
    ensures RequestContext.CanonicalKey("Location") == "Location"
  {
    var k := "Location";
    assert forall i :: 0 <= i < |k| ==> RequestContext.IsTokenChar(k[i]);
    RequestContext.CanonicalFromFixed(k, true);
  }

  /**
   * A `Content-Type` value set under any spelling of the key is replaced by
   * a later `SetHtmlHeader` (or another content-type setter): the header
   * keeps one entry.
   */
  lemma ContentTypeAnySpelling(h: map<string, string>, key: string, v: string, w: string)
    requires RequestContext.SameUpToCase(key, "Content-Type")
    ensures h[RequestContext.CanonicalKey(key) := v]["Content-Type" := w] == h["Content-Type" := w]
  {
    var k := "Content-Type";
    assert forall i :: 0 <= i < |k| ==> RequestContext.IsTokenChar(k[i]);
    assert RequestContext.SameUpToCase(k, key);
    RequestContext.CanonicalKeyIgnoresCase(k, key);
    ContentTypeCanonical();
  }

  /** The writes of a response: nothing yet, or one header write followed by one body write. */
  predicate WrittenAtMostOnce(w: seq<Write>)
  {
    w == [] || (|w| == 2 && w[0].WriteHeader? && w[1].WriteBody?)
  }

  /** `WebResponse` (with the embedded `Response`). */
  class WebResponse {
    var isSent: bool
    var status: int
    var body: string
    var header: map<string, string>
    var writes: seq<Write>

    ghost predicate Valid()
      reads this
    {
      WrittenAtMostOnce(writes) && (isSent <==> writes != [])
    }

    /** `NewWebResponse`: not sent, status 200, empty body. */
    constructor ()
      ensures Valid()
      ensures !isSent && status == 200 && body == "" && header == map[] && writes == []
    {
      isSent, status, body, header, writes := false, 200, "", map[], [];
    }

    /**
     * `SetHeader`: sets one header value under the canonical form of the
     * key, as `Header().Set` does; what was already written is unaffected.
     */
    method SetHeader(key: string, value: string)
      requires Valid()
      modifies this
      ensures Valid()
      ensures header == old(header)[RequestContext.CanonicalKey(key) := value]
      ensures isSent == old(isSent) && status == old(status) && body == old(body) && writes == old(writes)
    {
      header := header[RequestContext.CanonicalKey(key) := value];
    }

    method SetHtmlHeader()
      requires Valid()
      modifies this
      ensures Valid()
      ensures header == old(header)["Content-Type" := "text/html; charset=utf-8"]
      ensures isSent == old(isSent) && status == old(status) && body == old(body) && writes == old(writes)
    {
      ContentTypeCanonical();
      SetHeader("Content-Type", "text/html; charset=utf-8");
    }

    method SetJsonHeader()
      requires Valid()
      modifies this
      ensures Valid()
      ensures header == old(header)["Content-Type" := "application/json; charset=utf-8"]
      ensures isSent == old(isSent) && status == old(status) && body == old(body) && writes == old(writes)
    {
      ContentTypeCanonical();
      SetHeader("Content-Type", "application/json; charset=utf-8");
    }

    method SetJsonpHeader()
      requires Valid()
      modifies this
      ensures Valid()
      ensures header == old(header)["Content-Type" := "application/javascript; charset=utf-8"]
      ensures isSent == old(isSent) && status == old(status) && body == old(body) && writes == old(writes)
    {
      ContentTypeCanonical();
      SetHeader("Content-Type", "application/javascript; charset=utf-8");
    }

    method SetXmlHeader()
      requires Valid()
      modifies this
      ensures Valid()
      ensures header == old(header)["Content-Type" := "application/xml; charset=utf-8"]
      ensures isSent == old(isSent) && status == old(status) && body == old(body) && writes == old(writes)
    {
      ContentTypeCanonical();
      SetHeader("Content-Type", "application/xml; charset=utf-8");
    }

    /**
     * `Send`: the first call writes the status with the header, then the
     * body, and empties the body; later calls write nothing and change nothing.
     */
    method Send()
      requires Valid()
      modifies this
      ensures Valid() && isSent
      ensures old(isSent) ==> isSent == old(isSent) && status == old(status) && body == old(body)
                              && header == old(header) && writes == old(writes)
      ensures !old(isSent) ==> writes == [WriteHeader(old(status), old(header)), WriteBody(old(body))]
                               && body == "" && status == old(status) && header == old(header)
    {
      if !isSent {
        isSent := true;
        writes := writes + [WriteHeader(status, header)];
        writes := writes + [WriteBody(body)];
        body := "";
      }
    }

    /** The error helpers: set the status and the body `StatusText(status) + ": " + data`, then `Send`. */
    method SendError(code: int, data: string)
      requires Valid()
      modifies this
      ensures Valid() && isSent && status == code && header == old(header)
      ensures old(isSent) ==> writes == old(writes) && body == StatusText(code) + ": " + data
      ensures !old(isSent) ==> writes == [WriteHeader(code, old(header)), WriteBody(StatusText(code) + ": " + data)]
                               && body == ""
    {
      status := code;
      body := StatusText(status) + ": " + data;
      Send();
    }

    method NotFound(data: string)
      requires Valid()
      modifies this
      ensures Valid() && isSent && status == 404 && header == old(header)
      ensures old(isSent) ==> writes == old(writes) && body == "Not Found: " + data
      ensures !old(isSent) ==> writes == [WriteHeader(404, old(header)), WriteBody("Not Found: " + data)] && body == ""
    {
      assert StatusText(404) + ": " == "Not Found: ";
      SendError(404, data);
    }

    method InternalServerError(data: string)
      requires Valid()
      modifies this
      ensures Valid() && isSent && status == 500 && header == old(header)
      ensures old(isSent) ==> writes == old(writes) && body == "Internal Server Error: " + data
      ensures !old(isSent) ==> writes == [WriteHeader(500, old(header)), WriteBody("Internal Server Error: " + data)]
                               && body == ""
    {
      assert StatusText(500) + ": " == "Internal Server Error: ";
      SendError(500, data);
    }

    method BadRequest(data: string)
      requires Valid()
      modifies this
      ensures Valid() && isSent && status == 400 && header == old(header)
      ensures old(isSent) ==> writes == old(writes) && body == "Bad Request: " + data
      ensures !old(isSent) ==> writes == [WriteHeader(400, old(header)), WriteBody("Bad Request: " + data)] && body == ""
    {
      assert StatusText(400) + ": " == "Bad Request: ";
      SendError(400, data);
    }

    method Forbidden(data: string)
      requires Valid()
      modifies this
      ensures Valid() && isSent && status == 403 && header == old(header)
      ensures old(isSent) ==> writes == old(writes) && body == "Forbidden: " + data
      ensures !old(isSent) ==> writes == [WriteHeader(403, old(header)), WriteBody("Forbidden: " + data)] && body == ""
    {
      assert StatusText(403) + ": " == "Forbidden: ";
      SendError(403, data);
    }

    /** `Redirect`: status 302 and the `Location` header, then `Send`. */
    method Redirect(url: string)
      requires Valid()
      modifies this
      ensures Valid() && isSent && status == 302 && header == old(header)["Location" := url]
      ensures old(isSent) ==> writes == old(writes) && body == old(body)
      ensures !old(isSent) ==> writes == [WriteHeader(302, old(header)["Location" := url]), WriteBody(old(body))]
                               && body == ""
    {
      status := 302;
      LocationCanonical();
      SetHeader("Location", url);
      Send();
    }
  }

  /** A fresh response answered with an error and then sent again writes the error once. */
  method ErrorThenSend(data: string) returns (w: seq<Write>)
    ensures w == [WriteHeader(400, map[]), WriteBody("Bad Request: " + data)]
  {
    var r := new WebResponse();
    r.BadRequest(data);
    r.Send();
    r.NotFound(data);
    w := r.writes;
  }
}
