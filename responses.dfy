/**
 * response.go: a response helper that remembers a status to send, 0
 * meaning "not chosen", and writes bodies through the wrapped writer.
 */
module Responses {
  import opened Wrappers
  import opened Http

  /** The `Content-Type` the JSON helper copies in (`headerContentTypeJSON`). */
  const JSONContentType := "application/json"

  /** The header name both body helpers set. */
  const ContentType := "Content-Type"

  /** response.go `Response`. */
  class Response {
    const w: ResponseWriter
    var status: int

    /** response.go `Res`: wraps the writer with no status chosen. */
    constructor Res(rw: ResponseWriter)
      ensures w == rw && status == 0
    {
      w := rw;
      status := 0;
    }

    /** response.go `statusSafe`: 200 when no status was chosen, the chosen one otherwise. */
    function StatusSafe(): (s: int)
      reads this
      ensures s != 0
      ensures status != 0 ==> s == status
      ensures status == 0 ==> s == StatusOK
    {
      if status == 0 then StatusOK else status
    }

    /** response.go `Status`: records the status and returns the same response, for chaining. */
    method Status(s: int) returns (r: Response)
      modifies this
      ensures r == this && status == s
    {
      status := s;
      r := this;
    }

    /**
     * response.go `Text`: sends `StatusSafe()`, then adds the text
     * content type, then writes the line.  The stored status is unchanged.
     * Because the header is added after `WriteHeader`, a response that had
     * not been sent goes out without it.  An invalid status makes the first
     * step panic, and nothing after it runs.
     */
    method Text(data: string) returns (panicked: bool)
      modifies w
      ensures panicked <==> old(w.sent).None? && !ValidStatus(StatusSafe())
      ensures panicked ==> w.header == old(w.header) && w.sent == old(w.sent) && w.body == old(w.body)
      ensures !panicked ==> w.sent == if old(w.sent).None? then Some(Sent(StatusSafe(), old(w.header))) else old(w.sent)
      ensures !panicked ==>
        w.header == old(w.header)[ContentType := (if ContentType in old(w.header) then old(w.header)[ContentType] else []) + ["text/plain"]]
      ensures !panicked ==> w.body == old(w.body) + data + "\n"
    {
      panicked := w.WriteHeader(StatusSafe());
      if panicked {
        return;
      }
      w.AddHeader(ContentType, "text/plain");
      w.Write(data + "\n");
    }

    /**
     * `Text` with the content type added before the status is sent; an
     * invalid status panics after the header was added.
     */
    method TextCorrected(data: string) returns (panicked: bool)
      modifies w
      ensures panicked <==> old(w.sent).None? && !ValidStatus(StatusSafe())
      ensures w.header == old(w.header)[ContentType := (if ContentType in old(w.header) then old(w.header)[ContentType] else []) + ["text/plain"]]
      ensures w.sent == if old(w.sent).None? && !panicked then Some(Sent(StatusSafe(), w.header)) else old(w.sent)
      ensures old(w.sent).None? && !panicked ==> "text/plain" in w.sent.value.header[ContentType]
      ensures w.body == if panicked then old(w.body) else old(w.body) + data + "\n"
    {
      w.AddHeader(ContentType, "text/plain");
      panicked := w.WriteHeader(StatusSafe());
      if panicked {
        return;
      }
      w.Write(data + "\n");
    }

    /**
     * response.go `JSON`, given the encoder's output (`None` when encoding
     * fails).  On success the JSON content type is copied in, then
     * `StatusSafe()` is sent, which panics on an invalid status, and the
     * encoding written; on failure `http.Error` drops any `Content-Length`,
     * sets the plain-text headers and answers 500 with the message and a
     * newline.
     */
    method JSON(encoded: Option<string>, errMessage: string) returns (panicked: bool)
      modifies w
      ensures panicked <==> encoded.Some? && old(w.sent).None? && !ValidStatus(StatusSafe())
      ensures encoded.Some? ==> w.header == old(w.header)[ContentType := [JSONContentType]]
      ensures encoded.Some? ==> w.body == if panicked then old(w.body) else old(w.body) + encoded.value
      ensures encoded.Some? && old(w.sent).None? && !panicked ==> w.sent == Some(Sent(StatusSafe(), w.header))
      ensures encoded.None? ==>
        w.header == (old(w.header) - {"Content-Length"})[ContentType := ["text/plain; charset=utf-8"]]["X-Content-Type-Options" := ["nosniff"]]
      ensures encoded.None? ==> w.body == old(w.body) + errMessage + "\n"
      ensures encoded.None? && old(w.sent).None? ==> w.sent == Some(Sent(500, w.header))
      ensures old(w.sent).Some? || panicked ==> w.sent == old(w.sent)
    {
      if encoded.None? {
        w.DelHeader("Content-Length");
        w.SetHeader(ContentType, "text/plain; charset=utf-8");
        w.SetHeader("X-Content-Type-Options", "nosniff");
        panicked := w.WriteHeader(500);
        w.Write(errMessage + "\n");
        return;
      }
      w.SetHeader(ContentType, JSONContentType);
      panicked := w.WriteHeader(StatusSafe());
      if panicked {
        return;
      }
      w.Write(encoded.value);
    }
  }

  /** On a fresh writer, `Text` sends its status with a header that has no content type. */
  method TextSendsNoContentType(data: string) returns (sent: Sent)
    ensures sent.status == StatusOK
    ensures ContentType !in sent.header
  {
    var rw := new ResponseWriter();
    var r := new Response.Res(rw);
    var _ := r.Text(data);
    sent := rw.sent.value;
  }

  /** On a fresh writer, the corrected `Text` sends the text content type. */
  method TextCorrectedSendsContentType(data: string) returns (sent: Sent)
    ensures sent.status == StatusOK
    ensures ContentType in sent.header && "text/plain" in sent.header[ContentType]
  {
    var rw := new ResponseWriter();
    var r := new Response.Res(rw);
    var _ := r.TextCorrected(data);
    sent := rw.sent.value;
  }

  /** A status outside 100..999 set through `Status` makes `Text` panic on a fresh writer. */
  method TextInvalidStatusPanics(data: string, code: int) returns (panicked: bool)
    requires code != 0 && !ValidStatus(code)
    ensures panicked
  {
    var rw := new ResponseWriter();
    var r := new Response.Res(rw);
    var r2 := r.Status(code);
    panicked := r2.Text(data);
  }
}
