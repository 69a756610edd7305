/**
 * The parts of Go's `net/http` response writer that the webhook handlers and
 * `WriteToHTTPResponse` depend on: the header map is copied when the status
 * line is written, so a header set afterwards never reaches the client; a
 * `Write` before any `WriteHeader` sends status 200; a body sent without a
 * `Content-Type` is given one by content sniffing.
 */
module Webserver {
  import opened Wrappers

  const JsonContentType: string := "application/json"
  const TextContentType: string := "text/plain; charset=utf-8"
  const BinaryContentType: string := "application/octet-stream"

  /** A body write: text, or url-encoded form values. */
  datatype Chunk = Text(text: string) | FormEncoded(values: map<string, seq<string>>)

  class ResponseWriter {
    /** The error every `Write` reports once the client has gone away, if it has. */
    const failure: Option<string>
    /** The handler's header map, `w.Header()`. */
    var header: map<string, string>
    /** The status sent, once the header has been written. */
    var status: Option<int>
    /** The header map as it was when the status line was written. */
    var sentHeader: map<string, string>
    var body: seq<Chunk>

    constructor (failure: Option<string>)
      ensures this.failure == failure
      ensures header == map[] && status == None && sentHeader == map[] && body == []
    {
      this.failure := failure;
      header := map[];
      status := None;
      sentHeader := map[];
      body := [];
    }

    /** `w.Header().Set(key, value)`. */
    method SetHeader(key: string, value: string)
      modifies this
      ensures header == old(header)[key := value]
      ensures status == old(status) && sentHeader == old(sentHeader) && body == old(body)
    {
      header := header[key := value];
    }

    /** `w.WriteHeader(code)`: only the first call has an effect; it fixes the header sent. */
    method WriteHeader(code: int)
      requires 200 <= code <= 999
      modifies this
      ensures old(status).None? ==> status == Some(code) && sentHeader == header
      ensures old(status).Some? ==> status == old(status) && sentHeader == old(sentHeader)
      ensures header == old(header) && body == old(body)
    {
      if status.None? {
        status := Some(code);
        sentHeader := header;
      }
    }

    /** `w.Write(chunk)`: writes the header with status 200 first if it has not been written. */
    method Write(chunk: Chunk) returns (err: Option<string>)
      modifies this
      ensures old(status).None? ==> status == Some(200) && sentHeader == header
      ensures old(status).Some? ==> status == old(status) && sentHeader == old(sentHeader)
      ensures header == old(header)
      ensures err == failure
      ensures body == if failure.None? then old(body) + [chunk] else old(body)
    {
      WriteHeader(200);
      err := failure;
      if failure.None? {
        body := body + [chunk];
      }
    }

    /**
     * The `Content-Type` the client receives: the one set before the status
     * line, or else the sniffed type of a body that starts with `{`; `None`
     * when nothing has been sent or the body is not of that kind.
     */
    function ReceivedContentType(): Option<string>
      reads this
    {
      if status.None? then None
      else if "Content-Type" in sentHeader then Some(sentHeader["Content-Type"])
      else if body != [] && body[0].Text? && body[0].text != [] && body[0].text[0] == '{' then Some(SniffObject(body[0].text))
      else None
    }
  }

  /** A byte that makes the sniffer call content binary. */
  predicate IsBinaryByte(c: char) {
    c <= '\U{8}' || c == '\U{B}' || ('\U{E}' <= c <= '\U{1A}') || ('\U{1C}' <= c <= '\U{1F}')
  }

  predicate NoControl(s: string) {
    forall i :: 0 <= i < |s| ==> ' ' <= s[i]
  }

  /**
   * `http.DetectContentType` for content that starts with `{`: no signature
   * starts with that byte, so the content is plain text unless it holds a
   * binary byte.
   */
  function SniffObject(s: string): (t: string)
    ensures t == TextContentType <==> forall i :: 0 <= i < |s| ==> !IsBinaryByte(s[i])
    ensures t == TextContentType || t == BinaryContentType
  {
    if exists i :: 0 <= i < |s| && IsBinaryByte(s[i]) then BinaryContentType else TextContentType
  }

  function HexDigit(n: int): char
    requires 0 <= n < 16
  {
    "0123456789abcdef"[n]
  }

  /** How `encoding/json` writes one character of a string, with HTML-safe escaping. */
  function JsonEscapeChar(c: char): string {
    if c == '"' then "\\\""
    else if c == '\\' then "\\\\"
    else if c == '\n' then "\\n"
    else if c == '\r' then "\\r"
    else if c == '\t' then "\\t"
    else if c < ' ' then "\\u00" + [HexDigit(c as int / 16), HexDigit(c as int % 16)]
    else if c == '<' then "\\u003c"
    else if c == '>' then "\\u003e"
    else if c == '&' then "\\u0026"
    else if c == '\U{2028}' then "\\u2028"
    else if c == '\U{2029}' then "\\u2029"
    else [c]
  }

  function JsonEscape(s: string): string
    decreases |s|
  {
    if s == [] then "" else JsonEscapeChar(s[0]) + JsonEscape(s[1..])
  }

  /** `{"error": message}` as `json.Marshal` writes it. */
  function ErrorJson(message: string): string {
    "{\"error\":\"" + JsonEscape(message) + "\"}"
  }

  lemma NoControlConcat(a: string, b: string)
    requires NoControl(a) && NoControl(b)
    ensures NoControl(a + b)
  {
    assert forall i :: 0 <= i < |a + b| ==> (a + b)[i] == if i < |a| then a[i] else b[i - |a|];
  }

  /** The escape of a single character holds no control character. */
  lemma JsonEscapeCharNoControl(c: char)
    ensures NoControl(JsonEscapeChar(c))
  {
    if c < ' ' && c != '\n' && c != '\r' && c != '\t' {
      var e := "\\u00" + [HexDigit(c as int / 16), HexDigit(c as int % 16)];
      assert JsonEscapeChar(c) == e;
      assert forall i :: 0 <= i < |e| ==> ' ' <= e[i];
    }
  }

  /** Escaping leaves no control character in the output, whatever the input holds. */
  lemma {:induction false} JsonEscapeNoControl(s: string)
    ensures NoControl(JsonEscape(s))
    decreases |s|
  {
    if s != [] {
      JsonEscapeNoControl(s[1..]);
      JsonEscapeCharNoControl(s[0]);
      NoControlConcat(JsonEscapeChar(s[0]), JsonEscape(s[1..]));
    }
  }

  /** An error reply body without a declared type is sniffed by the server as plain text, never as JSON. */
  lemma ErrorJsonSniffsAsText(message: string)
    ensures SniffObject(ErrorJson(message)) == TextContentType
  {
    JsonEscapeNoControl(message);
    var pre := "{\"error\":\"";
    assert NoControl(pre) && NoControl("\"}");
    NoControlConcat(pre, JsonEscape(message));
    NoControlConcat(pre + JsonEscape(message), "\"}");
    var s := ErrorJson(message);
    assert forall i :: 0 <= i < |s| ==> !IsBinaryByte(s[i]);
  }

  /**
   * The webhook handlers' error reply as they write it: the status line goes
   * out first, so the `Content-Type` set afterwards is never sent; when the
   * reply starts the body, net/http sniffs it and sends `text/plain` instead.
   */
  method WriteErrorReplyAsWritten(w: ResponseWriter, message: string)
    requires w.status.None?
    modifies w
    ensures w.status == Some(400)
    ensures w.sentHeader == old(w.header)
    ensures w.header == old(w.header)["Content-Type" := JsonContentType]
    ensures w.body == old(w.body) + if w.failure.None? then [Text(ErrorJson(message))] else []
    ensures old(w.body) == [] && "Content-Type" !in old(w.header) && w.failure.None? ==>
              w.ReceivedContentType() == Some(TextContentType)
  {
    w.WriteHeader(400);
    w.SetHeader("Content-Type", JsonContentType);
    var _ := w.Write(Text(ErrorJson(message)));
    ErrorJsonSniffsAsText(message);
  }

  /** On a fresh writer, the reply as written goes out with the sniffed plain-text type, not JSON. */
  method ErrorReplyArrivesAsText(message: string) returns (w: ResponseWriter)
    ensures w.failure.None?
    ensures w.status == Some(400)
    ensures "Content-Type" !in w.sentHeader
    ensures w.ReceivedContentType() == Some(TextContentType)
  {
    w := new ResponseWriter(None);
    WriteErrorReplyAsWritten(w, message);
  }

  /** The error reply with the header set before the status line: it is sent as JSON. */
  method WriteErrorReply(w: ResponseWriter, message: string)
    requires w.status.None?
    modifies w
    ensures w.status == Some(400)
    ensures w.sentHeader == old(w.header)["Content-Type" := JsonContentType]
    ensures w.header == w.sentHeader
    ensures w.body == old(w.body) + if w.failure.None? then [Text(ErrorJson(message))] else []
    ensures w.ReceivedContentType() == Some(JsonContentType)
  {
    w.SetHeader("Content-Type", JsonContentType);
    w.WriteHeader(400);
    var _ := w.Write(Text(ErrorJson(message)));
  }
}
