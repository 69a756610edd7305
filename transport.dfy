/**
 * The transport core of bot.go: building form parameters, decoding the
 * response envelope, turning `ok = false` into a structured error, writing a
 * multipart body part by part, and the two request paths `MakeRequest` (form
 * POST) and `UploadFiles` (multipart POST).
 *
 * The HTTP client, URL parsing and the JSON decoder are oracles held in a
 * `Network` value; every request path returns the list of requests it handed
 * to the HTTP client, so that "no call was made" can be stated.
 */
module Transport {
  import opened Wrappers
  import opened Config
  import opened Format

  newtype byte = x: int | 0 <= x < 256

  /** `Params`: field name to string value. */
  type Params = map<string, string>

  /** `url.Values`: field name to a list of values. */
  type Values = map<string, seq<string>>

  datatype ResponseParameters = ResponseParameters(migrateToChatID: int, retryAfter: int)

  const NoParameters: ResponseParameters := ResponseParameters(0, 0)

  /** The decoded `{ok, result, error_code, description, parameters}` envelope. */
  datatype APIResponse = APIResponse(
    ok: bool,
    result: seq<byte>,
    errorCode: int,
    description: string,
    parameters: Option<ResponseParameters>)

  /** The zero value `APIResponse{}`. */
  const EmptyResponse: APIResponse := APIResponse(false, [], 0, "", None)

  /** The structured API error `*Error`. */
  datatype Error = Error(code: int, message: string, responseParameters: ResponseParameters)

  /** A Go `error`: either the structured API error or any other error with its message. */
  datatype Failure = Plain(message: string) | Api(error: Error)

  /** What `UploadData()` yields for a file that needs uploading: its name and a reader. */
  datatype UploadData = UploadData(fileName: string, contents: Result<seq<byte>, string>, closeError: Option<string>)

  /**
   * `RequestFileData`: whether the file needs an upload, the string that
   * stands for it otherwise (a URL or a file id), and what opening it yields.
   */
  datatype RequestFileData = RequestFileData(needsUpload: bool, sendData: string, uploadData: Result<UploadData, string>)

  datatype RequestFile = RequestFile(name: string, data: RequestFileData)

  /** A part of a multipart body: a plain field or a file. */
  datatype Part = Field(name: string, value: string) | FilePart(name: string, fileName: string, contents: seq<byte>)

  /** One planned write of the multipart writer. */
  datatype Write = WriteField(name: string, value: string) | WriteFile(name: string, upload: Result<UploadData, string>)

  /** The parts that reached the pipe, and the error it was closed with, if any. */
  datatype PipeResult = PipeResult(parts: seq<Part>, err: Option<string>)

  const ErrClosedPipe: string := "io: read/write on closed pipe"

  datatype RequestBody = Form(values: Values) | Multipart(parts: seq<Part>, writeError: Option<string>)

  datatype HttpRequest = HttpRequest(httpMethod: string, url: string, body: RequestBody)

  /** What the JSON decoder makes of the first JSON value of a response body. */
  datatype JsonOutcome =
    | Valid(resp: APIResponse)
    | SyntaxError(message: string)
    | TypeError(partial: APIResponse, message: string)

  /**
   * A response body as the two decoders of `decodeAPIResponse` see it:
   * `stream` is what `json.NewDecoder(body).Decode` makes of its first JSON
   * value (a read error on the way shows as an error), `read` is what
   * `io.ReadAll` returns, and `whole` is what `json.Unmarshal` makes of all
   * the bytes read. Their error messages are independent inputs: the stream
   * decoder says `EOF` or `unexpected EOF` where `json.Unmarshal` says
   * `unexpected end of JSON input`.
   */
  datatype HttpBody = HttpBody(stream: JsonOutcome, read: Result<seq<byte>, string>, whole: JsonOutcome)

  /**
   * What `encoding/json` guarantees between the two decoders: a whole input
   * that decodes, or fails only on a field's type, is a single JSON value that
   * the stream decoder reads the same way; a syntax error in the first value
   * is a syntax error of the whole input.
   */
  predicate Coherent(body: HttpBody) {
    && (body.whole.Valid? || body.whole.TypeError? ==> body.stream == body.whole)
    && (body.stream.SyntaxError? ==> body.whole.SyntaxError?)
  }

  datatype Exchange = TransportFailure(message: string) | Response(body: HttpBody)

  /**
   * The environment: whether `http.NewRequest` rejects a URL, the index of
   * the multipart write at which the reading side has gone away (if any), and
   * what the HTTP client answers to a request.
   */
  datatype Network = Network(
    urlError: string -> Option<string>,
    brokenAt: Option<nat>,
    exchange: HttpRequest -> Exchange)

  /** The outcome of a request path: the response pointer, the error and the requests sent. */
  datatype Call = Call(resp: Option<APIResponse>, err: Option<Failure>, sent: seq<HttpRequest>)

  datatype Path = FormPath | UploadPath

  /** `fmt.Sprintf(apiEndpoint, token, method)`. */
  function EndpointURL(config: BotConfig, apiMethod: string): string {
    Sprintf(GetApiEndpoint(config), [GetToken(config), apiMethod])
  }

  /** An endpoint template with two `%s` verbs puts the token into the first and the method into the second. */
  lemma TemplateURL(config: BotConfig, p: string, m: string, q: string, apiMethod: string)
    requires NoPercent(p) && NoPercent(m) && NoPercent(q)
    requires GetApiEndpoint(config) == p + "%s" + m + "%s" + q
    ensures EndpointURL(config, apiMethod) == p + GetToken(config) + m + apiMethod + q
  {
    TwoHoleTemplate(p, m, q, GetToken(config), apiMethod);
  }

  /**
   * With the default endpoint (as `NewDefaultBotConfig` sets it), requests go
   * to `https://api.telegram.org/bot<token>/<method>`.
   */
  lemma DefaultEndpointURL(config: BotConfig, apiMethod: string)
    requires GetApiEndpoint(config) == APIEndpoint
    ensures EndpointURL(config, apiMethod) == "https://api.telegram.org/bot" + GetToken(config) + "/" + apiMethod
  {
    EndpointTemplate();
    TemplateURL(config, "https://api.telegram.org/bot", "/", "", apiMethod);
    var u := "https://api.telegram.org/bot" + GetToken(config) + "/" + apiMethod;
    assert u + "" == u;
  }

  lemma EndpointTemplate()
    ensures APIEndpoint == "https://api.telegram.org/bot" + "%s" + "/" + "%s" + ""
    ensures NoPercent("https://api.telegram.org/bot") && NoPercent("/") && NoPercent("")
  {
  }

  // ----- buildParams ---------------------------------------------------------

  /** The `url.Values` that `buildParams` makes of its input. */
  function ParamValues(input: Option<Params>): Values {
    match input
    case None => map[]
    case Some(p) => map k | k in p :: [p[k]]
  }

  /**
   * `buildParams`: a nil map gives empty values; otherwise the values have
   * exactly the input's keys, each with the single value the input holds.
   */
  method BuildParams(input: Option<Params>) returns (out: Values)
    ensures input.None? ==> out == map[]
    ensures input.Some? ==> out.Keys == input.value.Keys
    ensures input.Some? ==> forall k :: k in out ==> out[k] == [input.value[k]]
    ensures out == ParamValues(input)
  {
    out := map[];
    if input.None? {
      return;
    }
    var p := input.value;
    var remaining := p.Keys;
    while remaining != {}
      invariant remaining <= p.Keys
      invariant out.Keys == p.Keys - remaining
      invariant forall k :: k in out ==> out[k] == [p[k]]
      decreases remaining
    {
      var k :| k in remaining;
      out := out[k := [p[k]]];
      remaining := remaining - {k};
    }
  }

  // ----- decoding the envelope -----------------------------------------------

  datatype Decoded = Decoded(data: Option<seq<byte>>, resp: APIResponse, err: Option<string>)

  /** The envelope and error a decoder leaves: a syntax error leaves the envelope untouched. */
  function Outcome(o: JsonOutcome): (APIResponse, Option<string>) {
    match o
    case Valid(r) => (r, None)
    case SyntaxError(m) => (EmptyResponse, Some(m))
    case TypeError(partial, m) => (partial, Some(m))
  }

  /**
   * `decodeAPIResponse`: without debug the body is decoded as a stream and no
   * bytes are kept; with debug it is read whole, decoded as a whole, and its
   * bytes are returned on success.
   */
  function DecodeAPIResponse(debug: bool, body: HttpBody): (d: Decoded)
    ensures !debug ==> d.data.None?
    ensures debug ==> (d.data.Some? <==> d.err.None?)
    ensures d.data.Some? ==> body.read == Success(d.data.value)
    ensures !debug ==> (d.err.None? <==> body.stream.Valid?) && (d.err.None? ==> body.stream == Valid(d.resp))
    ensures debug ==> (d.err.None? <==> body.read.Success? && body.whole.Valid?)
    ensures debug && d.err.None? ==> body.whole == Valid(d.resp)
    ensures debug && body.read.Failure? ==> d.err == Some(body.read.error) && d.resp == EmptyResponse
    ensures !debug && body.stream.SyntaxError? ==> d.resp == EmptyResponse && d.err == Some(body.stream.message)
    ensures !debug && body.stream.TypeError? ==> d.resp == body.stream.partial && d.err == Some(body.stream.message)
    ensures debug && body.read.Success? && body.whole.SyntaxError? ==>
              d.resp == EmptyResponse && d.err == Some(body.whole.message)
    ensures debug && body.read.Success? && body.whole.TypeError? ==>
              d.resp == body.whole.partial && d.err == Some(body.whole.message)
  {
    if !debug then
      var (r, e) := Outcome(body.stream);
      Decoded(None, r, e)
    else match body.read
      case Failure(e) => Decoded(None, EmptyResponse, Some(e))
      case Success(bytes) =>
        var (r, e) := Outcome(body.whole);
        Decoded(if e.None? then Some(bytes) else None, r, e)
  }

  /**
   * Debug mode is the stricter decoder: on a readable body, whatever fails
   * without debug fails with it, whatever succeeds with debug succeeds without
   * it on the same envelope, and a field of the wrong type gives the same
   * partial envelope and error either way.
   */
  lemma DebugIsStricter(body: HttpBody)
    requires Coherent(body) && body.read.Success?
    ensures DecodeAPIResponse(false, body).err.Some? ==> DecodeAPIResponse(true, body).err.Some?
    ensures DecodeAPIResponse(true, body).err.None? ==>
              DecodeAPIResponse(false, body).err.None? && DecodeAPIResponse(false, body).resp == DecodeAPIResponse(true, body).resp
    ensures body.whole.TypeError? ==>
              DecodeAPIResponse(false, body).resp == DecodeAPIResponse(true, body).resp == body.whole.partial
              && DecodeAPIResponse(false, body).err == DecodeAPIResponse(true, body).err
  {
  }

  /**
   * Data after a valid envelope: the stream decoder stops after the first
   * value and succeeds, while `json.Unmarshal` rejects the whole input.
   */
  lemma DebugRejectsTrailingData(body: HttpBody)
    requires body.read.Success? && body.stream.Valid? && body.whole.SyntaxError?
    ensures DecodeAPIResponse(false, body).err.None?
    ensures DecodeAPIResponse(false, body).resp == body.stream.resp
    ensures DecodeAPIResponse(true, body).err == Some(body.whole.message)
    ensures DecodeAPIResponse(true, body).data.None?
  {
  }

  /** The `*Error` built from an `ok = false` envelope; the upload path leaves `Code` at zero. */
  function ApiError(resp: APIResponse, path: Path): Error {
    Error(
      if path == FormPath then resp.errorCode else 0,
      resp.description,
      resp.parameters.GetOr(NoParameters))
  }

  /**
   * The tail shared by both request paths: a decode error is returned with
   * the partly decoded envelope; `ok = false` yields the structured error;
   * `ok = true` yields no error.
   */
  function Interpret(debug: bool, body: HttpBody, path: Path): (r: (APIResponse, Option<Failure>))
    ensures r.0 == DecodeAPIResponse(debug, body).resp
    ensures DecodeAPIResponse(debug, body).err.Some? ==> r.1 == Some(Plain(DecodeAPIResponse(debug, body).err.value))
    ensures DecodeAPIResponse(debug, body).err.None? ==> (r.1.None? <==> r.0.ok)
    ensures r.1.None? ==> r.0.ok
    ensures DecodeAPIResponse(debug, body).err.None? && !r.0.ok ==> r.1.Some? && r.1.value.Api?
    ensures r.1.Some? && r.1.value.Api? ==>
              !r.0.ok && r.1.value.error.message == r.0.description
              && r.1.value.error.code == (if path == FormPath then r.0.errorCode else 0)
              && r.1.value.error.responseParameters == (if r.0.parameters.Some? then r.0.parameters.value else NoParameters)
  {
    var d := DecodeAPIResponse(debug, body);
    if d.err.Some? then (d.resp, Some(Plain(d.err.value)))
    else if !d.resp.ok then (d.resp, Some(Api(ApiError(d.resp, path))))
    else (d.resp, None)
  }

  /** The two paths read the same envelope alike and build the same error, except for its code. */
  lemma PathsDifferOnlyInCode(debug: bool, body: HttpBody)
    ensures Interpret(debug, body, FormPath).0 == Interpret(debug, body, UploadPath).0
    ensures Interpret(debug, body, FormPath).1.None? <==> Interpret(debug, body, UploadPath).1.None?
    ensures Interpret(debug, body, UploadPath).1.Some? && Interpret(debug, body, UploadPath).1.value.Api? ==>
              var f := Interpret(debug, body, FormPath).1.value.error;
              Interpret(debug, body, UploadPath).1.value.error == f.(code := 0)
  {
  }

  /**
   * `client.Do`: an error the multipart writer closed the pipe with surfaces
   * as the request's error; a pipe the client itself closed leaves the
   * outcome to the client.
   */
  function Do(net: Network, req: HttpRequest): Exchange {
    if req.body.Multipart? && req.body.writeError.Some? && req.body.writeError.value != ErrClosedPipe
    then TransportFailure(req.body.writeError.value)
    else net.exchange(req)
  }

  // ----- MakeRequest ---------------------------------------------------------

  /**
   * What `MakeRequest` does: at most one POST, to the endpoint URL, with the
   * form values of the parameters; a rejected URL yields the empty response
   * and no call; a success without error always has `ok` set.
   */
  function FormCall(config: BotConfig, endpoint: string, params: Option<Params>, net: Network): (c: Call)
    ensures |c.sent| <= 1
    ensures c.sent == [] <==> net.urlError(EndpointURL(config, endpoint)).Some?
    ensures forall r :: r in c.sent ==> r == HttpRequest("POST", EndpointURL(config, endpoint), Form(ParamValues(params)))
    ensures c.sent == [] ==> c.resp == Some(EmptyResponse) && c.err == Some(Plain(net.urlError(EndpointURL(config, endpoint)).value))
    ensures c.sent != [] && Do(net, c.sent[0]).TransportFailure? ==> c.resp.None? && c.err == Some(Plain(Do(net, c.sent[0]).message))
    ensures c.sent != [] && Do(net, c.sent[0]).Response? ==>
              c.resp == Some(Interpret(GetDebug(config), Do(net, c.sent[0]).body, FormPath).0)
              && c.err == Interpret(GetDebug(config), Do(net, c.sent[0]).body, FormPath).1
    ensures c.err.None? ==> c.resp.Some? && c.resp.value.ok
  {
    var url := EndpointURL(config, endpoint);
    match net.urlError(url)
    case Some(e) => Call(Some(EmptyResponse), Some(Plain(e)), [])
    case None =>
      var req := HttpRequest("POST", url, Form(ParamValues(params)));
      match Do(net, req)
      case TransportFailure(e) => Call(None, Some(Plain(e)), [req])
      case Response(body) =>
        var r := Interpret(GetDebug(config), body, FormPath);
        Call(Some(r.0), r.1, [req])
  }

  /** `MakeRequest`. */
  method MakeRequest(config: BotConfig, endpoint: string, params: Option<Params>, net: Network) returns (call: Call)
    ensures call == FormCall(config, endpoint, params, net)
  {
    var url := EndpointURL(config, endpoint);
    var values := BuildParams(params);
    var urlError := net.urlError(url);
    if urlError.Some? {
      return Call(Some(EmptyResponse), Some(Plain(urlError.value)), []);
    }
    var req := HttpRequest("POST", url, Form(values));
    var exchange := Do(net, req);
    match exchange {
      case TransportFailure(e) =>
        call := Call(None, Some(Plain(e)), [req]);
      case Response(body) =>
        var r := Interpret(GetDebug(config), body, FormPath);
        call := Call(Some(r.0), r.1, [req]);
    }
  }

  /** The `ok = false` envelope with code 400 yields that code and description. */
  lemma BadRequestEnvelope(config: BotConfig, endpoint: string, params: Option<Params>, net: Network, bytes: seq<byte>)
    requires net.urlError(EndpointURL(config, endpoint)).None?
    requires forall r :: net.exchange(r) == Response(HttpBody(Valid(APIResponse(false, [], 400, "Bad Request", None)), Success(bytes), Valid(APIResponse(false, [], 400, "Bad Request", None))))
    ensures FormCall(config, endpoint, params, net).err == Some(Api(Error(400, "Bad Request", NoParameters)))
    ensures UploadCall(config, endpoint, map[], [], [], net).err == Some(Api(Error(0, "Bad Request", NoParameters)))
  {
    var req := HttpRequest("POST", EndpointURL(config, endpoint), Form(ParamValues(params)));
    assert Do(net, req) == net.exchange(req);
    var body := Run(Plan(map[], [], []), net.brokenAt);
    var up := HttpRequest("POST", EndpointURL(config, endpoint), Multipart(body.parts, body.err));
    assert Plan(map[], [], []) == [];
    assert Do(net, up) == net.exchange(up);
  }

  // ----- the multipart body ----------------------------------------------------

  /** `order` lists every key of the set exactly once: one possible map iteration order. */
  predicate IsEnumeration(order: seq<string>, keys: set<string>) {
    && (forall i :: 0 <= i < |order| ==> order[i] in keys)
    && (forall k :: k in keys ==> k in order)
    && (forall i, j :: 0 <= i < j < |order| ==> order[i] != order[j])
  }

  /** Every entry of `order` is a key of the map. */
  predicate KeysIn(order: seq<string>, params: Params) {
    forall i :: 0 <= i < |order| ==> order[i] in params
  }

  /** Go visits a map's keys in an unspecified order; this picks one. */
  method EnumerateKeys(params: Params) returns (order: seq<string>)
    ensures IsEnumeration(order, params.Keys)
  {
    order := [];
    var remaining := params.Keys;
    while remaining != {}
      invariant remaining <= params.Keys
      invariant forall i :: 0 <= i < |order| ==> order[i] in params.Keys && order[i] !in remaining
      invariant forall k :: k in params.Keys && k !in remaining ==> k in order
      invariant forall i, j :: 0 <= i < j < |order| ==> order[i] != order[j]
      decreases remaining
    {
      var k :| k in remaining;
      order := order + [k];
      remaining := remaining - {k};
    }
  }

  /** A file becomes a file part if it needs uploading, otherwise a plain field. */
  function FileWrite(f: RequestFile): Write {
    if f.data.needsUpload then WriteFile(f.name, f.data.uploadData) else WriteField(f.name, f.data.sendData)
  }

  /** The writer's plan: every parameter in iteration order, then every file in list order. */
  function Plan(params: Params, order: seq<string>, files: seq<RequestFile>): (plan: seq<Write>)
    requires KeysIn(order, params)
    ensures |plan| == |order| + |files|
    ensures forall i :: 0 <= i < |order| ==> plan[i] == WriteField(order[i], params[order[i]])
    ensures forall j :: 0 <= j < |files| ==> plan[|order| + j] == FileWrite(files[j])
  {
    seq(|order|, i requires 0 <= i < |order| => WriteField(order[i], params[order[i]]))
    + seq(|files|, j requires 0 <= j < |files| => FileWrite(files[j]))
  }

  /**
   * One write, the `index`-th on the pipe: it fails if the pipe is closed by
   * then, if opening the file fails, if copying it fails, or if closing it fails.
   */
  function Step(w: Write, index: nat, brokenAt: Option<nat>): Result<Part, string> {
    match w
    case WriteField(n, v) =>
      if brokenAt == Some(index) then Failure(ErrClosedPipe) else Success(Field(n, v))
    case WriteFile(n, upload) =>
      match upload
      case Failure(e) => Failure(e)
      case Success(u) =>
        if brokenAt == Some(index) then Failure(ErrClosedPipe)
        else match u.contents
          case Failure(e) => Failure(e)
          case Success(bytes) =>
            if u.closeError.Some? then Failure(u.closeError.value)
            else Success(FilePart(n, u.fileName, bytes))
  }

  /** Carrying out a plan: writes happen in order and the first failure closes the pipe with its error. */
  function Run(plan: seq<Write>, brokenAt: Option<nat>): PipeResult
    decreases |plan|
  {
    if plan == [] then PipeResult([], None)
    else
      var prev := Run(plan[..|plan| - 1], brokenAt);
      if prev.err.Some? then prev
      else match Step(plan[|plan| - 1], |plan| - 1, brokenAt)
        case Failure(e) => PipeResult(prev.parts, Some(e))
        case Success(p) => PipeResult(prev.parts + [p], None)
  }

  /**
   * The parts written are exactly the results of the successful steps, in
   * plan order; without an error every step succeeded; an error is the
   * first failing step's.
   */
  lemma {:induction false} RunCharacterization(plan: seq<Write>, brokenAt: Option<nat>)
    ensures var r := Run(plan, brokenAt);
      && |r.parts| <= |plan|
      && (forall i :: 0 <= i < |r.parts| ==> Step(plan[i], i, brokenAt) == Success(r.parts[i]))
      && (r.err.None? ==> |r.parts| == |plan|)
      && (r.err.Some? ==> |r.parts| < |plan| && Step(plan[|r.parts|], |r.parts|, brokenAt) == Failure(r.err.value))
    decreases |plan|
  {
    if plan != [] {
      var front := plan[..|plan| - 1];
      RunCharacterization(front, brokenAt);
      assert forall i :: 0 <= i < |front| ==> front[i] == plan[i];
    }
  }

  /** Once a prefix of the plan has failed, the rest of the plan is never carried out. */
  lemma {:induction false} RunStopsAtError(plan: seq<Write>, k: nat, brokenAt: Option<nat>)
    requires k <= |plan|
    requires Run(plan[..k], brokenAt).err.Some?
    ensures Run(plan, brokenAt) == Run(plan[..k], brokenAt)
    decreases |plan| - k
  {
    if k < |plan| {
      var shorter := plan[..|plan| - 1];
      assert shorter[..k] == plan[..k];
      RunStopsAtError(shorter, k, brokenAt);
    } else {
      assert plan[..k] == plan;
    }
  }

  /**
   * The layout of an upload body: the parameters as plain fields in iteration
   * order, then each file in list order, as a file part if it needs uploading
   * and as a plain field with its string form otherwise; with no error, all
   * of them are there.
   */
  lemma UploadBodyLayout(params: Params, order: seq<string>, files: seq<RequestFile>, brokenAt: Option<nat>)
    requires KeysIn(order, params)
    ensures var r := Run(Plan(params, order, files), brokenAt);
      && (forall i :: 0 <= i < |order| && i < |r.parts| ==> r.parts[i] == Field(order[i], params[order[i]]))
      && (forall j :: 0 <= j < |files| && |order| + j < |r.parts| && !files[j].data.needsUpload ==>
            r.parts[|order| + j] == Field(files[j].name, files[j].data.sendData))
      && (forall j :: 0 <= j < |files| && |order| + j < |r.parts| && files[j].data.needsUpload ==>
            r.parts[|order| + j].FilePart? && r.parts[|order| + j].name == files[j].name)
      && (r.err.None? ==> |r.parts| == |order| + |files|)
  {
    var plan := Plan(params, order, files);
    var r := Run(plan, brokenAt);
    RunCharacterization(plan, brokenAt);
    forall j | 0 <= j < |files| && |order| + j < |r.parts| && files[j].data.needsUpload
      ensures r.parts[|order| + j].FilePart? && r.parts[|order| + j].name == files[j].name
    {
      assert Step(plan[|order| + j], |order| + j, brokenAt) == Success(r.parts[|order| + j]);
    }
  }

  /** Predicate: opening, copying and closing every file that needs uploading succeed. */
  predicate UploadsSucceed(files: seq<RequestFile>) {
    forall j :: 0 <= j < |files| && files[j].data.needsUpload ==>
      && files[j].data.uploadData.Success?
      && files[j].data.uploadData.value.contents.Success?
      && files[j].data.uploadData.value.closeError.None?
  }

  /** With an open pipe and readable files, the whole body is written without error. */
  lemma UploadBodyComplete(params: Params, order: seq<string>, files: seq<RequestFile>)
    requires IsEnumeration(order, params.Keys)
    requires UploadsSucceed(files)
    ensures Run(Plan(params, order, files), None).err.None?
    ensures |Run(Plan(params, order, files), None).parts| == |params| + |files|
  {
    var plan := Plan(params, order, files);
    RunCharacterization(plan, None);
    forall i | 0 <= i < |plan|
      ensures Step(plan[i], i, None).Success?
    {
      if i >= |order| {
        assert plan[i] == FileWrite(files[i - |order|]);
      }
    }
    EnumerationLength(order, params.Keys);
  }

  lemma EnumerationLength(order: seq<string>, keys: set<string>)
    requires IsEnumeration(order, keys)
    ensures |order| == |keys|
  {
    var elems := set i | 0 <= i < |order| :: order[i];
    assert elems == keys;
    DistinctCardinality(order);
  }

  lemma {:induction false} DistinctCardinality(s: seq<string>)
    requires forall i, j :: 0 <= i < j < |s| ==> s[i] != s[j]
    ensures |set i | 0 <= i < |s| :: s[i]| == |s|
    decreases |s|
  {
    if s != [] {
      var last := |s| - 1;
      DistinctCardinality(s[..last]);
      var front := set i | 0 <= i < last :: s[..last][i];
      assert (set i | 0 <= i < |s| :: s[i]) == front + {s[last]};
      assert s[last] !in front;
    }
  }

  /** One more step of a plan whose prefix has been carried out without error. */
  lemma RunSnoc(plan: seq<Write>, i: nat, brokenAt: Option<nat>)
    requires i < |plan|
    requires Run(plan[..i], brokenAt).err.None?
    ensures Step(plan[i], i, brokenAt).Failure? ==>
              Run(plan[..i + 1], brokenAt) == PipeResult(Run(plan[..i], brokenAt).parts, Some(Step(plan[i], i, brokenAt).error))
    ensures Step(plan[i], i, brokenAt).Success? ==>
              Run(plan[..i + 1], brokenAt) == PipeResult(Run(plan[..i], brokenAt).parts + [Step(plan[i], i, brokenAt).value], None)
  {
    assert plan[..i + 1][..i] == plan[..i];
  }

  /** Writing one file: open it, create its part, copy it, close it; the first error wins. */
  method WriteFilePart(file: RequestFile, index: nat, brokenAt: Option<nat>) returns (step: Result<Part, string>)
    ensures step == Step(FileWrite(file), index, brokenAt)
  {
    if !file.data.needsUpload {
      if brokenAt == Some(index) {
        return Failure(ErrClosedPipe);
      }
      return Success(Field(file.name, file.data.sendData));
    }
    if file.data.uploadData.Failure? {
      return Failure(file.data.uploadData.error);
    }
    var u := file.data.uploadData.value;
    if brokenAt == Some(index) {
      return Failure(ErrClosedPipe);
    }
    if u.contents.Failure? {
      return Failure(u.contents.error);
    }
    if u.closeError.Some? {
      return Failure(u.closeError.value);
    }
    step := Success(FilePart(file.name, u.fileName, u.contents.value));
  }

  /** The goroutine of `UploadFiles`: parameters first, then the files, stopping at the first error. */
  method WriteMultipartBody(params: Params, order: seq<string>, files: seq<RequestFile>, brokenAt: Option<nat>)
    returns (body: PipeResult)
    requires KeysIn(order, params)
    ensures body == Run(Plan(params, order, files), brokenAt)
  {
    body := WritePlan(params, order, files, brokenAt, Plan(params, order, files));
  }

  /** The two loops of the writer, run against a plan laid out as `Plan` lays it out. */
  method WritePlan(params: Params, order: seq<string>, files: seq<RequestFile>, brokenAt: Option<nat>, ghost plan: seq<Write>)
    returns (body: PipeResult)
    requires KeysIn(order, params) && |plan| == |order| + |files|
    requires forall i :: 0 <= i < |order| ==> plan[i] == WriteField(order[i], params[order[i]])
    requires forall j :: 0 <= j < |files| ==> plan[|order| + j] == FileWrite(files[j])
    ensures body == Run(plan, brokenAt)
  {
    body := WriteParamFields(params, order, brokenAt, plan);
    if body.err.None? {
      body := WriteFileParts(files, |order|, brokenAt, plan, body);
    }
  }

  /** The first loop of the writer: one field per parameter, in iteration order, at the head of `plan`. */
  method WriteParamFields(params: Params, order: seq<string>, brokenAt: Option<nat>, ghost plan: seq<Write>)
    returns (body: PipeResult)
    requires KeysIn(order, params) && |order| <= |plan|
    requires forall i :: 0 <= i < |order| ==> plan[i] == WriteField(order[i], params[order[i]])
    ensures body.err.None? ==> body == Run(plan[..|order|], brokenAt)
    ensures body.err.Some? ==> body == Run(plan, brokenAt)
  {
    body := PipeResult([], None);
    for i := 0 to |order|
      invariant body == Run(plan[..i], brokenAt) && body.err.None?
    {
      RunSnoc(plan, i, brokenAt);
      var key := order[i];
      if brokenAt == Some(i) {
        body := PipeResult(body.parts, Some(ErrClosedPipe));
        RunStopsAtError(plan, i + 1, brokenAt);
        return;
      }
      body := PipeResult(body.parts + [Field(key, params[key])], None);
    }
  }

  /** One step of the second loop, in terms of the whole plan. */
  lemma FileStep(plan: seq<Write>, files: seq<RequestFile>, index: nat, j: nat, brokenAt: Option<nat>,
                 prev: PipeResult, step: Result<Part, string>)
    requires index < |plan| && j < |files| && plan[index] == FileWrite(files[j])
    requires prev == Run(plan[..index], brokenAt) && prev.err.None?
    requires step == Step(FileWrite(files[j]), index, brokenAt)
    ensures step.Failure? ==> Run(plan, brokenAt) == PipeResult(prev.parts, Some(step.error))
    ensures step.Success? ==> Run(plan[..index + 1], brokenAt) == PipeResult(prev.parts + [step.value], None)
  {
    RunSnoc(plan, index, brokenAt);
    if step.Failure? {
      RunStopsAtError(plan, index + 1, brokenAt);
    }
  }

  /** The second loop of the writer: one part per file, in list order, after the `offset` fields. */
  method WriteFileParts(files: seq<RequestFile>, offset: nat, brokenAt: Option<nat>, ghost plan: seq<Write>, start: PipeResult)
    returns (body: PipeResult)
    requires |plan| == offset + |files|
    requires forall j :: 0 <= j < |files| ==> plan[offset + j] == FileWrite(files[j])
    requires start.err.None? && start == Run(plan[..offset], brokenAt)
    ensures body == Run(plan, brokenAt)
  {
    body := start;
    for j := 0 to |files|
      invariant body == Run(plan[..offset + j], brokenAt) && body.err.None?
    {
      var index := offset + j;
      var step := WriteFilePart(files[j], index, brokenAt);
      FileStep(plan, files, index, j, brokenAt, body, step);
      if step.Failure? {
        return PipeResult(body.parts, Some(step.error));
      }
      body := PipeResult(body.parts + [step.value], None);
    }
    assert plan[..offset + |files|] == plan;
  }

  // ----- UploadFiles -----------------------------------------------------------

  /**
   * What `UploadFiles` does: at most one POST, to the endpoint URL, with a
   * multipart body (never a form); a rejected URL yields no response and no
   * call; a success without error always has `ok` set.
   */
  function UploadCall(config: BotConfig, endpoint: string, params: Params, files: seq<RequestFile>,
                      order: seq<string>, net: Network): (c: Call)
    requires KeysIn(order, params)
    ensures |c.sent| <= 1
    ensures c.sent == [] <==> net.urlError(EndpointURL(config, endpoint)).Some?
    ensures c.sent == [] ==> c.resp.None? && c.err == Some(Plain(net.urlError(EndpointURL(config, endpoint)).value))
    ensures forall r :: r in c.sent ==>
              var body := Run(Plan(params, order, files), net.brokenAt);
              r == HttpRequest("POST", EndpointURL(config, endpoint), Multipart(body.parts, body.err))
    ensures c.sent != [] && Run(Plan(params, order, files), net.brokenAt).err.Some?
            && Run(Plan(params, order, files), net.brokenAt).err != Some(ErrClosedPipe) ==>
              c.resp.None? && c.err == Some(Plain(Run(Plan(params, order, files), net.brokenAt).err.value))
    ensures c.sent != [] && Do(net, c.sent[0]).TransportFailure? ==>
              c.resp.None? && c.err == Some(Plain(Do(net, c.sent[0]).message))
    ensures c.sent != [] && Do(net, c.sent[0]).Response? ==>
              c.resp == Some(Interpret(GetDebug(config), Do(net, c.sent[0]).body, UploadPath).0)
              && c.err == Interpret(GetDebug(config), Do(net, c.sent[0]).body, UploadPath).1
    ensures c.err.None? ==> c.resp.Some? && c.resp.value.ok
  {
    var body := Run(Plan(params, order, files), net.brokenAt);
    var url := EndpointURL(config, endpoint);
    match net.urlError(url)
    case Some(e) => Call(None, Some(Plain(e)), [])
    case None =>
      var req := HttpRequest("POST", url, Multipart(body.parts, body.err));
      match Do(net, req)
      case TransportFailure(e) => Call(None, Some(Plain(e)), [req])
      case Response(b) =>
        var r := Interpret(GetDebug(config), b, UploadPath);
        Call(Some(r.0), r.1, [req])
  }

  /** `UploadFiles`; `order` is the order in which the parameter map was visited. */
  method UploadFiles(config: BotConfig, endpoint: string, params: Params, files: seq<RequestFile>, net: Network)
    returns (call: Call, order: seq<string>)
    ensures IsEnumeration(order, params.Keys)
    ensures call == UploadCall(config, endpoint, params, files, order, net)
  {
    order := EnumerateKeys(params);
    var body := WriteMultipartBody(params, order, files, net.brokenAt);
    var url := EndpointURL(config, endpoint);
    var urlError := net.urlError(url);
    if urlError.Some? {
      return Call(None, Some(Plain(urlError.value)), []), order;
    }
    var req := HttpRequest("POST", url, Multipart(body.parts, body.err));
    var exchange := Do(net, req);
    match exchange {
      case TransportFailure(e) =>
        call := Call(None, Some(Plain(e)), [req]);
      case Response(b) =>
        var r := Interpret(GetDebug(config), b, UploadPath);
        call := Call(Some(r.0), r.1, [req]);
    }
  }

  // ----- the typed wrappers ------------------------------------------------------

  /**
   * The common shape of the typed wrappers (`GetMe`, `Send`, `GetUpdates`, ...):
   * an error gives the zero value with that error; otherwise the `result`
   * payload is unmarshalled.
   */
  function Unwrap<T>(call: Call, zero: T, unmarshal: seq<byte> -> (T, Option<string>)): (r: (T, Option<Failure>))
    requires call.err.None? ==> call.resp.Some?
    ensures call.err.Some? ==> r.0 == zero && r.1 == call.err
    ensures call.err.None? ==> r.0 == unmarshal(call.resp.value.result).0
  {
    if call.err.Some? then (zero, call.err)
    else
      var u := unmarshal(call.resp.value.result);
      (u.0, if u.1.Some? then Some(Plain(u.1.value)) else None)
  }
}
