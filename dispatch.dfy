/**
 * Routing a request (bot.go): a request whose files include one that needs
 * uploading goes out as multipart; otherwise its files are folded into the
 * parameters as plain strings and it goes out as a form. The same request can
 * instead be written into a webhook reply, which cannot carry uploads.
 */
module Dispatch {
  import opened Wrappers
  import opened Config
  import opened Transport
  import opened Webserver

  const FormContentType: string := "application/x-www-form-urlencoded"
  const UploadViaResponseMessage: string := "unable to use http response to upload files"

  /**
   * A `Chattable`: its API method, what its `params()` returns, and for a
   * `Fileable` the files it carries (`None` for other kinds of request).
   */
  datatype Chattable = Chattable(apiMethod: string, params: Result<Params, string>, files: Option<seq<RequestFile>>)

  predicate NeedsAnyUpload(files: seq<RequestFile>) {
    exists i :: 0 <= i < |files| && files[i].data.needsUpload
  }

  /** `hasFilesNeedingUpload`. */
  method HasFilesNeedingUpload(files: seq<RequestFile>) returns (b: bool)
    ensures b <==> NeedsAnyUpload(files)
  {
    for i := 0 to |files|
      invariant forall j :: 0 <= j < i ==> !files[j].data.needsUpload
    {
      if files[i].data.needsUpload {
        return true;
      }
    }
    return false;
  }

  /** The parameters after `params[file.Name] = file.Data.SendData()` for each file in order. */
  function FoldFiles(params: Params, files: seq<RequestFile>): Params
    decreases |files|
  {
    if files == [] then params
    else
      var last := files[|files| - 1];
      FoldFiles(params, files[..|files| - 1])[last.name := last.data.sendData]
  }

  /** Some file carries the name `k`. */
  predicate Named(files: seq<RequestFile>, k: string) {
    exists i :: 0 <= i < |files| && files[i].name == k
  }

  /** No later file has the same name as file `i`. */
  predicate LastWithName(files: seq<RequestFile>, i: nat)
    requires i < |files|
  {
    forall j :: i < j < |files| ==> files[j].name != files[i].name
  }

  /** Folding keeps a parameter that no file is named after. */
  lemma {:induction false} FoldKeeps(params: Params, files: seq<RequestFile>, k: string)
    requires k in params && !Named(files, k)
    ensures k in FoldFiles(params, files) && FoldFiles(params, files)[k] == params[k]
    decreases |files|
  {
    if files != [] {
      var front := files[..|files| - 1];
      assert !Named(front, k) by {
        forall i | 0 <= i < |front| ensures front[i].name != k {
          assert front[i] == files[i];
        }
      }
      FoldKeeps(params, front, k);
    }
  }

  /** The last file with a given name decides that field's value. */
  lemma {:induction false} FoldLastWins(params: Params, files: seq<RequestFile>, i: nat)
    requires i < |files| && LastWithName(files, i)
    ensures files[i].name in FoldFiles(params, files)
    ensures FoldFiles(params, files)[files[i].name] == files[i].data.sendData
    decreases |files|
  {
    var n := |files| - 1;
    if i < n {
      var front := files[..n];
      assert front[i] == files[i];
      assert LastWithName(front, i) by {
        forall j | i < j < |front| ensures front[j].name != front[i].name {
          assert front[j] == files[j];
        }
      }
      FoldLastWins(params, front, i);
    }
  }

  /** Every file's name becomes a field. */
  lemma {:induction false} FoldHasNames(params: Params, files: seq<RequestFile>, k: string)
    requires Named(files, k)
    ensures k in FoldFiles(params, files)
    decreases |files|
  {
    var n := |files| - 1;
    if files[n].name != k {
      var front := files[..n];
      var i :| 0 <= i < |files| && files[i].name == k;
      assert front[i] == files[i];
      FoldHasNames(params, front, k);
    }
  }

  /** Folding adds no field other than the files' names. */
  lemma {:induction false} FoldAddsNothing(params: Params, files: seq<RequestFile>, k: string)
    requires k in FoldFiles(params, files)
    ensures k in params || Named(files, k)
    decreases |files|
  {
    if files != [] {
      var n := |files| - 1;
      if files[n].name != k {
        var front := files[..n];
        FoldAddsNothing(params, front, k);
        if Named(front, k) {
          var i :| 0 <= i < |front| && front[i].name == k;
          assert files[i].name == k;
        }
      }
    }
  }

  /**
   * What `Request` does: a `params()` error is returned without a call; a
   * request goes out as multipart exactly when one of its files needs
   * uploading, and then `UploadFiles` gets the full file list unchanged;
   * otherwise `MakeRequest` gets the parameters with every file folded in.
   * Every request is a POST to the method's endpoint.
   */
  function RequestCall(config: BotConfig, c: Chattable, order: seq<string>, net: Network): (call: Call)
    requires c.params.Success? && c.files.Some? && NeedsAnyUpload(c.files.value) ==> KeysIn(order, c.params.value)
    ensures c.params.Failure? ==> call == Call(None, Some(Plain(c.params.error)), [])
    ensures |call.sent| <= 1
    ensures forall r :: r in call.sent ==> r.httpMethod == "POST" && r.url == EndpointURL(config, c.apiMethod)
    ensures forall r :: r in call.sent ==> (r.body.Multipart? <==> c.files.Some? && NeedsAnyUpload(c.files.value))
    ensures c.params.Success? && c.files.None? ==>
              forall r :: r in call.sent ==> r.body == Form(ParamValues(Some(c.params.value)))
    ensures c.params.Success? && c.files.None? ==> call == FormCall(config, c.apiMethod, Some(c.params.value), net)
    ensures c.params.Success? && c.files.Some? && NeedsAnyUpload(c.files.value) ==>
              call == UploadCall(config, c.apiMethod, c.params.value, c.files.value, order, net)
    ensures c.params.Success? && c.files.Some? && !NeedsAnyUpload(c.files.value) ==>
              && call == FormCall(config, c.apiMethod, Some(FoldFiles(c.params.value, c.files.value)), net)
              && forall r :: r in call.sent ==> r.body == Form(ParamValues(Some(FoldFiles(c.params.value, c.files.value))))
    ensures call.err.None? ==> call.resp.Some? && call.resp.value.ok
  {
    match c.params
    case Failure(e) => Call(None, Some(Plain(e)), [])
    case Success(p) =>
      if c.files.Some? && NeedsAnyUpload(c.files.value) then UploadCall(config, c.apiMethod, p, c.files.value, order, net)
      else FormCall(config, c.apiMethod, Some(if c.files.Some? then FoldFiles(p, c.files.value) else p), net)
  }

  /** `Request`; `order` is the parameter order the multipart writer used, if it ran. */
  method Request(config: BotConfig, c: Chattable, net: Network) returns (call: Call, order: seq<string>)
    ensures c.params.Success? && c.files.Some? && NeedsAnyUpload(c.files.value) ==> IsEnumeration(order, c.params.value.Keys)
    ensures call == RequestCall(config, c, order, net)
  {
    order := [];
    if c.params.Failure? {
      return Call(None, Some(Plain(c.params.error)), []), order;
    }
    var params := c.params.value;
    if c.files.Some? {
      var files := c.files.value;
      var needsUpload := HasFilesNeedingUpload(files);
      if needsUpload {
        call, order := UploadFiles(config, c.apiMethod, params, files, net);
        return;
      }
      for i := 0 to |files|
        invariant params == FoldFiles(c.params.value, files[..i])
      {
        assert files[..i + 1][..i] == files[..i];
        params := params[files[i].name := files[i].data.sendData];
      }
      assert files[..|files|] == files;
    }
    call := MakeRequest(config, c.apiMethod, Some(params), net);
  }

  /**
   * A request without uploads sends each of its files as a form field holding
   * the file's string form (the last one wins when names repeat).
   */
  lemma FilesTravelAsFields(config: BotConfig, c: Chattable, order: seq<string>, net: Network, i: nat)
    requires c.params.Success? && c.files.Some? && !NeedsAnyUpload(c.files.value)
    requires i < |c.files.value| && LastWithName(c.files.value, i)
    ensures forall r :: r in RequestCall(config, c, order, net).sent ==>
              && r.body.Form?
              && c.files.value[i].name in r.body.values
              && r.body.values[c.files.value[i].name] == [c.files.value[i].data.sendData]
  {
    FoldLastWins(c.params.value, c.files.value, i);
  }

  /** The form values of a webhook reply: the parameters, plus `method` set to the API method. */
  function ResponseValues(apiMethod: string, params: Params): (v: Values)
    ensures v.Keys == params.Keys + {"method"}
    ensures v["method"] == [apiMethod]
    ensures forall k :: k in params && k != "method" ==> v[k] == [params[k]]
  {
    ParamValues(Some(params))["method" := [apiMethod]]
  }

  /** `WriteToHTTPResponse`: the request as the body of a webhook reply. */
  method WriteToHTTPResponse(w: ResponseWriter, c: Chattable) returns (err: Option<Failure>)
    modifies w
    ensures c.params.Failure? ==> err == Some(Plain(c.params.error)) && unchanged(w)
    ensures c.params.Success? && c.files.Some? && NeedsAnyUpload(c.files.value) ==>
              err == Some(Plain(UploadViaResponseMessage)) && unchanged(w)
    ensures c.params.Success? && !(c.files.Some? && NeedsAnyUpload(c.files.value)) ==>
              && w.header == old(w.header)["Content-Type" := FormContentType]
              && w.body == old(w.body) + (if w.failure.None? then [FormEncoded(ResponseValues(c.apiMethod, c.params.value))] else [])
              && err == (if w.failure.Some? then Some(Plain(w.failure.value)) else None)
              && (old(w.status).None? ==> w.status == Some(200) && w.ReceivedContentType() == Some(FormContentType))
  {
    if c.params.Failure? {
      return Some(Plain(c.params.error));
    }
    if c.files.Some? {
      var needsUpload := HasFilesNeedingUpload(c.files.value);
      if needsUpload {
        return Some(Plain(UploadViaResponseMessage));
      }
    }
    var values := BuildParams(Some(c.params.value));
    values := values["method" := [c.apiMethod]];
    w.SetHeader("Content-Type", FormContentType);
    var writeError := w.Write(FormEncoded(values));
    err := if writeError.Some? then Some(Plain(writeError.value)) else None;
  }

  /**
   * Unlike `Request`, a webhook reply leaves out the files of a request
   * without uploads: a file named after no parameter reaches the form sent by
   * `Request` but not the reply.
   */
  lemma ReplyLeavesOutFiles(c: Chattable, i: nat)
    requires c.params.Success? && c.files.Some?
    requires i < |c.files.value|
    requires c.files.value[i].name !in c.params.value && c.files.value[i].name != "method"
    ensures c.files.value[i].name in FoldFiles(c.params.value, c.files.value)
    ensures c.files.value[i].name !in ResponseValues(c.apiMethod, c.params.value)
  {
    FoldHasNames(c.params.value, c.files.value, c.files.value[i].name);
  }
}
