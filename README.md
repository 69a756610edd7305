# Telegram Bot API client core, modelled in Dafny

This project models the core of a Go client for the Telegram Bot API and proves
properties of the model. It covers three parts of the client.

- **The bot configuration.** This is an immutable record of the access token,
  the endpoint URL template and the debug flag (`config.dfy`).
- **The transport and dispatch layer** (`transport.dfy`, `dispatch.dfy`). Parameters become
  form values. A request goes out as a form POST, or as a multipart upload when
  one of its files needs uploading. The `{ok, result, error_code, description,
  parameters}` envelope becomes either a response or a structured `Error`. A
  request can also be written into a webhook reply. `EscapeText` escapes markup
  for the three parse modes (`escape.dfy`). The endpoint URL is built with
  `fmt.Sprintf`, whose behaviour on string arguments is modelled in `format.dfy`.
- **The update handlers** (`handlers.dfy`). The polling loop keeps an offset
  and pushes each update whose id is at least that offset. The webhook handlers
  turn an incoming request into an update, or answer 400 with a JSON error. The
  parts of Go's `net/http` response writer that these replies depend on are in
  `webserver.dfy`.

The outside world is passed in as values. A `Network` value says whether a URL
is rejected, at which multipart write the client stops reading, and what the HTTP
client answers. A `JsonOutcome` says what decoding a body yields. A
`Result<WebhookInfo, string>` is what `GetWebhookInfo` returned. A
`Result<seq<Update>, string>` is what one `GetUpdates` call returned. Every
request path returns a `Call` with the requests it handed to the HTTP client,
so "no call is made" can be stated.

The bot configuration is a value. Code that mutates state is a class or a
method with loop invariants: the polling handler, the channels, the response
writer, the parameter loop of `buildParams`, the fold loop of `Request` and the
two write loops of `UploadFiles`. Each method is proved against a specification
function (`ParamValues`, `FormCall`, `UploadCall`, `Run`, `RequestCall`,
`Deliver`), and lemmas prove the properties of those functions.

`UploadFiles` builds its `Error` without `Code` (bot.go:240-243), unlike
`MakeRequest` (bot.go:116-120). The model follows the code: `ApiError` sets
the code to 0 on the upload path, and `Transport.PathsDifferOnlyInCode` states
the difference.

`APIEndpoint`, the `Mode*` names and `WebhookInfo.IsSet` are defined in files
that are not part of this model. The model uses the values they have upstream:
`https://api.telegram.org/bot%s/%s`, `HTML`, `Markdown`, `MarkdownV2`, and "the
URL is not empty".

## Model

| member | source | states |
|---|---|---|
| Config.NewBotConfig | bot_config.go:16-22 | `GetToken`, `GetApiEndpoint` and `GetDebug` return exactly the token, endpoint and flag passed in |
| Config.NewDefaultBotConfig | bot_config.go:24-30 | keeps the token, turns debug off, uses the default endpoint template |
| Config.DefaultIsSpecialCase | bot_config.go:24-30 | the default constructor equals the general one with `APIEndpoint` and `false` |
| Config.ConfigDeterminedByGetters | bot_config.go:32-42 | rebuilding a config from its getters gives it back; two configs are equal iff their getters agree, so a config never changes |
| Format.LiteralPrefix | bot.go:83 | template text without `%` is copied unchanged, whatever the arguments |
| Format.VerbPrintsArgument | bot.go:83 | `%s` prints its argument verbatim; a `%` inside the argument is not interpreted |
| Format.TwoHoleTemplate | bot.go:83 | a template with two `%s` verbs puts the first argument in the first hole and the second in the second |
| Escape.EscapeText | bot.go:626-644 | an unknown parse mode gives `""`; for a known one, unescaping the result gives back exactly the input |
| Escape.EscapeRoundTrip | bot.go:629-644 | for each of the three tables, unescaping the escaped text gives the text |
| Escape.EscapeInjective | bot.go:644 | two texts with the same escape are equal |
| Escape.EscapedHeadNotSpecial | bot.go:631-640 | in the Markdown modes an escaped non-empty text never starts with a table character |
| Escape.EscapeConcat | bot.go:644 | escaping works per character: it distributes over concatenation |
| Escape.EscapePlainIsIdentity | bot.go:644 | a text with no table character is returned unchanged |
| Escape.MarkdownEscapeLength | bot.go:631-640 | in the Markdown modes the output is longer by exactly the number of table characters (one backslash each) |
| Escape.HtmlNotRescanned | bot.go:629-630 | `EscapeText("HTML", "<")` is `&lt;`, not `&amp;lt;` |
| Escape.UnknownModeIsEmpty | bot.go:640-642 | a parse mode other than the three exact names (e.g. `markdown`) gives `""` |
| Transport.BuildParams | bot.go:63-75 | a nil map gives empty values; otherwise the keys are exactly the input's and each value is the single input value |
| Transport.DecodeAPIResponse | bot.go:129-148 | without debug no bytes are returned and the stream decoder decides: a valid first value is returned with no error, a syntax error gives the empty envelope with its message, a field of the wrong type gives the partly decoded envelope with its message; with debug a read error gives the empty envelope with that error, and otherwise `json.Unmarshal` decides in the same way, with the bytes returned iff there is no error |
| Transport.DebugIsStricter | bot.go:129-148 | on a readable body, a failure without debug is a failure with debug; a success with debug is a success without it on the same envelope; a field of the wrong type gives the same partial envelope and error in both modes |
| Transport.DebugRejectsTrailingData | bot.go:129-148 | data after a valid envelope is ignored with debug off (the envelope is returned) and is `json.Unmarshal`'s error with debug on, with no bytes returned |
| Transport.Interpret | bot.go:99-123 | a decode error returns the partly decoded envelope with that error; a cleanly decoded `ok = false` envelope always gives an `Error` whose message is the description, whose code is `error_code` on the form path and 0 on the upload path, and whose parameters are the envelope's or zero; no error only with `ok` set |
| Transport.PathsDifferOnlyInCode | bot.go:233-244 | both paths return the same envelope, fail together, and build the same `Error` except that the upload path leaves `Code` at 0 |
| Transport.FormCall | bot.go:78-124 | at most one POST, to the endpoint URL, with the parameters' form values; a rejected URL gives the empty response and no call; a transport error gives no response; no error only with `ok` set |
| Transport.MakeRequest | bot.go:78-124 | the method does exactly what `FormCall` states |
| Transport.TemplateURL | bot.go:83 | an endpoint template `p%sm%sq` gives `p + token + m + method + q` |
| Transport.DefaultEndpointURL | bot_test.go:44-48 | with the default template the request goes to `https://api.telegram.org/bot<token>/<method>` |
| Transport.BadRequestEnvelope | bot.go:109-121 | an `ok = false` envelope with code 400 gives `Error{400, "Bad Request"}` on the form path and `Error{0, "Bad Request"}` on the upload path |
| Transport.EnumerateKeys | bot.go:161 | the parameter map is visited in some order that lists every key exactly once |
| Transport.Plan | bot.go:161-201 | the writes planned are every parameter in visiting order, then every file in list order |
| Transport.RunCharacterization | bot.go:156-202 | writes happen in order; the parts written are exactly the results of the successful steps; without an error every step succeeded; an error is the first failing step's |
| Transport.RunStopsAtError | bot.go:161-201 | once a write fails, nothing after it is written |
| Transport.UploadBodyLayout | bot.go:161-201 | the body holds the parameters as fields first, then each file in order: a file part named after it if it needs uploading, else a field with its string form |
| Transport.UploadBodyComplete | bot.go:161-201 | with an open pipe and readable files the body is written without error and has one part per parameter and per file |
| Transport.WriteFilePart | bot.go:169-199 | opening, creating the part, copying and closing a file fail in that order, with the first error |
| Transport.WriteParamFields | bot.go:161-166 | the first loop writes the parameter fields, or stops the whole body at the first failure |
| Transport.WriteFileParts | bot.go:168-201 | the second loop writes the file parts after the fields and stops at the first failure |
| Transport.WriteMultipartBody | bot.go:156-202 | the writer goroutine produces exactly what `Run` of the plan produces |
| Transport.WritePlan | bot.go:161-201 | the two write loops, run over any plan with the parameters first and the files after, produce exactly what `Run` of that plan produces |
| Transport.UploadCall | bot.go:151-247 | at most one multipart POST to the endpoint URL carrying that body; a rejected URL gives no response and no call; a writer error is the request's error; a failure of the HTTP client gives no response and that error; a response is interpreted on the upload path; no error only with `ok` set |
| Transport.UploadFiles | bot.go:151-247 | the method does exactly what `UploadCall` states for the order it visited the parameters in |
| Transport.Unwrap | bot.go:267-277 | a typed wrapper returns the zero value with the error when the request fails, otherwise the unmarshalled `result` |
| Dispatch.HasFilesNeedingUpload | bot.go:286-294 | true iff some file needs uploading |
| Dispatch.FoldKeeps | bot.go:314-316 | folding keeps every parameter no file is named after |
| Dispatch.FoldLastWins | bot.go:314-316 | the last file with a given name sets that field to its string form |
| Dispatch.FoldHasNames | bot.go:314-316 | every file name becomes a field |
| Dispatch.FoldAddsNothing | bot.go:314-316 | folding adds no field other than file names |
| Dispatch.RequestCall | bot.go:297-320 | a `params()` error is returned with no call; every call is a POST to the method's endpoint; multipart iff a file needs uploading, and then it is `UploadFiles` with the parameters and the full, unchanged file list; otherwise it is `MakeRequest` with the parameters unchanged when there are no files, or with every file folded in by name |
| Dispatch.Request | bot.go:297-320 | the method does exactly what `RequestCall` states; uploads go through `UploadFiles` with the full file list |
| Dispatch.FilesTravelAsFields | bot.go:312-319 | without uploads each file is sent as a form field holding its string form, the last of equal names winning |
| Dispatch.ResponseValues | bot.go:431-432 | the reply form has the parameters' keys plus `method`, which holds the API method and overrides any `method` parameter |
| Dispatch.WriteToHTTPResponse | bot.go:419-437 | a `params()` error or a file needing upload returns an error and writes nothing; otherwise `Content-Type` is set to the form type before the form values are written, and a write error is returned |
| Dispatch.ReplyLeavesOutFiles | bot.go:419-437 | a file named after no parameter reaches the form `Request` sends but not the webhook reply |
| Webserver.ResponseWriter.SetHeader | bot_handler.go:102 | only the handler's header map changes |
| Webserver.ResponseWriter.WriteHeader | bot_handler.go:101 | only the first call has an effect; it fixes the status and the header that is sent |
| Webserver.ResponseWriter.Write | bot_handler.go:103 | a write before any status sends 200 with the current header; the chunk is appended unless the client has gone, whose error is returned |
| Webserver.SniffObject | bot_handler.go:103 | a body starting with `{` is sniffed as plain text iff it has no binary byte |
| Webserver.JsonEscapeNoControl | bot_handler.go:100 | JSON-escaping a message leaves no control character in the output |
| Webserver.ErrorJsonSniffsAsText | bot_handler.go:100-103 | the `{"error": ...}` body, written when no `Content-Type` was set in time, is sniffed by net/http, which then sends `Content-Type: text/plain; charset=utf-8` |
| Webserver.WriteErrorReplyAsWritten | bot_handler.go:100-103 | status 400 goes out with the header as it was before; `application/json` is set only after it is sent, so it is never sent; when the reply starts the body and no `Content-Type` was set before, net/http sniffs the body and sends `Content-Type: text/plain; charset=utf-8` |
| Webserver.ErrorReplyArrivesAsText | bot_handler.go:100-103 | on a fresh writer the header snapshot taken at `WriteHeader(400)` has no `Content-Type`, so `application/json` is never sent; net/http sniffs the body and sends `Content-Type: text/plain; charset=utf-8` |
| Webserver.WriteErrorReply | bot_handler.go:100-103 | with the header set first, status 400 goes out with `Content-Type: application/json` and the JSON error body |
| Handlers.NewDefaultHandlerConfig | bot_handler.go:15-18 | the default config has a fresh open shutdown signal and buffer size 100 |
| Handlers.UpdatesChannel.Push | bot_handler.go:76 | the update is appended to the channel; sending on a closed channel is excluded |
| Handlers.UpdatesChannel.Close | bot_handler.go:59 | the channel is closed with its content unchanged; closing twice is excluded |
| Handlers.DeliverBounds | bot_handler.go:73-78 | pushed ids are strictly increasing and lie in `[offset, new offset)`; every id of the batch is below the new offset, which is the old one or one past a batch id |
| Handlers.DeliverOffset | bot_handler.go:73-78 | the offset never decreases, ends past every id of the batch, and is the old offset or one past a batch id |
| Handlers.DeliverPushed | bot_handler.go:73-78 | only updates of the batch are pushed, with strictly increasing ids from the starting offset up to the new one |
| Handlers.DeliverSnoc | bot_handler.go:73-78 | one more update is pushed iff its id is at least the current offset, which then becomes id + 1; otherwise nothing changes |
| Handlers.DeliverConcat | bot_handler.go:55-80 | filtering two batches one after the other, each from the offset left by the previous, is filtering their concatenation |
| Handlers.PushedIffFresh | bot_handler.go:73-78 | an update of a batch is pushed iff its id is at least the starting offset and above every id before it |
| Handlers.StaleBatchIgnored | bot_handler.go:73-78 | a batch whose ids are all below the offset pushes nothing and keeps the offset |
| Handlers.RedeliveryPushesNothing | bot_handler.go:73-78 | fetching the same batch again pushes nothing |
| Handlers.NoIdSentTwice | bot_handler.go:73-78 | across two fetches the ids sent are strictly increasing, so none is sent twice |
| Handlers.OverlappingBatches | bot_handler.go:73-78 | batches 5,6,7 then 6,7,8,9 from offset 0 send exactly 5,6,7,8,9 and leave the offset at 10 |
| Handlers.PollingHandler.constructor | bot_handler.go:26-32 | the handler shares the defaults' signal and buffer size and keeps the update config |
| Handlers.PollingHandler.InitUpdatesChannel | bot_handler.go:47-53 | fails with "webhook was set, can't use polling" only when the lookup succeeds and reports a set webhook; otherwise returns a fresh open channel of the buffer size |
| Handlers.PollingHandler.BeginIteration | bot_handler.go:56-64 | a closed signal closes the channel and ends the loop; otherwise `GetUpdates` is called with the current config |
| Handlers.PollingHandler.FinishFetch | bot_handler.go:64-78 | a failed fetch changes nothing; a batch appends exactly `Deliver(offset, batch)` to the channel and moves the offset to its end; the offset never decreases and the channel stays strictly increasing |
| Handlers.PollingHandler.Stop | bot_handler.go:86-91 | closes the shared shutdown signal; stopping twice is excluded |
| Handlers.StopDuringFetch | bot_handler.go:55-80 | a stop during a fetch still lets that batch through; the loop ends at the next top with the channel closed |
| Handlers.StopIsShared | bot_handler.go:15-44 | two handlers built from the same defaults share the signal; stopping one stops the other |
| Handlers.UnmarshalUpdate | bot_handler.go:136-149 | a method other than POST fails with "wrong HTTP method required POST", whatever the body; a POST yields the body's decoding result |
| Handlers.WebhookHandler.constructor | bot_handler.go:39-44 | the handler shares the defaults' signal and buffer size |
| Handlers.WebhookHandler.ListenForWebhook | bot_handler.go:94-111 | returns a fresh open channel of the buffer size |
| Handlers.WebhookHandler.ServeWebhook | bot_handler.go:97-108 | a decoded update is sent on and nothing is written; otherwise status 400 with the JSON error body, the header sent is the one before the `Content-Type` was set, and on a fresh writer the reply arrives as `text/plain; charset=utf-8` |
| Handlers.WebhookHandler.ServeWebhookCorrected | bot_handler.go:97-108 | the same handler with `Content-Type` set before the status line: the 400 reply arrives as `application/json` (see Findings) |
| Handlers.WebhookHandler.ListenForWebhookRespReqFormat | bot_handler.go:114-133 | returns an already-closed channel holding exactly the one update, or nothing after a 400 reply with the JSON error body whose `Content-Type` is set too late: on a fresh writer it arrives as `text/plain; charset=utf-8` |
| Handlers.WebhookHandler.ListenForWebhookRespReqFormatCorrected | bot_handler.go:114-133 | the same with `Content-Type` set before the status line: the 400 reply arrives as `application/json` (see Findings) |
| Handlers.SingleGetArrivesAsText | bot_handler.go:114-133 | a GET on the single-shot handler gives a closed empty channel and a 400 reply whose `application/json` header is never sent; net/http sniffs the body and sends `Content-Type: text/plain; charset=utf-8` |

## Left out

- The HTTP client, `http.NewRequest`, request headers and `http.HandleFunc` registration are oracles in `Network` or left out. The error the client wraps around a pipe error keeps only the inner message.
- JSON decoding is an input (`JsonOutcome`), one for the stream decoder and one for `json.Unmarshal`. Their error texts are independent inputs, so the model does not fix which message each decoder gives on an empty or cut-off body. Form and multipart bytes are not encoded: bodies are lists of parts or maps of values.
- The `UploadFiles` goroutine and `io.Pipe` are a sequence of writes that completes or stops at the first error. The closing boundary written by `m.Close()` is not modelled.
- Channel blocking and backpressure are left out. `UpdatesChannel.buffer` holds every update sent, because the consumer is not modelled. Capacity bounds only unconsumed updates in Go.
- The 3-second sleep before a retry and all logging are left out. `SetReadonly` and the `config.(*BotConfig)` type assertion are left out.
- The typed wrappers from `GetMe` to `SendReaction` are covered by the one generic `Transport.Unwrap`.
- `UpdatesChannel.Clear` and `prepareInputMediaForParams` are not part of this model.
- The `params()` and `files()` implementations are not part of this model. `params()` is taken to return a non-nil map. Folding files into a nil map would panic in Go.
- Format.Sprintf: only string arguments and the `%s`, `%v` and `%%` verbs are modelled. Flags, widths and other argument types are left out.
- Handlers.PollingHandler.Stop: requires an open signal, because a second `Stop` panics in Go. The debug log line is left out.
- Handlers.PollingHandler.InitUpdatesChannel: requires a handler that was never started. A second call would start a second loop sharing the offset.
- Handlers.WebhookHandler.ListenForWebhookRespReqFormat: does not model a zero buffer size. There the send would block forever, but every handler gets size 100.
- Handlers.PollingHandler.FinishFetch: the new offset `UpdateID + 1` (also in `Handlers.Deliver`) is an unbounded integer. Go's `int` wraps at its largest value, which a real update id does not reach.
- Webserver.ResponseWriter.WriteHeader: requires a status from 200 to 999. The 1xx informational statuses are not modelled.
- Webserver.SniffObject: models sniffing only for bodies starting with `{`, where no signature applies. Go looks at the first 512 bytes only. The JSON bodies modelled have no binary byte at all, so this changes nothing for them.
- Webserver.JsonEscapeChar: follows `encoding/json` for `"`, `\`, `\n`, `\r`, `\t`, other control characters, `<`, `>`, `&`, U+2028 and U+2029. The `\b` and `\f` short forms of newer Go versions are not modelled. Invalid UTF-8 does not arise, because strings are sequences of characters.

## Findings

| source | as written | input that shows it | evidently intended | confidence | as-written member | corrected member |
|---|---|---|---|---|---|---|
| bot_handler.go:100-103 | the webhook error reply calls `WriteHeader(400)` and only then sets `Content-Type: application/json`, so the `application/json` header is never sent; net/http sniffs the body and sends `Content-Type: text/plain; charset=utf-8` instead | a GET request to the webhook URL, which `UnmarshalUpdate` rejects | set `Content-Type` before `WriteHeader`, so the JSON error arrives as `application/json` (the same holds at bot_handler.go:122-125) | high; not executed | Webserver.ErrorReplyArrivesAsText | Webserver.WriteErrorReply |
| bot_handler.go:122-125 | `ListenForWebhookRespReqFormat` makes the same call order, so its `application/json` header is never sent either; net/http sniffs the body and sends `Content-Type: text/plain; charset=utf-8` | a GET request passed to `ListenForWebhookRespReqFormat` | set `Content-Type` before `WriteHeader`, so the error arrives as `application/json` | high; not executed | Handlers.SingleGetArrivesAsText | Handlers.WebhookHandler.ListenForWebhookRespReqFormatCorrected |
