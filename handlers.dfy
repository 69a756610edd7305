/**
 * The update handlers of bot_handler.go. A polling handler runs a loop that
 * checks the shared shutdown signal, fetches a batch of updates and pushes
 * onto its channel every update whose id is at least the current offset,
 * moving the offset past it. A webhook handler turns an incoming HTTP request
 * into an update, or answers 400 with a JSON error.
 */
module Handlers {
  import opened Wrappers
  import opened Webserver

  const DefaultBufferSize: nat := 100
  const WebhookSetMessage: string := "webhook was set, can't use polling"
  const WrongMethodMessage: string := "wrong HTTP method required POST"

  /** An update: its id, and the rest of its content, which the handlers pass along untouched. */
  datatype Update = Update(updateID: int, content: string)

  /** The `getUpdates` parameters; the handler moves `offset`. */
  datatype UpdateConfig = UpdateConfig(offset: int, limit: int, timeout: int, allowedUpdates: seq<string>)

  datatype WebhookInfo = WebhookInfo(url: string) {
    predicate IsSet() {
      url != ""
    }
  }

  /** The shutdown channel: closing it is the only operation on it. */
  class ShutdownSignal {
    var closed: bool

    constructor ()
      ensures !closed
    {
      closed := false;
    }

    method Close()
      requires !closed
      modifies this
      ensures closed
    {
      closed := true;
    }
  }

  /** The shutdown signal and the channel capacity every handler is built with. */
  datatype HandlerConfig = HandlerConfig(shutdown: ShutdownSignal, bufferSize: nat)

  /** `defaultConfig`: created once and shared by every handler built from it. */
  method NewDefaultHandlerConfig() returns (defaults: HandlerConfig)
    ensures fresh(defaults.shutdown) && !defaults.shutdown.closed
    ensures defaults.bufferSize == DefaultBufferSize
  {
    var signal := new ShutdownSignal();
    defaults := HandlerConfig(signal, DefaultBufferSize);
  }

  /**
   * An `UpdatesChannel`. The consumer is not modelled, so `buffer` holds every
   * update ever sent, in order.
   */
  class UpdatesChannel {
    const capacity: nat
    var buffer: seq<Update>
    var closed: bool

    constructor (capacity: nat)
      ensures this.capacity == capacity && buffer == [] && !closed
    {
      this.capacity := capacity;
      buffer := [];
      closed := false;
    }

    /** `ch <- u`; sending on a closed channel panics. */
    method Push(u: Update)
      requires !closed
      modifies this
      ensures buffer == old(buffer) + [u] && !closed
    {
      buffer := buffer + [u];
    }

    /** `close(ch)`; closing twice panics. */
    method Close()
      requires !closed
      modifies this
      ensures closed && buffer == old(buffer)
    {
      closed := true;
    }
  }

  // ----- the offset filter -------------------------------------------------------

  predicate StrictlyIncreasing(s: seq<Update>) {
    forall i, j :: 0 <= i < j < |s| ==> s[i].updateID < s[j].updateID
  }

  /** The new offset and the updates pushed, in order. */
  datatype Delivery = Delivery(offset: int, pushed: seq<Update>)

  /**
   * Filtering one batch from `offset`: an update is pushed when its id is at
   * least the current offset, which then moves one past it.
   */
  function Deliver(offset: int, batch: seq<Update>): Delivery
    decreases |batch|
  {
    if batch == [] then Delivery(offset, [])
    else
      var n := |batch| - 1;
      var prev := Deliver(offset, batch[..n]);
      var u := batch[n];
      if u.updateID >= prev.offset then Delivery(u.updateID + 1, prev.pushed + [u]) else prev
  }

  /**
   * The ids pushed are strictly increasing and lie in `[offset, d.offset)`;
   * every id of the batch lies below the new offset, which is either
   * `offset` or one past an id of the batch; only updates of the batch are
   * pushed.
   */
  lemma DeliverBounds(offset: int, batch: seq<Update>)
    ensures var d := Deliver(offset, batch);
      && d.offset >= offset
      && StrictlyIncreasing(d.pushed)
      && (forall i :: 0 <= i < |d.pushed| ==> offset <= d.pushed[i].updateID < d.offset)
      && (forall i :: 0 <= i < |batch| ==> batch[i].updateID < d.offset)
      && (d.offset == offset || exists i :: 0 <= i < |batch| && d.offset == batch[i].updateID + 1)
      && (forall u :: u in d.pushed ==> u in batch)
      && (d.pushed == [] ==> d.offset == offset)
  {
    DeliverOffset(offset, batch);
    DeliverPushed(offset, batch);
  }

  /** Where the offset ends: at or past the start, past every id of the batch, and at the start or one past a batch id. */
  lemma {:induction false} DeliverOffset(offset: int, batch: seq<Update>)
    ensures var d := Deliver(offset, batch);
      && d.offset >= offset
      && (forall i :: 0 <= i < |batch| ==> batch[i].updateID < d.offset)
      && (d.offset == offset || exists i :: 0 <= i < |batch| && d.offset == batch[i].updateID + 1)
      && (d.pushed == [] ==> d.offset == offset)
    decreases |batch|
  {
    if batch != [] {
      var n := |batch| - 1;
      var front := batch[..n];
      DeliverOffset(offset, front);
      var prev := Deliver(offset, front);
      assert forall i :: 0 <= i < n ==> front[i] == batch[i];
      if prev.offset != offset {
        var k :| 0 <= k < n && prev.offset == front[k].updateID + 1;
        assert prev.offset == batch[k].updateID + 1;
      }
    }
  }

  /** What is pushed: updates of the batch, with strictly increasing ids in `[offset, d.offset)`. */
  lemma {:induction false} DeliverPushed(offset: int, batch: seq<Update>)
    ensures var d := Deliver(offset, batch);
      && StrictlyIncreasing(d.pushed)
      && (forall i :: 0 <= i < |d.pushed| ==> offset <= d.pushed[i].updateID < d.offset)
      && (forall u :: u in d.pushed ==> u in batch)
    decreases |batch|
  {
    if batch != [] {
      var n := |batch| - 1;
      var front := batch[..n];
      DeliverPushed(offset, front);
      DeliverOffset(offset, front);
      var prev := Deliver(offset, front);
      forall u | u in prev.pushed ensures u in batch {
        var k :| 0 <= k < |front| && front[k] == u;
        assert batch[k] == u;
      }
    }
  }

  /** Filtering a batch with one more update at its end. */
  lemma DeliverSnoc(offset: int, s: seq<Update>, u: Update)
    ensures var prev := Deliver(offset, s);
            Deliver(offset, s + [u]) ==
              if u.updateID >= prev.offset then Delivery(u.updateID + 1, prev.pushed + [u]) else prev
  {
    assert (s + [u])[..|s|] == s;
    assert (s + [u])[|s|] == u;
  }

  /** Filtering two batches one after the other is filtering their concatenation. */
  lemma {:induction false} DeliverConcat(offset: int, a: seq<Update>, b: seq<Update>)
    ensures var first := Deliver(offset, a);
            var second := Deliver(first.offset, b);
            Deliver(offset, a + b) == Delivery(second.offset, first.pushed + second.pushed)
    decreases |b|
  {
    var first := Deliver(offset, a);
    if b == [] {
      assert a + b == a;
      assert first.pushed + [] == first.pushed;
    } else {
      var n := |b| - 1;
      var front := b[..n];
      var u := b[n];
      assert b == front + [u];
      assert a + b == (a + front) + [u];
      DeliverConcat(offset, a, front);
      var mid := Deliver(first.offset, front);
      assert Deliver(offset, a + front) == Delivery(mid.offset, first.pushed + mid.pushed);
      DeliverSnoc(offset, a + front, u);
      DeliverSnoc(first.offset, front, u);
      if u.updateID >= mid.offset {
        assert first.pushed + mid.pushed + [u] == first.pushed + (mid.pushed + [u]);
      }
    }
  }

  /**
   * The update at position `i` is pushed exactly when its id is at least the
   * starting offset and above every id before it in the batch.
   */
  lemma PushedIffFresh(offset: int, batch: seq<Update>, i: nat)
    requires i < |batch|
    ensures var before := Deliver(offset, batch[..i]);
            var after := Deliver(offset, batch[..i + 1]);
            && (after.pushed == before.pushed + [batch[i]] || after.pushed == before.pushed)
            && (after.pushed == before.pushed + [batch[i]] <==>
                  batch[i].updateID >= offset && forall j :: 0 <= j < i ==> batch[j].updateID < batch[i].updateID)
  {
    var prefix := batch[..i + 1];
    assert prefix[..i] == batch[..i];
    assert prefix[i] == batch[i];
    var before := Deliver(offset, batch[..i]);
    DeliverBounds(offset, batch[..i]);
    assert forall j :: 0 <= j < i ==> batch[..i][j] == batch[j];
    if before.offset != offset {
      var k :| 0 <= k < i && before.offset == batch[..i][k].updateID + 1;
    }
  }

  /** A batch whose ids all lie below the offset pushes nothing and leaves the offset alone. */
  lemma {:induction false} StaleBatchIgnored(offset: int, batch: seq<Update>)
    requires forall i :: 0 <= i < |batch| ==> batch[i].updateID < offset
    ensures Deliver(offset, batch) == Delivery(offset, [])
    decreases |batch|
  {
    if batch != [] {
      var n := |batch| - 1;
      StaleBatchIgnored(offset, batch[..n]);
    }
  }

  /** Fetching the same batch again after filtering it pushes nothing. */
  lemma RedeliveryPushesNothing(offset: int, batch: seq<Update>)
    ensures Deliver(Deliver(offset, batch).offset, batch).pushed == []
  {
    DeliverBounds(offset, batch);
    StaleBatchIgnored(Deliver(offset, batch).offset, batch);
  }

  /** Across two fetches no update id is sent twice, and ids only grow. */
  lemma NoIdSentTwice(offset: int, a: seq<Update>, b: seq<Update>)
    ensures var first := Deliver(offset, a);
            StrictlyIncreasing(first.pushed + Deliver(first.offset, b).pushed)
  {
    DeliverConcat(offset, a, b);
    DeliverBounds(offset, a + b);
  }

  function Ids(s: seq<Update>): seq<int> {
    seq(|s|, i requires 0 <= i < |s| => s[i].updateID)
  }

  /** Batches with ids 5, 6, 7 and then 6, 7, 8, 9 from offset 0 send 5, 6, 7, 8, 9 and end at offset 10. */
  lemma OverlappingBatches(x: string)
    ensures var a := [Update(5, x), Update(6, x), Update(7, x)];
            var b := [Update(6, x), Update(7, x), Update(8, x), Update(9, x)];
            var first := Deliver(0, a);
            var second := Deliver(first.offset, b);
            Ids(first.pushed + second.pushed) == [5, 6, 7, 8, 9] && second.offset == 10
  {
    var u5, u6, u7, u8, u9 := Update(5, x), Update(6, x), Update(7, x), Update(8, x), Update(9, x);
    DeliverSnoc(0, [], u5);
    assert [] + [u5] == [u5];
    DeliverSnoc(0, [u5], u6);
    assert [u5] + [u6] == [u5, u6];
    DeliverSnoc(0, [u5, u6], u7);
    assert [u5, u6] + [u7] == [u5, u6, u7];
    assert Deliver(0, [u5, u6, u7]) == Delivery(8, [u5, u6, u7]);
    StaleBatchIgnored(8, [u6, u7]);
    DeliverSnoc(8, [u6, u7], u8);
    assert [u6, u7] + [u8] == [u6, u7, u8];
    DeliverSnoc(8, [u6, u7, u8], u9);
    assert [u6, u7, u8] + [u9] == [u6, u7, u8, u9];
    assert Deliver(8, [u6, u7, u8, u9]) == Delivery(10, [u8, u9]);
    assert [u5, u6, u7] + [u8, u9] == [u5, u6, u7, u8, u9];
  }

  // ----- the polling handler -------------------------------------------------------

  /**
   * Where the polling loop stands: not started, at the top of the loop,
   * waiting for a `GetUpdates` call, or stopped after closing its channel.
   */
  datatype Phase = Idle | AtTop | Fetching | Stopped

  class PollingHandler {
    const signal: ShutdownSignal
    const bufferSize: nat
    var updateConfig: UpdateConfig
    var ch: UpdatesChannel?
    var phase: Phase
    /** The configuration passed to each `GetUpdates` call, in order. */
    var requests: seq<UpdateConfig>
    /** The offset the loop started from. */
    ghost var startOffset: int
    /** Every batch fetched successfully, concatenated. */
    ghost var fetched: seq<Update>

    /** The channel holds exactly what filtering every fetched update from the start offset sends. */
    ghost predicate Valid()
      reads this, ch
    {
      && (phase == Idle <==> ch == null)
      && (ch != null ==>
            && ch.capacity == bufferSize
            && (ch.closed <==> phase == Stopped)
            && ch.buffer == Deliver(startOffset, fetched).pushed
            && updateConfig.offset == Deliver(startOffset, fetched).offset)
    }

    /** `NewPollingHandler`. */
    constructor (defaults: HandlerConfig, updateConfig: UpdateConfig)
      ensures signal == defaults.shutdown && bufferSize == defaults.bufferSize
      ensures this.updateConfig == updateConfig && phase == Idle && ch == null && requests == []
      ensures Valid()
    {
      signal := defaults.shutdown;
      bufferSize := defaults.bufferSize;
      this.updateConfig := updateConfig;
      ch := null;
      phase := Idle;
      requests := [];
      startOffset := updateConfig.offset;
      fetched := [];
    }

    /**
     * `InitUpdatesChannel`, given what `GetWebhookInfo` returned: a webhook
     * that is set refuses polling; a failed lookup does not.
     */
    method InitUpdatesChannel(webhook: Result<WebhookInfo, string>) returns (channel: UpdatesChannel?, err: Option<string>)
      requires Valid() && phase == Idle
      modifies this
      ensures Valid()
      ensures updateConfig == old(updateConfig) && requests == old(requests)
      ensures webhook.Success? && webhook.value.IsSet() ==>
                channel == null && err == Some(WebhookSetMessage) && phase == Idle && ch == null
      ensures !(webhook.Success? && webhook.value.IsSet()) ==>
                && err.None? && channel != null && fresh(channel) && channel == ch && phase == AtTop
                && channel.capacity == bufferSize && channel.buffer == [] && !channel.closed
    {
      if webhook.Success? && webhook.value.IsSet() {
        return null, Some(WebhookSetMessage);
      }
      channel := new UpdatesChannel(bufferSize);
      ch := channel;
      phase := AtTop;
      startOffset := updateConfig.offset;
      fetched := [];
      err := None;
    }

    /**
     * The top of the loop: once the shutdown signal is closed the channel is
     * closed and the loop ends; otherwise `GetUpdates` is called with the
     * current configuration.
     */
    method BeginIteration()
      requires Valid() && phase == AtTop
      modifies this, ch
      ensures Valid() && ch == old(ch) && updateConfig == old(updateConfig)
      ensures ch.buffer == old(ch.buffer)
      ensures signal.closed ==> phase == Stopped && ch.closed && requests == old(requests)
      ensures !signal.closed ==> phase == Fetching && !ch.closed && requests == old(requests) + [updateConfig]
    {
      if signal.closed {
        ch.Close();
        phase := Stopped;
      } else {
        requests := requests + [updateConfig];
        phase := Fetching;
      }
    }

    /**
     * The rest of one iteration, given what `GetUpdates` returned: an error
     * changes nothing (the loop retries); a batch is filtered from the
     * current offset.
     */
    method FinishFetch(result: Result<seq<Update>, string>)
      requires Valid() && phase == Fetching
      modifies this, ch
      ensures Valid() && phase == AtTop && ch == old(ch) && !ch.closed && requests == old(requests)
      ensures result.Failure? ==> ch.buffer == old(ch.buffer) && updateConfig == old(updateConfig)
      ensures result.Success? ==>
                var d := Deliver(old(updateConfig.offset), result.value);
                ch.buffer == old(ch.buffer) + d.pushed && updateConfig == old(updateConfig).(offset := d.offset)
      ensures updateConfig.offset >= old(updateConfig.offset)
      ensures StrictlyIncreasing(ch.buffer)
    {
      if result.Failure? {
        DeliverBounds(startOffset, fetched);
        phase := AtTop;
        return;
      }
      var batch := result.value;
      var c := ch;
      ghost var before := c.buffer;
      ghost var start := updateConfig;
      for i := 0 to |batch|
        invariant ch == c && !c.closed && phase == Fetching
        invariant requests == old(requests) && fetched == old(fetched) && startOffset == old(startOffset)
        invariant c.buffer == before + Deliver(start.offset, batch[..i]).pushed
        invariant updateConfig == start.(offset := Deliver(start.offset, batch[..i]).offset)
      {
        assert batch[..i + 1] == batch[..i] + [batch[i]];
        DeliverSnoc(start.offset, batch[..i], batch[i]);
        var u := batch[i];
        if u.updateID >= updateConfig.offset {
          updateConfig := updateConfig.(offset := u.updateID + 1);
          c.Push(u);
        }
      }
      assert batch[..|batch|] == batch;
      DeliverBounds(start.offset, batch);
      DeliverConcat(startOffset, fetched, batch);
      fetched := fetched + batch;
      DeliverBounds(startOffset, fetched);
      phase := AtTop;
    }

    /** `Stop`: closes the shared shutdown signal; closing it twice panics. */
    method Stop()
      requires !signal.closed
      modifies signal
      ensures signal.closed
    {
      signal.Close();
    }
  }

  /**
   * The shutdown signal is looked at only at the top of the loop: a stop
   * during a fetch still lets that batch through, and the loop ends at the
   * next top.
   */
  method StopDuringFetch(h: PollingHandler, batch: seq<Update>)
    requires h.Valid() && h.phase == AtTop && !h.signal.closed
    modifies h, h.ch, h.signal
    ensures h.Valid() && h.phase == Stopped && h.ch == old(h.ch) && h.ch.closed
    ensures h.ch.buffer == old(h.ch.buffer) + Deliver(old(h.updateConfig.offset), batch).pushed
  {
    h.BeginIteration();
    h.Stop();
    h.FinishFetch(Success(batch));
    h.BeginIteration();
  }

  /** Handlers built from the same defaults share the signal: stopping one stops them all. */
  method StopIsShared(defaults: HandlerConfig, first: UpdateConfig, second: UpdateConfig)
    returns (a: PollingHandler, b: PollingHandler)
    requires !defaults.shutdown.closed
    modifies defaults.shutdown
    ensures a != b && a.signal == b.signal
    ensures b.signal.closed && b.phase == Idle
  {
    a := new PollingHandler(defaults, first);
    b := new PollingHandler(defaults, second);
    a.Stop();
  }

  // ----- the webhook handlers --------------------------------------------------------

  /** An incoming webhook request: its HTTP method and what decoding its body as an update yields. */
  datatype InboundRequest = InboundRequest(httpMethod: string, decoded: Result<Update, string>)

  /** `UnmarshalUpdate`: only a POST is decoded; any other method is refused whatever the body. */
  function UnmarshalUpdate(r: InboundRequest): (res: Result<Update, string>)
    ensures r.httpMethod != "POST" ==> res == Failure(WrongMethodMessage)
    ensures r.httpMethod == "POST" ==> res == r.decoded
    ensures res.Success? ==> r.httpMethod == "POST"
  {
    if r.httpMethod != "POST" then Failure(WrongMethodMessage) else r.decoded
  }

  class WebhookHandler {
    const signal: ShutdownSignal
    const bufferSize: nat

    /** `NewWebhookHandler`. */
    constructor (defaults: HandlerConfig)
      ensures signal == defaults.shutdown && bufferSize == defaults.bufferSize
    {
      signal := defaults.shutdown;
      bufferSize := defaults.bufferSize;
    }

    /**
     * `ListenForWebhook`: the channel its handler sends to; `ServeWebhook` is
     * that handler serving one request.
     */
    method ListenForWebhook(pattern: string) returns (ch: UpdatesChannel)
      ensures fresh(ch) && ch.capacity == bufferSize && ch.buffer == [] && !ch.closed
    {
      ch := new UpdatesChannel(bufferSize);
    }

    /**
     * The registered handler as written: an update is sent on; a bad request
     * gets status 400 and the JSON error body, but its `Content-Type` is set
     * after the status line, so it is never sent: on a fresh writer net/http
     * sniffs the body and sends `text/plain; charset=utf-8` instead.
     */
    method ServeWebhook(ch: UpdatesChannel, w: ResponseWriter, r: InboundRequest)
      requires !ch.closed && w.status.None?
      modifies ch, w
      ensures !ch.closed
      ensures UnmarshalUpdate(r).Success? ==> ch.buffer == old(ch.buffer) + [UnmarshalUpdate(r).value] && unchanged(w)
      ensures UnmarshalUpdate(r).Failure? ==>
                && ch.buffer == old(ch.buffer)
                && w.status == Some(400)
                && w.sentHeader == old(w.header)
                && w.body == old(w.body) + (if w.failure.None? then [Text(ErrorJson(UnmarshalUpdate(r).error))] else [])
                && (old(w.body) == [] && "Content-Type" !in old(w.header) && w.failure.None? ==>
                      w.ReceivedContentType() == Some(TextContentType))
    {
      var update := UnmarshalUpdate(r);
      if update.Failure? {
        WriteErrorReplyAsWritten(w, update.error);
        return;
      }
      ch.Push(update.value);
    }

    /** The registered handler with the header set before the status line: the error arrives as JSON. */
    method ServeWebhookCorrected(ch: UpdatesChannel, w: ResponseWriter, r: InboundRequest)
      requires !ch.closed && w.status.None?
      modifies ch, w
      ensures !ch.closed
      ensures UnmarshalUpdate(r).Success? ==> ch.buffer == old(ch.buffer) + [UnmarshalUpdate(r).value] && unchanged(w)
      ensures UnmarshalUpdate(r).Failure? ==>
                && ch.buffer == old(ch.buffer)
                && w.status == Some(400)
                && w.body == old(w.body) + (if w.failure.None? then [Text(ErrorJson(UnmarshalUpdate(r).error))] else [])
                && w.ReceivedContentType() == Some(JsonContentType)
    {
      var update := UnmarshalUpdate(r);
      if update.Failure? {
        WriteErrorReply(w, update.error);
        return;
      }
      ch.Push(update.value);
    }

    /**
     * `ListenForWebhookRespReqFormat` as written: serves one request and
     * returns a closed channel holding its update, or nothing after a 400
     * error whose `Content-Type` is set too late to be sent.
     */
    method ListenForWebhookRespReqFormat(w: ResponseWriter, r: InboundRequest) returns (ch: UpdatesChannel)
      requires w.status.None?
      modifies w
      ensures fresh(ch) && ch.closed && ch.capacity == bufferSize
      ensures UnmarshalUpdate(r).Success? ==> ch.buffer == [UnmarshalUpdate(r).value] && unchanged(w)
      ensures UnmarshalUpdate(r).Failure? ==>
                && ch.buffer == []
                && w.status == Some(400)
                && w.sentHeader == old(w.header)
                && w.body == old(w.body) + (if w.failure.None? then [Text(ErrorJson(UnmarshalUpdate(r).error))] else [])
                && (old(w.body) == [] && "Content-Type" !in old(w.header) && w.failure.None? ==>
                      w.ReceivedContentType() == Some(TextContentType))
    {
      ch := new UpdatesChannel(bufferSize);
      var update := UnmarshalUpdate(r);
      if update.Failure? {
        WriteErrorReplyAsWritten(w, update.error);
      } else {
        ch.Push(update.value);
      }
      ch.Close();
    }

    /** `ListenForWebhookRespReqFormat` with the header set before the status line. */
    method ListenForWebhookRespReqFormatCorrected(w: ResponseWriter, r: InboundRequest) returns (ch: UpdatesChannel)
      requires w.status.None?
      modifies w
      ensures fresh(ch) && ch.closed && ch.capacity == bufferSize
      ensures UnmarshalUpdate(r).Success? ==> ch.buffer == [UnmarshalUpdate(r).value] && unchanged(w)
      ensures UnmarshalUpdate(r).Failure? ==>
                && ch.buffer == []
                && w.status == Some(400)
                && w.body == old(w.body) + (if w.failure.None? then [Text(ErrorJson(UnmarshalUpdate(r).error))] else [])
                && w.ReceivedContentType() == Some(JsonContentType)
    {
      ch := new UpdatesChannel(bufferSize);
      var update := UnmarshalUpdate(r);
      if update.Failure? {
        WriteErrorReply(w, update.error);
      } else {
        ch.Push(update.value);
      }
      ch.Close();
    }
  }

  /**
   * A GET on the single-shot webhook handler as written: the channel comes back
   * closed and empty, and the 400 reply goes out with the sniffed
   * `text/plain; charset=utf-8` instead of `application/json`.
   */
  method SingleGetArrivesAsText(h: WebhookHandler, decoded: Result<Update, string>)
    returns (w: ResponseWriter, ch: UpdatesChannel)
    ensures ch.closed && ch.buffer == []
    ensures w.status == Some(400)
    ensures "Content-Type" !in w.sentHeader
    ensures w.ReceivedContentType() == Some(TextContentType)
  {
    w := new ResponseWriter(None);
    ch := h.ListenForWebhookRespReqFormat(w, InboundRequest("GET", decoded));
  }
}
