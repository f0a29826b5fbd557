/**
 Messages, their headers, and the pure decisions taken on them: the retry count,
 the trace id, the retry handler's republication, the broker's dead-lettering and
 the requeue from a dead-letter queue.
 */
module Messages {

  datatype Option<+T> = None | Some(value: T)

  /** A header value.  `VInt` covers the integer encodings the count is decoded from. */
  datatype Value = VInt(i: int) | VStr(s: string) | VList(vs: seq<Value>) | VTable(t: Table) | VOther

  type Table = map<string, Value>

  const COUNT_HEADER := "x-retry-count"
  const TRACE_HEADER := "trace_id"
  const DEATH_HEADER := "x-death"
  const PERSISTENT := 2

  /** Properties that the retry handler copies from the delivery. */
  datatype Identity = Identity(
    correlationId: string, messageId: string, typ: string, expiration: string,
    replyTo: string, appId: string, userId: string)

  const NO_IDENTITY := Identity("", "", "", "", "", "", "")

  datatype Message = Message(
    exchange: string, key: string, body: string, headers: Table,
    contentType: string, priority: int, deliveryMode: int, identity: Identity)

  function StringOf(t: Table, k: string): Option<string> {
    if k in t && t[k].VStr? then Some(t[k].s) else None
  }

  function GetRetryCount(t: Table): int {
    if COUNT_HEADER in t && t[COUNT_HEADER].VInt? then t[COUNT_HEADER].i else 0
  }

  /** A worker gives a delivery without a string trace id a fresh one. */
  function WithTrace(t: Table, uuid: string): Table {
    if StringOf(t, TRACE_HEADER).Some? then t else t[TRACE_HEADER := VStr(uuid)]
  }

  /** The message the retry handler republishes. */
  function Republication(m: Message): Message {
    m.(headers := m.headers[COUNT_HEADER := VInt(GetRetryCount(m.headers) + 1)], deliveryMode := PERSISTENT)
  }

  // ----- dead letters -----

  function OlderDeaths(t: Table): seq<Value> {
    if DEATH_HEADER in t && t[DEATH_HEADER].VList? then t[DEATH_HEADER].vs else []
  }

  /** The broker's first x-death entry names the queue and the last publish target. */
  function DeathEntry(m: Message, queue: string): Table {
    map["queue" := VStr(queue), "exchange" := VStr(m.exchange), "routing-keys" := VList([VStr(m.key)]),
        "reason" := VStr("rejected"), "count" := VInt(1)]
  }

  /** A rejected message as the broker publishes it to the dead-letter exchange. */
  function DeadLetter(m: Message, queue: string, dlx: string): Message {
    m.(exchange := dlx, key := queue,
       headers := m.headers[DEATH_HEADER := VList([VTable(DeathEntry(m, queue))] + OlderDeaths(m.headers))])
  }

  datatype DLQMessage = DLQMessage(
    originalQueue: string, originalExchange: string, originalRoutingKey: string,
    retryCount: int, deathReason: string, deathCount: int)

  function FirstDeath(t: Table): Table {
    var deaths := OlderDeaths(t);
    if deaths != [] && deaths[0].VTable? then deaths[0].t else map[]
  }

  function TextOf(t: Table, k: string): string {
    match StringOf(t, k) case Some(s) => s case None => ""
  }

  function NewDLQMessage(t: Table): DLQMessage {
    var death := FirstDeath(t);
    DLQMessage(
      TextOf(death, "queue"),
      TextOf(death, "exchange"),
      if "routing-keys" in death && death["routing-keys"].VList? && death["routing-keys"].vs != [] &&
         death["routing-keys"].vs[0].VStr?
      then death["routing-keys"].vs[0].s else "",
      GetRetryCount(t),
      TextOf(death, "reason"),
      if "count" in death && death["count"].VInt? then death["count"].i else 0)
  }

  predicate ShouldRetryFromDLQ(d: DLQMessage, limit: int) {
    d.retryCount < limit
  }

  /** The message `RequeueFromDLQ` publishes, or `None` when the original target is unknown. */
  function Requeued(m: Message, reset: bool): Option<Message> {
    var d := NewDLQMessage(m.headers);
    if d.originalExchange == "" || d.originalRoutingKey == "" then None
    else
      var h := if reset then m.headers[COUNT_HEADER := VInt(0)] else m.headers;
      Some(Message(d.originalExchange, d.originalRoutingKey, m.body, h - {DEATH_HEADER},
                   m.contentType, m.priority, m.deliveryMode, NO_IDENTITY))
  }

  /** Dead-lettering and reading back the first death gives the target the message was published to. */
  lemma DeathRoundTrip(m: Message, queue: string, dlx: string)
    ensures var d := NewDLQMessage(DeadLetter(m, queue, dlx).headers);
            && d.originalQueue == queue && d.originalExchange == m.exchange && d.originalRoutingKey == m.key
            && d.retryCount == GetRetryCount(m.headers)
            && d.deathReason == "rejected" && d.deathCount == 1
  {
    var t := DeadLetter(m, queue, dlx).headers;
    assert OlderDeaths(t)[0] == VTable(DeathEntry(m, queue));
    assert FirstDeath(t) == DeathEntry(m, queue);
  }

  /**
   Reject, dead-letter and requeue is a round trip on the target, body, content
   type, priority and delivery mode, and on every header but the count (when it
   is reset) and x-death; the identity properties are lost.
   */
  lemma RequeueRoundTrip(m: Message, queue: string, dlx: string, reset: bool)
    requires m.exchange != "" && m.key != ""
    ensures var r := Requeued(DeadLetter(m, queue, dlx), reset);
            && r.Some?
            && r.value == m.(identity := NO_IDENTITY, headers :=
                               (if reset then m.headers[COUNT_HEADER := VInt(0)] else m.headers) - {DEATH_HEADER})
            && GetRetryCount(r.value.headers) == (if reset then 0 else GetRetryCount(m.headers))
            && StringOf(r.value.headers, TRACE_HEADER) == StringOf(m.headers, TRACE_HEADER)
  {
    DeathRoundTrip(m, queue, dlx);
    HeaderKeysDiffer();
    var d := DeadLetter(m, queue, dlx).headers;
    var h := if reset then d[COUNT_HEADER := VInt(0)] else d;
    var g := if reset then m.headers[COUNT_HEADER := VInt(0)] else m.headers;
    assert h - {DEATH_HEADER} == g - {DEATH_HEADER};
  }

  /** The latest death of the message is recorded as `d`. */
  predicate LatestDeath(t: Table, d: Table) {
    "x-death" in t && t["x-death"].VList? && t["x-death"].vs != [] && t["x-death"].vs[0] == VTable(d)
  }

  /** The death record names the exchange and the first routing key the message was published with. */
  predicate Target(d: Table, exchange: string, key: string) {
    && "exchange" in d && d["exchange"] == VStr(exchange)
    && "routing-keys" in d && d["routing-keys"].VList? && d["routing-keys"].vs != []
    && d["routing-keys"].vs[0] == VStr(key)
  }

  /** `s` is the text under `k`, or empty if there is none. */
  predicate TextIs(d: Table, k: string, s: string) {
    if k in d && d[k].VStr? then d[k] == VStr(s) else s == ""
  }

  /**
   What a dead letter tells of its latest death, whatever its headers hold: queue,
   exchange, first routing key, reason and count as recorded, each empty or zero
   where it is missing or malformed.
   */
  lemma DeathIsRead(t: Table)
    ensures var m := NewDLQMessage(t);
            && CountIs(t, m.retryCount)
            && (forall d: Table :: LatestDeath(t, d) ==>
                  && TextIs(d, "queue", m.originalQueue) && TextIs(d, "exchange", m.originalExchange)
                  && TextIs(d, "reason", m.deathReason)
                  && m.deathCount == (if "count" in d && d["count"].VInt? then d["count"].i else 0)
                  && (if "routing-keys" in d && d["routing-keys"].VList? && d["routing-keys"].vs != []
                         && d["routing-keys"].vs[0].VStr?
                      then d["routing-keys"].vs[0] == VStr(m.originalRoutingKey) else m.originalRoutingKey == ""))
            && ((forall d: Table :: !LatestDeath(t, d)) ==>
                  m == DLQMessage("", "", "", m.retryCount, "", 0))
  {
    CountIsRead(t, GetRetryCount(t));
    if OlderDeaths(t) != [] && OlderDeaths(t)[0].VTable? {
      assert LatestDeath(t, FirstDeath(t));
    }
  }

  /**
   A message can be requeued exactly if its latest death names an exchange and a
   routing key, neither of them empty, and then it goes there, with its body, every
   header but x-death, and a count of zero if that is asked for.
   */
  lemma RequeuedExactly(m: Message, reset: bool)
    ensures Requeued(m, reset).Some? <==>
            exists d, exchange, key ::
              LatestDeath(m.headers, d) && Target(d, exchange, key) && exchange != "" && key != ""
    ensures forall d, exchange, key ::
              LatestDeath(m.headers, d) && Target(d, exchange, key) && Requeued(m, reset).Some? ==>
                var r := Requeued(m, reset).value;
                && r == Message(exchange, key, m.body, r.headers,
                                m.contentType, m.priority, m.deliveryMode, NO_IDENTITY)
                && "x-death" !in r.headers
                && SameBut(r.headers, m.headers, if reset then {"x-death", "x-retry-count"} else {"x-death"})
                && (reset ==> "x-retry-count" in r.headers && r.headers["x-retry-count"] == VInt(0))
  {
    HeaderKeysDiffer();
    if Requeued(m, reset).Some? {
      var d := FirstDeath(m.headers);
      var r := Requeued(m, reset).value;
      assert LatestDeath(m.headers, d) && Target(d, r.exchange, r.key);
    }
  }

  lemma HeaderKeysDiffer()
    ensures COUNT_HEADER != TRACE_HEADER && COUNT_HEADER != DEATH_HEADER && TRACE_HEADER != DEATH_HEADER
  {
  }

  // ----- the worker's decision -----

  /**
   What became of a publish.  What the caller hears and what the broker did are
   independent: without confirms a nil error means only that the message was
   written, and with confirms it can answer for another message.
   */
  datatype PublishVerdict = Confirmed | FalselyConfirmed | Refused | TakenButErrored

  /** The caller gets a nil error. */
  predicate ReportedOk(v: PublishVerdict) {
    v.Confirmed? || v.FalselyConfirmed?
  }

  /** The broker has taken the message. */
  predicate Taken(v: PublishVerdict) {
    v.Confirmed? || v.TakenButErrored?
  }

  datatype Settlement = Ack | Nack(requeue: bool)

  /** What the environment answers while one delivery is processed. */
  datatype Env = Env(registered: bool, handlerOk: bool, publish: PublishVerdict, uuid: string)

  datatype Why = NotDead | BreakerOpen | Exhausted | PublishFailed

  /**
   `republished` is what the worker hands to the publisher, `reported` what it
   tells the breaker, `why` the cause of a nack.
   */
  datatype Decision = Decision(
    settle: Settlement, republished: Option<Message>, reported: Option<bool>, why: Why)

  function Decide(m: Message, maxRetries: int, admitted: bool, env: Env): Decision {
    if !admitted then Decision(Nack(false), None, None, BreakerOpen)
    else if !env.registered then Decision(Ack, None, None, NotDead)
    else if env.handlerOk then Decision(Ack, None, Some(true), NotDead)
    else if GetRetryCount(m.headers) >= maxRetries then Decision(Nack(false), None, Some(false), Exhausted)
    else
      var again := Republication(m.(headers := WithTrace(m.headers, env.uuid)));
      if ReportedOk(env.publish) then Decision(Ack, Some(again), Some(false), NotDead)
      else Decision(Nack(false), Some(again), Some(false), PublishFailed)
  }

  lemma WithTraceKeeps(t: Table, uuid: string)
    ensures GetRetryCount(WithTrace(t, uuid)) == GetRetryCount(t)
    ensures OlderDeaths(WithTrace(t, uuid)) == OlderDeaths(t)
    ensures DEATH_HEADER in WithTrace(t, uuid) <==> DEATH_HEADER in t
    ensures StringOf(WithTrace(t, uuid), TRACE_HEADER).Some?
    ensures StringOf(t, TRACE_HEADER).Some? ==> WithTrace(t, uuid) == t
  {
  }

  /** The tables agree, in keys and values, at every key but those in `except`. */
  ghost predicate SameBut(a: Table, b: Table, except: set<string>) {
    forall k :: k !in except ==> (k in a <==> k in b) && (k in a && k in b ==> a[k] == b[k])
  }

  /** What a retry keeps of the message and what it changes: one header, and the delivery mode. */
  lemma RepublicationKeeps(m: Message)
    ensures var r := Republication(m);
            && GetRetryCount(r.headers) == GetRetryCount(m.headers) + 1
            && SameBut(r.headers, m.headers, {COUNT_HEADER})
            && StringOf(r.headers, TRACE_HEADER) == StringOf(m.headers, TRACE_HEADER)
            && OlderDeaths(r.headers) == OlderDeaths(m.headers)
            && (DEATH_HEADER in r.headers <==> DEATH_HEADER in m.headers)
            && r == m.(headers := r.headers, deliveryMode := PERSISTENT)
  {
  }

  // ----- what a worker may do with a delivery -----

  /** The table carries the count `n`: an integer under the header, or nothing that is one and `n` is zero. */
  predicate CountIs(t: Table, n: int) {
    if "x-retry-count" in t && t["x-retry-count"].VInt? then t["x-retry-count"] == VInt(n) else n == 0
  }

  /** The count that is read is the count that is there. */
  lemma CountIsRead(t: Table, n: int)
    ensures GetRetryCount(t) == n <==> CountIs(t, n)
  {
  }

  /**
   `again` is `m`, which carried the count `n`, on its next attempt: one more in the
   count, the trace id it had or else `uuid`, persistent, and otherwise the same.
   */
  ghost predicate NextAttempt(m: Message, n: int, uuid: string, again: Message) {
    && SameBut(again.headers, m.headers, {"x-retry-count", "trace_id"})
    && "x-retry-count" in again.headers && again.headers["x-retry-count"] == VInt(n + 1)
    && "trace_id" in again.headers
    && again.headers["trace_id"] ==
       (if "trace_id" in m.headers && m.headers["trace_id"].VStr? then m.headers["trace_id"] else VStr(uuid))
    && again == m.(headers := again.headers, deliveryMode := 2)
  }

  /** The handler ran and failed on an admitted message that carried the count `n`, and a retry is left. */
  predicate MayRetry(n: int, maxRetries: int, admitted: bool, env: Env) {
    admitted && env.registered && !env.handlerOk && n < maxRetries
  }

  /**
   What is right for a message that carries the count `n`: it is acknowledged exactly
   if it was admitted and its type has no handler, its handler succeeded, or its
   retry was reported as published, and is otherwise rejected without requeue; it is
   republished exactly if a retry is left; and the breaker hears of exactly the
   handlers that ran.
   */
  ghost predicate Rightly(m: Message, n: int, maxRetries: int, admitted: bool, env: Env, d: Decision) {
    && (d.settle == Ack <==>
          admitted && (!env.registered || env.handlerOk || (n < maxRetries && ReportedOk(env.publish))))
    && (d.settle == Ack || d.settle == Nack(false))
    && (d.republished.Some? <==> MayRetry(n, maxRetries, admitted, env))
    && (d.republished.Some? ==> NextAttempt(m, n, env.uuid, d.republished.value))
    && (d.reported.Some? <==> admitted && env.registered)
    && (d.reported.Some? ==> (d.reported.value <==> env.handlerOk))
    && (d.why == BreakerOpen <==> !admitted)
    && (d.why == Exhausted <==> admitted && env.registered && !env.handlerOk && n >= maxRetries)
    && (d.why == PublishFailed <==> MayRetry(n, maxRetries, admitted, env) && !ReportedOk(env.publish))
  }

  lemma DecidesRightly(m: Message, n: int, maxRetries: int, admitted: bool, env: Env)
    requires CountIs(m.headers, n)
    ensures Rightly(m, n, maxRetries, admitted, env, Decide(m, maxRetries, admitted, env))
  {
    CountIsRead(m.headers, n);
    HeaderKeysDiffer();
  }

  // ----- retry termination -----

  function Max(a: int, b: int): int {
    if a > b then a else b
  }

  /**
   How often the handler runs on a message it always fails on, when the breaker
   is off and every republication is confirmed and delivered back.
   */
  function HandlerRuns(m: Message, maxRetries: int, uuid: string): nat
    decreases Max(0, maxRetries - GetRetryCount(m.headers))
  {
    var d := Decide(m, maxRetries, true, Env(true, false, Confirmed, uuid));
    if d.republished.None? then 1
    else
      WithTraceKeeps(m.headers, uuid);
      RepublicationKeeps(m.(headers := WithTrace(m.headers, uuid)));
      1 + HandlerRuns(d.republished.value, maxRetries, uuid)
  }

  /** The delivery on which the retries end. */
  function LastDelivery(m: Message, maxRetries: int, uuid: string): Message
    decreases Max(0, maxRetries - GetRetryCount(m.headers))
  {
    var d := Decide(m, maxRetries, true, Env(true, false, Confirmed, uuid));
    if d.republished.None? then m
    else
      WithTraceKeeps(m.headers, uuid);
      RepublicationKeeps(m.(headers := WithTrace(m.headers, uuid)));
      LastDelivery(d.republished.value, maxRetries, uuid)
  }

  /**
   An always-failing message with starting count c runs its handler exactly
   max(0, MaxRetries - c) + 1 times; the last run leaves it with count
   max(c, MaxRetries), nacked without requeue.
   */
  lemma {:induction false} RetryTermination(m: Message, maxRetries: int, uuid: string)
    ensures HandlerRuns(m, maxRetries, uuid) == Max(0, maxRetries - GetRetryCount(m.headers)) + 1
    ensures var last := LastDelivery(m, maxRetries, uuid);
            && GetRetryCount(last.headers) == Max(GetRetryCount(m.headers), maxRetries)
            && last.exchange == m.exchange && last.key == m.key && last.body == m.body && last.identity == m.identity
            && Decide(last, maxRetries, true, Env(true, false, Confirmed, uuid))
               == Decision(Nack(false), None, Some(false), Exhausted)
    decreases Max(0, maxRetries - GetRetryCount(m.headers))
  {
    var d := Decide(m, maxRetries, true, Env(true, false, Confirmed, uuid));
    if d.republished.Some? {
      WithTraceKeeps(m.headers, uuid);
      RepublicationKeeps(m.(headers := WithTrace(m.headers, uuid)));
      RetryTermination(d.republished.value, maxRetries, uuid);
    }
  }
}
