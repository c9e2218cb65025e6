/** The broker consumer: it connects with a linear reconnect backoff,
    subscribes handlers to queues and re-subscribes them after a reconnect,
    and settles every delivery by an ack, a nack with a republished retry,
    or a nack that dead-letters it. The channel is the log of what the
    consumer asked of it. */
module RabbitConsumer {
  import opened Wrappers
  import opened Json
  import RmqConfig

  /** How many reconnects are tried before giving up. */
  const MaxReconnectAttempts: nat := 10
  /** The reconnect delay unit, in milliseconds. */
  const ReconnectDelay: nat := 5000

  /** What the consumer asks of its channel, and the reconnects it schedules. */
  datatype Effect =
    | Prefetch(count: nat)
    | Subscribe(queue: string)
    | Ack(tag: nat)
    | Nack(tag: nat, allUpTo: bool, requeue: bool)
    | Publish(exchange: string, routingKey: string, content: string, properties: Object)
    | ScheduleReconnect(delay: nat)

  /** The awaited step of `connect` that threw: opening the connection,
      creating the channel, or setting its prefetch count. */
  datatype ConnectStage = AtConnect | AtCreateChannel | AtPrefetch

  /** A delivered message: its delivery tag, the exchange and routing key it
      came through, its body, and its properties (headers among them). */
  datatype Delivery = Delivery(tag: nat, exchange: string, routingKey: string, content: string, properties: Object)

  /** The headers property, when it is an object; spreading anything else
      adds nothing. */
  function HeadersOf(properties: Object): Object {
    match Field(properties, "headers")
    case Some(JObj(fields)) => fields
    case _ => map[]
  }

  /** `headers?.['x-retry-count'] || 0`, when it is a number; `None` for a
      truthy value of another kind. */
  function RetryCount(properties: Object): (r: Option<int>)
    ensures !Truthy(Field(HeadersOf(properties), "x-retry-count")) ==> r == Some(0)
    ensures Truthy(Field(HeadersOf(properties), "x-retry-count")) ==>
      (r.Some? <==> Field(HeadersOf(properties), "x-retry-count").value.JNum?)
  {
    var headers := Field(properties, "headers");
    var value := if headers.None? || headers == Some(JNull) then None else Get(headers.value, "x-retry-count");
    if !Truthy(value) then Some(0)
    else if value.value.JNum? then Some(value.value.n)
    else None
  }

  /** The properties of the republished copy: every old property and header
      kept, the retry count raised, the error and the retry time recorded. */
  function RetryProperties(properties: Object, retryCount: int, error: string, now: int): Object {
    var headers := Spread(HeadersOf(properties), map[
      "x-retry-count" := JNum(retryCount + 1),
      "x-last-error" := JStr(error),
      "x-last-retry-time" := JNum(now)]);
    Spread(properties, map["headers" := JObj(headers)])
  }

  /** The republished copy carries the next retry count. */
  lemma RetryCountOfRetry(properties: Object, retryCount: int, error: string, now: int)
    requires retryCount >= 0
    ensures RetryCount(RetryProperties(properties, retryCount, error, now)) == Some(retryCount + 1)
    ensures forall k :: k in HeadersOf(properties) && k !in {"x-retry-count", "x-last-error", "x-last-retry-time"} ==>
      Field(HeadersOf(RetryProperties(properties, retryCount, error, now)), k) == Field(HeadersOf(properties), k)
    ensures forall k :: k in properties && k != "headers" ==>
      Field(RetryProperties(properties, retryCount, error, now), k) == Field(properties, k)
  {
  }

  /** How the message callback settles a delivery, given how processing
      ended (`None`: the handler resolved; `Some(message)`: parsing or the
      handler threw). */
  function MessageEffects(m: Delivery, failure: Option<string>, maxRetries: int, now: int): (effects: seq<Effect>)
    ensures failure.None? ==> effects == [Ack(m.tag)]
    ensures failure.Some? ==> 1 <= |effects| <= 2 && effects[0] == Nack(m.tag, false, false)
    ensures Ack(m.tag) in effects <==> failure.None?
    ensures |effects| == 2 ==> effects[1].Publish?
  {
    match failure
    case None => [Ack(m.tag)]
    case Some(error) =>
      var retryCount := RetryCount(m.properties);
      if retryCount.Some? && retryCount.value < maxRetries then
        [Nack(m.tag, false, false),
         Publish(m.exchange, m.routingKey, m.content, RetryProperties(m.properties, retryCount.value, error, now))]
      else [Nack(m.tag, false, false)]
  }

  /** The error of reading `id` off a `null` body. */
  const NullIdError := "Cannot read properties of null (reading 'id')"

  /** How processing a delivery ends: a body that does not parse fails like
      a handler that throws, since both sit in the same `try`; so does a
      `null` body without a `messageId` property, whose `id` is read for the
      log line before the handler runs. */
  function Processing(m: Delivery, parse: string -> Option<Json>, handler: Json -> Option<string>,
                      parseError: string): (failure: Option<string>)
    ensures parse(m.content).None? ==> failure == Some(parseError)
    ensures parse(m.content).Some? && parse(m.content).value != JNull ==> failure == handler(parse(m.content).value)
    ensures parse(m.content) == Some(JNull) ==>
      failure == (if Truthy(Field(m.properties, "messageId")) then handler(JNull) else Some(NullIdError))
  {
    match parse(m.content)
    case None => Some(parseError)
    case Some(content) =>
      if content.JNull? && !Truthy(Field(m.properties, "messageId")) then Some(NullIdError)
      else handler(content)
  }

  /** A failure below the retry limit republishes the body unchanged to the
      same exchange and routing key; at or above it, or with a retry header
      that is not a number, the message is only nacked and goes to the
      dead-letter queue. */
  lemma RetryOrDeadLetter(m: Delivery, error: string, maxRetries: int, now: int)
    ensures var effects := MessageEffects(m, Some(error), maxRetries, now);
      var retryCount := RetryCount(m.properties);
      (retryCount.Some? && retryCount.value < maxRetries ==>
         |effects| == 2 && effects[1].Publish? && effects[1].exchange == m.exchange
         && effects[1].routingKey == m.routingKey && effects[1].content == m.content)
      && (!(retryCount.Some? && retryCount.value < maxRetries) ==> effects == [Nack(m.tag, false, false)])
  {
  }

  /** The delivery the broker makes of a copy the consumer published. */
  function Redelivered(m: Delivery, published: Effect): Delivery
    requires published.Publish?
  {
    Delivery(m.tag, published.exchange, published.routingKey, published.content, published.properties)
  }

  /** A failure that republishes hands on the delivery with the next retry
      count, so the chain of republishes ends. */
  lemma RepublishStep(m: Delivery, error: string, maxRetries: int, now: int)
    requires RetryCount(m.properties).Some? && RetryCount(m.properties).value >= 0
    requires |MessageEffects(m, Some(error), maxRetries, now)| == 2
    ensures var effects := MessageEffects(m, Some(error), maxRetries, now);
      RetryCount(m.properties).value < maxRetries
      && RetryCount(Redelivered(m, effects[1]).properties) == Some(RetryCount(m.properties).value + 1)
  {
    RetryCountOfRetry(m.properties, RetryCount(m.properties).value, error, now);
  }

  /** How many times a message whose processing always fails is republished
      before it is dead-lettered: the callback's own decision is applied to
      each copy it publishes, until it only nacks. */
  function Republishes(m: Delivery, error: string, now: int, maxRetries: int): nat
    requires RetryCount(m.properties).Some? && RetryCount(m.properties).value >= 0
    decreases maxRetries - RetryCount(m.properties).value
  {
    var effects := MessageEffects(m, Some(error), maxRetries, now);
    if |effects| == 2 then
      RepublishStep(m, error, maxRetries, now);
      1 + Republishes(Redelivered(m, effects[1]), error, now, maxRetries)
    else 0
  }

  /** A message that always fails is republished exactly `maxRetries` minus
      its current retry count times, so a fresh one `RetryAttempts` times. */
  lemma {:induction false} RepublishesCount(m: Delivery, error: string, now: int, maxRetries: int)
    requires RetryCount(m.properties).Some? && 0 <= RetryCount(m.properties).value <= maxRetries
    ensures Republishes(m, error, now, maxRetries) == maxRetries - RetryCount(m.properties).value
    decreases maxRetries - RetryCount(m.properties).value
  {
    var effects := MessageEffects(m, Some(error), maxRetries, now);
    if |effects| == 2 {
      RepublishStep(m, error, maxRetries, now);
      RepublishesCount(Redelivered(m, effects[1]), error, now, maxRetries);
    } else {
      RetryOrDeadLetter(m, error, maxRetries, now);
    }
  }

  /** A fresh message is retried `RetryAttempts` times. */
  lemma FreshMessageRepublishes(m: Delivery, error: string, now: int)
    requires "headers" !in m.properties
    ensures Republishes(m, error, now, RmqConfig.RetryAttempts) == RmqConfig.RetryAttempts
  {
    RepublishesCount(m, error, now, RmqConfig.RetryAttempts);
  }

  /** The reconnect delays of `n` connection errors in a row, starting from
      `attempts` earlier ones. */
  function BackoffDelays(attempts: nat, n: nat): seq<nat>
    decreases n
  {
    if n == 0 || attempts >= MaxReconnectAttempts then []
    else [ReconnectDelay * (attempts + 1)] + BackoffDelays(attempts + 1, n - 1)
  }

  /** From a fresh start, the `i`-th reconnect waits `5000 * i` ms and at
      most ten are scheduled however many errors come. */
  lemma {:induction false} BackoffSchedule(attempts: nat, n: nat)
    requires attempts <= MaxReconnectAttempts
    ensures var delays := BackoffDelays(attempts, n);
      |delays| == (if n < MaxReconnectAttempts - attempts then n else MaxReconnectAttempts - attempts)
      && forall i :: 0 <= i < |delays| ==> delays[i] == ReconnectDelay * (attempts + i + 1)
    decreases n
  {
    if n > 0 && attempts < MaxReconnectAttempts {
      BackoffSchedule(attempts + 1, n - 1);
    }
  }

  /** A run of connection errors is the first one's delay, if any, followed
      by the rest's, counted from where the first left the attempts. */
  lemma BackoffSplit(attempts: nat, n: nat)
    ensures BackoffDelays(attempts, n + 1)
      == BackoffDelays(attempts, 1) + BackoffDelays(attempts + |BackoffDelays(attempts, 1)|, n)
  {
    if attempts < MaxReconnectAttempts {
      assert BackoffDelays(attempts, 1) == [ReconnectDelay * (attempts + 1)];
    } else {
      assert BackoffDelays(attempts, 1) == [];
    }
  }

  /** The reconnects scheduled for these delays, in order. */
  function Reconnects(delays: seq<nat>): (r: seq<Effect>)
    ensures |r| == |delays| && forall i :: 0 <= i < |delays| ==> r[i] == ScheduleReconnect(delays[i])
  {
    seq(|delays|, i requires 0 <= i < |delays| => ScheduleReconnect(delays[i]))
  }

  /** The queues of `order` whose subscription succeeds, in order. */
  function Resubscriptions(order: seq<string>, fails: string -> bool): seq<Effect> {
    if order == [] then []
    else (if fails(order[0]) then [] else [Subscribe(order[0])]) + Resubscriptions(order[1..], fails)
  }

  lemma {:induction false} ResubscriptionsAppend(order: seq<string>, q: string, fails: string -> bool)
    ensures Resubscriptions(order + [q], fails) == Resubscriptions(order, fails) + (if fails(q) then [] else [Subscribe(q)])
    decreases |order|
  {
    if order != [] {
      assert (order + [q])[1..] == order[1..] + [q];
      ResubscriptionsAppend(order[1..], q, fails);
    }
  }

  /** With no failures every registered queue is subscribed again, each
      once, in first-registration order. */
  lemma {:induction false} ResubscribeAll(order: seq<string>)
    ensures Resubscriptions(order, _ => false) == seq(|order|, i requires 0 <= i < |order| => Subscribe(order[i]))
    decreases |order|
  {
    if order != [] {
      ResubscribeAll(order[1..]);
    }
  }

  class RabbitMQConsumerService {
    var reconnectAttempts: nat
    var isConnecting: bool
    var hasChannel: bool
    /** The keys of the handler map, in first-registration order. */
    var queues: seq<string>
    /** The handler registered for each queue. */
    var handlers: map<string, Json -> Option<string>>
    /** What was asked of the channel, and the reconnects scheduled, in order. */
    var effects: seq<Effect>

    /** The handler map's keys are the registered queues, each once, and the
        attempt counter never passes its limit. */
    ghost predicate Valid()
      reads this
    {
      reconnectAttempts <= MaxReconnectAttempts
      && (forall q :: q in handlers <==> q in queues)
      && forall i, j :: 0 <= i < j < |queues| ==> queues[i] != queues[j]
    }

    constructor()
      ensures Valid()
      ensures reconnectAttempts == 0 && !isConnecting && !hasChannel && queues == [] && effects == []
    {
      reconnectAttempts := 0;
      isConnecting := false;
      hasChannel := false;
      queues := [];
      handlers := map[];
      effects := [];
    }

    /** `connect` up to its first wait: it does nothing while a connect is
        under way, otherwise marks one as started. */
    method BeginConnect() returns (started: bool)
      modifies this
      ensures started <==> !old(isConnecting)
      ensures isConnecting
      ensures reconnectAttempts == old(reconnectAttempts) && hasChannel == old(hasChannel)
      ensures queues == old(queues) && handlers == old(handlers) && effects == old(effects)
    {
      if isConnecting {
        return false;
      }
      isConnecting := true;
      return true;
    }

    /** The rest of `connect`, once the broker has answered. `failure` says
        which awaited step threw, if any. On success the channel is opened
        with the prefetch count, every registered queue is subscribed again,
        and the attempt counter is reset. A failure ends the connect and
        hands over to `handleConnectionError`; the channel field is set once
        `createChannel` has answered, so a failed prefetch leaves the new
        channel in place, while an earlier failure keeps whatever channel
        there was. */
    method FinishConnect(failure: Option<ConnectStage>, consumeFails: string -> bool)
      requires Valid()
      modifies this
      ensures Valid() && !isConnecting
      ensures queues == old(queues) && handlers == old(handlers)
      ensures failure.None? ==>
        hasChannel && reconnectAttempts == 0
        && effects == old(effects) + [Prefetch(RmqConfig.PrefetchCount)] + Resubscriptions(old(queues), consumeFails)
      ensures failure.Some? ==>
        hasChannel == (old(hasChannel) || failure.value == AtPrefetch)
        && reconnectAttempts == old(reconnectAttempts) + |BackoffDelays(old(reconnectAttempts), 1)|
        && effects == old(effects) + Reconnects(BackoffDelays(old(reconnectAttempts), 1))
    {
      if failure == Some(AtPrefetch) {
        hasChannel := true;
      }
      if failure.Some? {
        isConnecting := false;
        HandleConnectionError();
        return;
      }
      hasChannel := true;
      effects := effects + [Prefetch(RmqConfig.PrefetchCount)];
      RestartConsumers(consumeFails);
      reconnectAttempts := 0;
      isConnecting := false;
    }

    /** `handleConnectionError`: below ten attempts, count one more and
        schedule a reconnect after `5000 * attempts` ms; at ten, give up.
        It is one step of `BackoffDelays`. */
    method HandleConnectionError()
      requires Valid()
      modifies this
      ensures Valid()
      ensures isConnecting == old(isConnecting) && hasChannel == old(hasChannel)
      ensures queues == old(queues) && handlers == old(handlers)
      ensures old(reconnectAttempts) < MaxReconnectAttempts ==>
        reconnectAttempts == old(reconnectAttempts) + 1
        && effects == old(effects) + [ScheduleReconnect(ReconnectDelay * reconnectAttempts)]
      ensures old(reconnectAttempts) >= MaxReconnectAttempts ==>
        reconnectAttempts == old(reconnectAttempts) && effects == old(effects)
      ensures reconnectAttempts == old(reconnectAttempts) + |BackoffDelays(old(reconnectAttempts), 1)|
      ensures effects == old(effects) + Reconnects(BackoffDelays(old(reconnectAttempts), 1))
    {
      if reconnectAttempts < MaxReconnectAttempts {
        assert BackoffDelays(reconnectAttempts, 1) == [ReconnectDelay * (reconnectAttempts + 1)];
        reconnectAttempts := reconnectAttempts + 1;
        effects := effects + [ScheduleReconnect(ReconnectDelay * reconnectAttempts)];
      }
    }

    /** `consume`: without a channel it fails and registers nothing. With
        one, the handler is registered (replacing an earlier one for the
        queue, which keeps its place) before the channel is asked to deliver;
        `subscribeFails` says whether the channel refused. */
    method Consume(queue: string, handler: Json -> Option<string>, subscribeFails: bool)
      returns (r: Result<(), string>)
      requires Valid()
      modifies this
      ensures Valid()
      ensures reconnectAttempts == old(reconnectAttempts) && isConnecting == old(isConnecting)
      ensures hasChannel == old(hasChannel)
      ensures !old(hasChannel) ==>
        r == Err("Channel is not available") && queues == old(queues) && handlers == old(handlers)
        && effects == old(effects)
      ensures old(hasChannel) ==>
        handlers == old(handlers)[queue := handler]
        && queues == (if queue in old(handlers) then old(queues) else old(queues) + [queue])
        && (subscribeFails ==> r.Err? && effects == old(effects))
        && (!subscribeFails ==> r.Ok? && effects == old(effects) + [Subscribe(queue)])
    {
      if !hasChannel {
        return Err("Channel is not available");
      }
      if queue !in handlers {
        queues := queues + [queue];
      }
      handlers := handlers[queue := handler];
      if subscribeFails {
        return Err("Channel refused to consume from " + queue);
      }
      effects := effects + [Subscribe(queue)];
      return Ok(());
    }

    /** `restartConsumers`: every registered queue is subscribed again with
        its own handler, in registration order; a queue the channel refuses
        is skipped and the rest go on. */
    method RestartConsumers(consumeFails: string -> bool)
      requires Valid() && hasChannel
      modifies this
      ensures Valid()
      ensures reconnectAttempts == old(reconnectAttempts) && isConnecting == old(isConnecting) && hasChannel
      ensures queues == old(queues) && handlers == old(handlers)
      ensures effects == old(effects) + Resubscriptions(old(queues), consumeFails)
    {
      var order := queues;
      for i := 0 to |order|
        invariant Valid() && hasChannel
        invariant reconnectAttempts == old(reconnectAttempts) && isConnecting == old(isConnecting)
        invariant queues == order && handlers == old(handlers)
        invariant effects == old(effects) + Resubscriptions(order[..i], consumeFails)
      {
        var queue := order[i];
        assert queue in handlers;
        var _ := Consume(queue, handlers[queue], consumeFails(queue));
        assert handlers[queue := old(handlers)[queue]] == old(handlers);
        ResubscriptionsAppend(order[..i], queue, consumeFails);
        assert order[..i + 1] == order[..i] + [queue];
      }
      assert order[..|order|] == order;
    }

    /** The message callback: an empty delivery is ignored; otherwise the
        body is parsed and handled, and the delivery is settled. `maxRetries`
        is the configured `rmq.retryAttempts`. */
    method OnMessage(delivery: Option<Delivery>, parse: string -> Option<Json>, handler: Json -> Option<string>,
                     parseError: string, maxRetries: int, now: int)
      modifies this
      ensures reconnectAttempts == old(reconnectAttempts) && isConnecting == old(isConnecting)
      ensures hasChannel == old(hasChannel) && queues == old(queues) && handlers == old(handlers)
      ensures delivery.None? ==> effects == old(effects)
      ensures delivery.Some? ==>
        effects == old(effects) + MessageEffects(delivery.value, Processing(delivery.value, parse, handler, parseError),
                                                 maxRetries, now)
    {
      if delivery.None? {
        return;
      }
      var m := delivery.value;
      var failure := Processing(m, parse, handler, parseError);
      effects := effects + MessageEffects(m, failure, maxRetries, now);
    }
  }
}
