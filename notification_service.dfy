/** The notification router: every message from the billing and renewal
    services is turned into SMS and webhook jobs according to its event type,
    and the workers' outcomes are buffered in Redis lists for the result
    schedulers. */
module Notification {
  import opened Wrappers
  import opened Json
  import opened NotificationConstants
  import opened RedisStore
  import RmqConfig
  import RabbitConsumer

  /** The Redis list the SMS worker's results are appended to. */
  const SmsResultsKey: string := "notification_sms_results"
  /** The Redis list the webhook worker's results are appended to. */
  const WebhookResultsKey: string := "notification_webhook_results"

  const SmsJobName: string := "sms-notification"
  const WebhookJobName: string := "webhook-notification"

  /** The job priority for an event type with no entry of its own. */
  const DefaultPriority: int := 10

  datatype Action = Sms | Webhook | SmsConditional

  /** `NOTIFICATION_ACTIONS_MAP`, which has an entry for every event type. */
  function ActionsFor(e: EventType): seq<Action> {
    match e
    case RenewSuccess => [SmsConditional, Webhook]
    case RenewFail => [Webhook]
    case SubscriptionSuccess => [Sms, Webhook]
    case SubscriptionFail => [Webhook]
    case SubscriptionCancel => [Webhook]
    case UnsubscriptionSuccess => [Sms, Webhook]
    case UnsubscriptionFail => []
    case PreRenewalAlert => [Sms]
  }

  /** The properties every plain object inherits from `Object.prototype`: a
      lookup of one of these names in an object literal finds a function (or,
      for `__proto__`, the prototype itself) rather than `undefined`. */
  const InheritedNames: set<string> := {
    "constructor", "hasOwnProperty", "isPrototypeOf", "propertyIsEnumerable",
    "toLocaleString", "toString", "valueOf", "__proto__",
    "__defineGetter__", "__defineSetter__", "__lookupGetter__", "__lookupSetter__"
  }

  /** What `NOTIFICATION_ACTIONS_MAP[eventType]` finds. */
  datatype Lookup = Own(actions: seq<Action>) | InheritedMember | Undefined

  function LookupActions(eventType: string): Lookup {
    match Parse(eventType)
    case Some(e) => Own(ActionsFor(e))
    case None => if eventType in InheritedNames then InheritedMember else Undefined
  }

  /** The fields of `NotificationPayload` the router and the workers read;
      `billingCycleDays` and `amount` are integers here. */
  datatype NotificationPayload = NotificationPayload(
    id: string,
    source: string,
    subscriptionId: string,
    merchantTransactionId: string,
    keyword: string,
    msisdn: string,
    paymentProvider: string,
    eventType: string,
    amount: int,
    currency: string,
    billingCycleDays: int,
    timestamp: int)

  datatype JobOptions = JobOptions(jobId: string, removeOnComplete: bool, removeOnFail: bool, priority: int)

  /** `getJobOptions`. (For an inherited name the priority lookup would find
      a function, but such a payload never reaches an enqueue.) */
  function GetJobOptions(eventType: string, subscriptionId: string): JobOptions {
    JobOptions(subscriptionId, true, false,
               match Parse(eventType) case Some(e) => Priority(e) case None => DefaultPriority)
  }

  /** One `queue.add(name, payload, options)` call. */
  datatype QueueAdd = QueueAdd(queue: string, name: string, payload: NotificationPayload, options: JobOptions)

  /** The jobs one action enqueues. */
  function JobFor(action: Action, n: NotificationPayload, options: JobOptions): seq<QueueAdd> {
    match action
    case Sms => [QueueAdd(SmsQueue, SmsJobName, n, options)]
    case Webhook => [QueueAdd(WebhookQueue, WebhookJobName, n, options)]
    case SmsConditional => if n.billingCycleDays > 7 then [QueueAdd(SmsQueue, SmsJobName, n, options)] else []
  }

  /** The jobs an action list enqueues, in list order. */
  function JobsFor(actions: seq<Action>, n: NotificationPayload, options: JobOptions): seq<QueueAdd> {
    if actions == [] then [] else JobFor(actions[0], n, options) + JobsFor(actions[1..], n, options)
  }

  /** The enqueue calls `processNotification` makes for a payload, or the
      error it rethrows. */
  function PlannedJobs(n: NotificationPayload): Result<seq<QueueAdd>, string> {
    match LookupActions(n.eventType)
    case Own(actions) => Ok(JobsFor(actions, n, GetJobOptions(n.eventType, n.subscriptionId)))
    case InheritedMember => Err("actions is not iterable")
    case Undefined => Ok([])
  }

  function QueuesOf(jobs: seq<QueueAdd>): seq<string> {
    if jobs == [] then [] else [jobs[0].queue] + QueuesOf(jobs[1..])
  }

  lemma {:induction false} JobsForAppend(a: seq<Action>, b: seq<Action>, n: NotificationPayload, options: JobOptions)
    ensures JobsFor(a + b, n, options) == JobsFor(a, n, options) + JobsFor(b, n, options)
    decreases |a|
  {
    if a != [] {
      assert (a + b)[1..] == a[1..] + b;
      JobsForAppend(a[1..], b, n, options);
    } else {
      assert a + b == b;
    }
  }

  /** Every job carries the payload itself and the same options, and the job
      name matches the queue: SMS jobs go to the SMS queue, webhook jobs to
      the webhook queue. */
  lemma {:induction false} JobsForShape(actions: seq<Action>, n: NotificationPayload, options: JobOptions)
    ensures forall j :: j in JobsFor(actions, n, options) ==>
      j.payload == n && j.options == options
      && ((j.queue == SmsQueue && j.name == SmsJobName) || (j.queue == WebhookQueue && j.name == WebhookJobName))
    ensures |JobsFor(actions, n, options)| <= |actions|
    decreases |actions|
  {
    if actions != [] {
      JobsForShape(actions[1..], n, options);
    }
  }

  /** Every job `processNotification` enqueues is keyed by the subscription,
      kept on failure, removed on completion, and prioritised by its event
      type's own entry: the fallback priority never applies to an enqueued job. */
  lemma PlannedJobOptions(n: NotificationPayload)
    requires PlannedJobs(n).Ok?
    ensures forall j :: j in PlannedJobs(n).value ==>
      j.payload == n && j.options.jobId == n.subscriptionId
      && j.options.removeOnComplete && !j.options.removeOnFail
      && Parse(n.eventType).Some? && j.options.priority == Priority(Parse(n.eventType).value)
  {
    var options := GetJobOptions(n.eventType, n.subscriptionId);
    if Parse(n.eventType).Some? {
      JobsForShape(ActionsFor(Parse(n.eventType).value), n, options);
    }
  }

  lemma {:induction false} QueuesOfJobsFor(actions: seq<Action>, n: NotificationPayload, options: JobOptions)
    ensures QueuesOf(JobsFor(actions, n, options)) == QueueList(actions, n.billingCycleDays > 7)
    decreases |actions|
  {
    if actions != [] {
      QueuesOfJobsFor(actions[1..], n, options);
      QueuesOfAppend(JobFor(actions[0], n, options), JobsFor(actions[1..], n, options));
    }
  }

  lemma {:induction false} QueuesOfAppend(a: seq<QueueAdd>, b: seq<QueueAdd>)
    ensures QueuesOf(a + b) == QueuesOf(a) + QueuesOf(b)
    decreases |a|
  {
    if a != [] {
      assert (a + b)[1..] == a[1..] + b;
      QueuesOfAppend(a[1..], b);
    } else {
      assert a + b == b;
    }
  }

  /** The queues an action list addresses, read independently of the jobs. */
  function QueueList(actions: seq<Action>, longCycle: bool): seq<string> {
    if actions == [] then []
    else
      (match actions[0]
       case Sms => [SmsQueue]
       case Webhook => [WebhookQueue]
       case SmsConditional => if longCycle then [SmsQueue] else [])
      + QueueList(actions[1..], longCycle)
  }

  /** The queues each event type should reach, in order, written out case by
      case: a renewal sends an SMS only for billing cycles longer than a week. */
  function ExpectedQueues(e: EventType, longCycle: bool): seq<string> {
    if e == RenewSuccess then (if longCycle then [SmsQueue, WebhookQueue] else [WebhookQueue])
    else if e in {SubscriptionSuccess, UnsubscriptionSuccess} then [SmsQueue, WebhookQueue]
    else if e in {RenewFail, SubscriptionFail, SubscriptionCancel} then [WebhookQueue]
    else if e == PreRenewalAlert then [SmsQueue]
    else []
  }

  /** The router's table sends every event type to the expected queues. */
  lemma QueuesPerEventType(e: EventType, n: NotificationPayload)
    requires n.eventType == Name(e)
    ensures PlannedJobs(n).Ok?
    ensures QueuesOf(PlannedJobs(n).value) == ExpectedQueues(e, n.billingCycleDays > 7)
  {
    ParseName(e);
    var actions := ActionsFor(e);
    var longCycle := n.billingCycleDays > 7;
    QueuesOfJobsFor(actions, n, GetJobOptions(n.eventType, n.subscriptionId));
    if |actions| == 2 {
      assert QueueList(actions[1..][1..], longCycle) == [];
      assert QueueList(actions[1..], longCycle) == [WebhookQueue];
    } else if |actions| == 1 {
      assert QueueList(actions[1..], longCycle) == [];
    }
  }

  /** A renewal with an 8-day cycle enqueues an SMS and then a webhook; with a
      7-day cycle only the webhook. */
  lemma RenewalSmsThreshold(n: NotificationPayload)
    requires n.eventType == Name(RenewSuccess)
    ensures n.billingCycleDays == 8 ==>
      (PlannedJobs(n).Ok? && |PlannedJobs(n).value| == 2 && PlannedJobs(n).value[0].queue == SmsQueue
       && PlannedJobs(n).value[1].queue == WebhookQueue)
    ensures n.billingCycleDays == 7 ==>
      (PlannedJobs(n).Ok? && |PlannedJobs(n).value| == 1 && PlannedJobs(n).value[0].queue == WebhookQueue)
  {
    ParseName(RenewSuccess);
    var actions := ActionsFor(RenewSuccess);
    var options := GetJobOptions(n.eventType, n.subscriptionId);
    assert JobsFor(actions[1..][1..], n, options) == [];
    assert JobsFor(actions[1..], n, options) == [QueueAdd(WebhookQueue, WebhookJobName, n, options)];
  }

  /** A text that names no event type enqueues nothing and succeeds, unless
      it is a name every object inherits: then the lookup finds a value that
      is not iterable and the handler fails. */
  lemma UnknownEventTypes(n: NotificationPayload)
    requires Parse(n.eventType).None?
    ensures n.eventType !in InheritedNames ==> PlannedJobs(n) == Ok([])
    ensures n.eventType in InheritedNames ==> PlannedJobs(n).Err?
  {
  }

  /** The two BullMQ queues, seen as the record of `add` calls made on them. */
  class JobQueues {
    var adds: seq<QueueAdd>

    constructor()
      ensures adds == []
    {
      adds := [];
    }

    method Add(queue: string, name: string, payload: NotificationPayload, options: JobOptions)
      modifies this
      ensures adds == old(adds) + [QueueAdd(queue, name, payload, options)]
    {
      adds := adds + [QueueAdd(queue, name, payload, options)];
    }
  }

  class NotificationService {
    const queues: JobQueues
    const redis: RedisLists

    constructor(queues: JobQueues, redis: RedisLists)
      ensures this.queues == queues && this.redis == redis
    {
      this.queues := queues;
      this.redis := redis;
    }

    /** `onModuleInit`: consumes the subscriptions queue, then the renewals
        queue, each with `processNotification` bound to the queue's name
        (`handler`); a failure to consume the first is rethrown before the
        second is tried. `fails` says which queues the channel refuses. */
    method OnModuleInit(consumer: RabbitConsumer.RabbitMQConsumerService, handler: string -> Json -> Option<string>,
                        fails: string -> bool)
      returns (r: Result<(), string>)
      requires consumer.Valid()
      modifies consumer
      ensures consumer.Valid()
      ensures !old(consumer.hasChannel) ==>
        r.Err? && consumer.handlers == old(consumer.handlers) && consumer.effects == old(consumer.effects)
      ensures old(consumer.hasChannel) && fails(RmqConfig.SubscriptionsQueue) ==>
        r.Err? && consumer.handlers == old(consumer.handlers)[RmqConfig.SubscriptionsQueue := handler(RmqConfig.SubscriptionsQueue)]
        && consumer.effects == old(consumer.effects)
      ensures old(consumer.hasChannel) && !fails(RmqConfig.SubscriptionsQueue) ==>
        r.Err? == fails(RmqConfig.RenewalsQueue)
        && consumer.handlers == old(consumer.handlers)[RmqConfig.SubscriptionsQueue := handler(RmqConfig.SubscriptionsQueue)]
                                                     [RmqConfig.RenewalsQueue := handler(RmqConfig.RenewalsQueue)]
        && consumer.effects == old(consumer.effects) + [RabbitConsumer.Subscribe(RmqConfig.SubscriptionsQueue)]
             + (if fails(RmqConfig.RenewalsQueue) then [] else [RabbitConsumer.Subscribe(RmqConfig.RenewalsQueue)])
    {
      var subscriptions := RmqConfig.SubscriptionsQueue;
      r := consumer.Consume(subscriptions, handler(subscriptions), fails(subscriptions));
      if r.Err? {
        return;
      }
      var renewals := RmqConfig.RenewalsQueue;
      r := consumer.Consume(renewals, handler(renewals), fails(renewals));
    }

    /** `processNotification`: enqueues the jobs of the event type's actions,
        in order; the outcome of each enqueue is discarded (`allSettled`). */
    method ProcessNotification(n: NotificationPayload) returns (r: Result<(), string>)
      modifies queues
      ensures PlannedJobs(n).Ok? ==> r.Ok? && queues.adds == old(queues.adds) + PlannedJobs(n).value
      ensures PlannedJobs(n).Err? ==> r.Err? && queues.adds == old(queues.adds)
    {
      var lookup := LookupActions(n.eventType);
      if lookup.Undefined? {
        return Ok(());
      }
      var options := GetJobOptions(n.eventType, n.subscriptionId);
      if lookup.InheritedMember? {
        return Err("actions is not iterable");
      }
      var actions := lookup.actions;
      for i := 0 to |actions|
        invariant queues.adds == old(queues.adds) + JobsFor(actions[..i], n, options)
      {
        JobsForAppend(actions[..i], [actions[i]], n, options);
        assert actions[..i + 1] == actions[..i] + [actions[i]];
        match actions[i]
        case Sms =>
          queues.Add(SmsQueue, SmsJobName, n, options);
        case Webhook =>
          queues.Add(WebhookQueue, WebhookJobName, n, options);
        case SmsConditional =>
          if n.billingCycleDays > 7 {
            queues.Add(SmsQueue, SmsJobName, n, options);
          }
      }
      assert actions[..|actions|] == actions;
      return Ok(());
    }

    /** `publishSmsNotificationResult`: one serialized entry at the tail of
        the SMS result list. */
    method PublishSmsNotificationResult(result: Object, stringify: Json -> string)
      modifies redis
      ensures redis.lists == old(redis.lists)[SmsResultsKey := old(redis.List(SmsResultsKey)) + [stringify(JObj(result))]]
    {
      redis.RPush(SmsResultsKey, stringify(JObj(result)));
    }

    /** `publishWebhookNotificationResult`: nothing for a `null` result,
        otherwise one serialized entry at the tail of the webhook result list. */
    method PublishWebhookNotificationResult(result: Option<Json>, stringify: Json -> string)
      modifies redis
      ensures !Truthy(result) ==> redis.lists == old(redis.lists)
      ensures Truthy(result) ==>
        redis.lists == old(redis.lists)[WebhookResultsKey := old(redis.List(WebhookResultsKey)) + [stringify(result.value)]]
    {
      if !Truthy(result) {
        return;
      }
      redis.RPush(WebhookResultsKey, stringify(result.value));
    }
  }
}
