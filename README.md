# Notification dispatch — a Dafny model

The notification service listens on two RabbitMQ queues, one for the billing
service and one for the renewal service. Every message is a payment event of a
subscription, such as `subscription.success`, `renew.fail` or
`pre.renewal.alert`.

The router turns each message into BullMQ jobs according to a fixed table:
- an SMS job, for some event types;
- a webhook job, for others;
- for a successful renewal, an SMS only when the billing cycle is longer than
  a week.

The SMS sender builds the text from a template and sends it through the one
configured operator, `GP`. The webhook sender does four things:
1. looks the product's webhook config up, first in a Redis cache and then in
   the product table;
2. calls the merchant's URL, with a POST body or a GET query and optional
   Basic credentials;
3. classifies the answer as delivered, failed or timed out;
4. returns a result record.

Both workers' results go onto Redis lists. Every thirty seconds a scheduler
drains each list, up to a batch size, into one bulk insert of log rows.

The consumer settles each delivery in one of three ways:
- it acks the delivery when the handler succeeds;
- on a failure below the retry limit, it nacks the delivery and republishes
  a copy with a raised `x-retry-count` header;
- once the limit is reached, it only nacks, which dead-letters the message.

It reconnects with a linear backoff of `5000 * n` ms, at most ten times.
After a reconnect it subscribes every registered queue again.

## How the model is built

There is one module per core source file.
- Code that changes state is a class with the state the source keeps:
  - the consumer's attempt counter, connect flag, handler map and channel;
  - the product cache;
  - the Redis lists;
  - the job queues;
  - the bulk-insert tables.

  Its methods are proved against specification functions, and the lemmas
  are about those functions.
- Whatever the service asks of the channel, a queue or a table is recorded as
  an append-only log, for example `effects` or `adds`.
- JavaScript values are modelled by `Json`:
  - `undefined` is `None`;
  - truthiness, spread, `??` and `String(v)` are written out.

Helper modules model library behaviour the core relies on:
- `Strings`: decimal text and splitting on a separator;
- `Utf8` and `Base64`: `Buffer.from(text).toString('base64')` (RFC 4648,
  section 4);
- `UriComponent`: `encodeURIComponent`, and `URLSearchParams` serialization
  as `application/x-www-form-urlencoded`.

The model takes these from outside, as parameters:
- clock readings;
- `JSON.parse`/`JSON.stringify`;
- the HTTP client;
- the GP sender;
- whether a broker, channel or database call fails.

Where the code and the interface types disagree, the model follows the code:
- `NOTIFICATION_ACTIONS_MAP[eventType]` is an object-literal lookup. A name
  that every object inherits, such as `toString` or `constructor`, finds a
  non-iterable value, and the handler fails. Any other unknown name is
  skipped.
- In the consumer, a body that parses to `null` and has no `messageId` fails
  before the handler runs, because `content.id` is read for the log line.
- Auth headers are only ever sent with a POST. A GET request is made with
  the URL alone.
- `failedAt` is set exactly when the status is not 2xx. A timeout that still
  carries a 2xx status therefore has no failure time.
- An SMS result without a `responseStatus` (the GP sender answered
  `undefined`) makes the SMS scheduler's `toString()` call throw. That row
  is dropped.
- The sample SMS templates have no `{{…}}` placeholders, so the amount and
  the subscription never appear in the text.
- `recordWebhookNotifications` (src/webhook/webhook.service.ts:241-245)
  passes the batch to a repository's `createMany`, which is modelled as a
  bulk insert that may fail (`Persistence.BulkStore.CreateMany`). The SMS
  scheduler calls `recordSmsLogs`, which `SmsService` does not define. It is
  modelled as the same kind of bulk insert.
- The `data` record built in `getWebhookConfig` is never used. The stored
  config itself is cached and returned, with `hasAuth` written into it.

## Model

| member | source | states |
|---|---|---|
| RmqConfig.ParseUrlOfUrl | src/config/rmq.config.ts:18-22 | the connection URL gives back host, port, user and password unchanged, even when the user or password contains `:`, `@` or `/`, because both are percent-encoded |
| RmqConfig.UrlShape | src/config/rmq.config.ts:18-22 | the URL is `amqp://` followed by the encoded user, `:`, the encoded password, `@`, the host, `:` and the port |
| RmqConfig.Constants | src/config/rmq.config.ts:10-16 | the two inbound queues are different; three retries, a 5000 ms retry delay and a prefetch of 100 |
| NotificationConstants.ParseName | src/notification/notification.service.ts:18-26 | every event type is read back from its name, so no two event types share a name |
| NotificationConstants.NameParse | src/notification/notification.service.ts:18-26 | a text that is read as an event type is exactly that event type's name |
| NotificationConstants.QueuesDistinct | src/notification/notification.constants.ts:1-4 | the SMS and webhook job queues are different queues |
| NotificationConstants.PriorityOrder | src/notification/notification.constants.ts:6-15 | subscription and unsubscription events have priority 1, the pre-renewal alert 5, renewals 10 (each an if-and-only-if) |
| Notification.JobsForShape | src/notification/notification.service.ts:165-195 | every job carries the payload and the shared options; SMS jobs go to the SMS queue, webhook jobs to the webhook queue; never more jobs than actions |
| Notification.PlannedJobOptions | src/notification/notification.service.ts:132-142 | every enqueued job has the subscription id as job id, is removed on completion, kept on failure, and has its event type's own priority (the fallback 10 never applies) |
| Notification.QueuesOfJobsFor | src/notification/notification.service.ts:170-195 | the queues the loop addresses are those an independent per-action reading of the table gives, in order |
| Notification.QueuesPerEventType | src/notification/notification.service.ts:49-61 | each event type reaches exactly its expected queues in order: renewal SMS only for cycles over 7 days, subscription/unsubscription success SMS then webhook, failures and cancel webhook only, pre-renewal alert SMS only, unsubscription failure nothing |
| Notification.RenewalSmsThreshold | src/notification/notification.service.ts:182-189 | a renewal with an 8-day cycle enqueues SMS then webhook; with a 7-day cycle only the webhook |
| Notification.UnknownEventTypes | src/notification/notification.service.ts:155-163 | a text naming no event type enqueues nothing and succeeds, except an inherited object member name, for which the handler fails |
| Notification.JobQueues.Add | src/notification/notification.service.ts:173 | an `add` call appends exactly one job record |
| Notification.NotificationService.OnModuleInit | src/notification/notification.service.ts:76-126 | subscriptions queue first, then renewals, each with its own handler; no channel or a refused first queue stops before the second; the subscriptions issued are exactly those not refused |
| Notification.NotificationService.ProcessNotification | src/notification/notification.service.ts:144-205 | the jobs enqueued are exactly the planned jobs in order; an inherited member name is an error that enqueues nothing |
| Notification.NotificationService.PublishSmsNotificationResult | src/notification/notification.service.ts:207-216 | one serialized entry is appended to the SMS result list and nothing else changes |
| Notification.NotificationService.PublishWebhookNotificationResult | src/notification/notification.service.ts:218-232 | a `null` result changes nothing; otherwise one serialized entry is appended to the webhook result list |
| RabbitConsumer.RetryCount | src/common/rabbitmq/rabbitmq.service.ts:219 | a missing or falsy `x-retry-count` header counts as 0; a truthy one is usable exactly when it is a number |
| RabbitConsumer.RetryCountOfRetry | src/common/rabbitmq/rabbitmq.service.ts:225-245 | the republished copy carries retry count + 1 and keeps every other header and property |
| RabbitConsumer.MessageEffects | src/common/rabbitmq/rabbitmq.service.ts:206-256 | a delivery is acked if and only if processing succeeded; a failure is always nacked without requeue, and may be followed by one republish, which is then the second effect |
| RabbitConsumer.Processing | src/common/rabbitmq/rabbitmq.service.ts:197-208 | a body that does not parse fails like a throwing handler; a parsed non-null body fails exactly as the handler does; a `null` body fails before the handler unless the delivery has a `messageId` |
| RabbitConsumer.RetryOrDeadLetter | src/common/rabbitmq/rabbitmq.service.ts:220-256 | below the retry limit the same body is republished to the same exchange and routing key; otherwise, or with a non-numeric count, only a nack (dead-letter) |
| RabbitConsumer.RepublishesCount | src/common/rabbitmq/rabbitmq.service.ts:219-247 | following the callback's own decision (`MessageEffects`) on each copy it republishes, a message that always fails is republished exactly `maxRetries - retryCount` times before it is dead-lettered |
| RabbitConsumer.RepublishStep | src/common/rabbitmq/rabbitmq.service.ts:225-247 | a failure that republishes happens only below the retry limit, and the copy it publishes carries the next retry count |
| RabbitConsumer.FreshMessageRepublishes | src/common/rabbitmq/rabbitmq.service.ts:219-223 | a message without headers is retried exactly `RetryAttempts` (3) times |
| RabbitConsumer.BackoffSchedule | src/common/rabbitmq/rabbitmq.service.ts:89-104 | consecutive connection errors schedule at most 10 reconnects in total, the i-th after `5000 * i` ms |
| RabbitConsumer.BackoffSplit | src/common/rabbitmq/rabbitmq.service.ts:89-104 | the delays of n+1 errors are the first error's delay, if any, followed by those of n errors from the attempt count it left, so repeated `HandleConnectionError` steps schedule exactly `BackoffDelays` |
| RabbitConsumer.ResubscribeAll | src/common/rabbitmq/rabbitmq.service.ts:267-279 | without refusals, every registered queue is subscribed again once, in registration order |
| RabbitConsumer.RabbitMQConsumerService.constructor | src/common/rabbitmq/rabbitmq.service.ts:19-23 | no attempts, not connecting, no channel, no handlers |
| RabbitConsumer.RabbitMQConsumerService.BeginConnect | src/common/rabbitmq/rabbitmq.service.ts:35-40 | a connect under way makes a new one do nothing; otherwise one is marked as started |
| RabbitConsumer.RabbitMQConsumerService.FinishConnect | src/common/rabbitmq/rabbitmq.service.ts:42-85 | success sets the prefetch, re-subscribes every registered queue and resets the attempts; a failure at `connect`, `createChannel` or `prefetch` ends the connect and takes one backoff step, with the new channel kept only once `createChannel` answered; the handler map is kept |
| RabbitConsumer.RabbitMQConsumerService.HandleConnectionError | src/common/rabbitmq/rabbitmq.service.ts:89-104 | below ten attempts, one more is counted and a reconnect is scheduled after `5000 * attempts` ms; at ten nothing happens; the reconnects it schedules are one step of `BackoffDelays` |
| RabbitConsumer.RabbitMQConsumerService.Consume | src/common/rabbitmq/rabbitmq.service.ts:180-265 | without a channel it fails and registers nothing; otherwise the handler replaces any earlier one for the queue (keeping its place) before the subscription, which may be refused |
| RabbitConsumer.RabbitMQConsumerService.RestartConsumers | src/common/rabbitmq/rabbitmq.service.ts:267-279 | every registered queue is subscribed again with its own handler in order; a refused queue is skipped and the rest go on; the registrations are unchanged |
| RabbitConsumer.RabbitMQConsumerService.OnMessage | src/common/rabbitmq/rabbitmq.service.ts:189-257 | an empty delivery does nothing; otherwise it settles the delivery as `MessageEffects` of how processing ended |
| SmsTemplates.GetTemplate | src/sms/sms-template.service.ts:5-7 | the body is the definition, `sample` + event type + `:` + operator + ` template`; the ensures only gives its length |
| SmsTemplates.PopulateTemplate | src/sms/sms-template.service.ts:9-22 | the loop applies each variable in entry order to the text the earlier ones left, replacing every occurrence of its placeholder |
| SmsTemplates.PopulateAbsent | src/sms/sms-template.service.ts:13-21 | variables whose placeholders do not occur leave the template unchanged |
| SmsTemplates.PopulateSampleTemplate | src/sms/sms-template.service.ts:5-22 | a sample template whose event type and operator have no `{` is left unchanged by populating |
| SmsTemplates.SequentialSubstitution | src/sms/sms-template.service.ts:13-21 | for any two variables, a text that is the first key's placeholder becomes the first value with every placeholder of the second key in it replaced: a value containing a later key's placeholder has it replaced too |
| SmsDispatch.AmountText | src/sms/sms.service.ts:62 | a whole amount is written with two decimals, `.00` |
| SmsDispatch.SmsResultFields | src/sms/sms.service.ts:82-88 | the notification's subscription, event type, text and provider win over the sender's answer; every other property of the answer is kept |
| SmsDispatch.MessageBodyIsTemplate | src/sms/sms.service.ts:55-65 | the text sent is the sample template itself: the amount and the subscription do not appear in it |
| SmsDispatch.SmsService.SendNotificationSms | src/sms/sms.service.ts:47-100 | a provider other than `GP` is a configuration error and sends nothing; `GP` sends the populated text once, and the result is the answer with the notification's fields laid over it |
| ResultBuffer.DrainSkipping | src/schedulers/sms-result.scheduler.ts:68-91 | a tick pops no more than the batch size or the list length, never aborts, and yields at most one row per pop |
| ResultBuffer.DrainAborting | src/schedulers/webhook-result.scheduler.ts:56-65 | a tick pops no more than the batch size or the list length and yields at most one row per pop |
| ResultBuffer.DrainSkippingPops | src/schedulers/sms-result.scheduler.ts:68-91 | without empty entries the SMS tick pops the smaller of the batch size and the list length, and batches every readable entry of them in order |
| ResultBuffer.DrainLeavesRest | src/schedulers/sms-result.scheduler.ts:62-68 | 1500 buffered results and a batch size of 1000 leave exactly 500 for the next tick |
| ResultBuffer.FirstUnreadable | src/schedulers/webhook-result.scheduler.ts:62-63 | the index found is of an unreadable entry with only readable ones before it; none means every entry is readable |
| ResultBuffer.DrainAbortingOutcome | src/schedulers/webhook-result.scheduler.ts:56-65 | without empty entries the webhook tick aborts exactly when an entry within the batch cannot be read, having popped through that entry; otherwise it pops as much as the SMS tick and batches all of them |
| SmsResultScheduler.TransformResultToLog | src/schedulers/sms-result.scheduler.ts:27-52 | a row exists exactly for an object with a non-null response status; it copies subscription, text, type and provider; sent/delivered dates are null exactly when falsy |
| SmsResultScheduler.RowOfSmsResult | src/schedulers/sms-result.scheduler.ts:27-52 | a published SMS result makes a row exactly when the sender's answer had a response status, and the row names the notification's subscription, text, type and provider |
| SmsResultScheduler.PopBatch | src/schedulers/sms-result.scheduler.ts:68-91 | the loop's batch and the entries it removes from the head of the list are those of `DrainSkipping` |
| SmsResultScheduler.ProcessSmsResults | src/schedulers/sms-result.scheduler.ts:57-131 | popped entries are gone; an empty batch makes no insert; otherwise one bulk insert of the batch, whose failure is swallowed |
| WebhookResultScheduler.TransformResultToLog | src/schedulers/webhook-result.scheduler.ts:24-44 | only a `null` result throws; the row copies merchant, product, URL, subscription, duration and status; the failure date is null exactly when falsy |
| WebhookResultScheduler.RowOfDeliveryResult | src/schedulers/webhook-result.scheduler.ts:24-44 | a delivery result always makes a row naming the subscription as related order, with its delivery status and a failure date exactly when the answer was not 2xx |
| WebhookResultScheduler.PopBatch | src/schedulers/webhook-result.scheduler.ts:56-65 | the loop's batch, abort flag and removed entries are those of `DrainAborting` |
| WebhookResultScheduler.ProcessWebhookResults | src/schedulers/webhook-result.scheduler.ts:46-74 | an unreadable entry fails the tick before any insert, with the entries popped so far lost; an empty batch inserts nothing; otherwise one bulk insert whose failure is the tick's |
| ProductConfig.CacheKey | src/product/product.service.ts:31 | the body is the definition, `product:webhook_config:` + keyword + `:` + event; the ensures gives the prefix and the length, and `CacheKeyInjective` what the key determines |
| ProductConfig.CacheKeyInjective | src/product/product.service.ts:31 | keywords without a colon never share a cache key: the key determines keyword and event |
| ProductConfig.WithHasAuth | src/product/product.service.ts:58-59 | the config gains exactly `hasAuth`, true if and only if both credentials are truthy; every other property is kept |
| ProductConfig.FromDatabase | src/product/product.service.ts:42-59 | a missing product and a missing config are the two not-found errors; otherwise the stored config with `hasAuth` |
| ProductConfig.HasAuthOfStrings | src/product/product.service.ts:58-59 | with text credentials, `hasAuth` holds if and only if neither is empty |
| ProductConfig.NoAuthWithoutUser | src/product/product.service.ts:58-59 | a missing credential means no auth |
| ProductConfig.WithHasAuthIdempotent | src/product/product.service.ts:58-59 | deriving `hasAuth` again on an already derived config changes nothing |
| ProductConfig.LookupTwice | src/product/product.service.ts:34-77 | after a successful lookup the config is cached, and the same lookup again is a hit giving the same config and writing nothing |
| ProductConfig.ProductService.GetWebhookConfig | src/product/product.service.ts:27-98 | a hit returns the cached config with no table lookup or write; a miss looks the keyword up and caches only a found config, for 900 seconds |
| ProductConfig.AuthHeaders | src/product/product.service.ts:100-111 | exactly `headers` (Authorization and JSON content type) and a 5000 ms `timeout` |
| ProductConfig.AuthHeadersDecode | src/product/product.service.ts:100-111 | the Authorization value is `Basic` plus a base 64 text that decodes back to `user:password` |
| WebhookDelivery.PrepareRequestParams | src/webhook/webhook.service.ts:93-112 | the reason is empty, the tracking id is the subscription, the billing id is the merchant transaction, and the lifecycle is `Ended` exactly for `unsubscription.success` |
| WebhookDelivery.WebhookEventOfEventType | src/webhook/webhook.service.ts:68-97 | renewals are reported as `rebill`, subscriptions and unsubscriptions as themselves, the pre-renewal alert as `unknown`; the status is each name's second segment |
| WebhookDelivery.EventWithoutDot | src/webhook/webhook.service.ts:68-97 | a text without a dot has an empty status, and is `unknown` exactly when it is not one of the three primary events |
| WebhookDelivery.GetAuthHeaders | src/webhook/webhook.service.ts:120-135 | exactly the Authorization, content-type and timeout properties, with the JSON content type and the given timeout |
| WebhookDelivery.AuthHeaderDecodes | src/webhook/webhook.service.ts:125-130 | the Authorization value decodes back to the user before the first `:` and the password after it |
| WebhookDelivery.AuthHeaderWithoutPassword | src/webhook/webhook.service.ts:125 | a missing password is sent as the empty one |
| WebhookDelivery.RequestShape | src/webhook/webhook.service.ts:182-191 | POST sends the params as body to the bare URL with the headers; GET appends a query that reads back as the params; any other method is a GET of the bare URL |
| WebhookDelivery.QueryHasNoQuestionMark | src/webhook/webhook.service.ts:182-186 | the serialized query never contains `?`, so the URL splits back at its last `?` |
| WebhookDelivery.DeliveryStatusOf | src/webhook/webhook.service.ts:195-205 | timeout if and only if the error code is `ECONNABORTED`; otherwise delivered if and only if 2xx, failed if and only if not |
| WebhookDelivery.ResponseStatus | src/webhook/webhook.service.ts:217 | no status is recorded as 0; any status as itself |
| WebhookDelivery.DefinedFields | src/webhook/webhook.service.ts:207-223 | undefined properties are dropped and every defined one is kept |
| WebhookDelivery.ResultFields | src/webhook/webhook.service.ts:207-223 | the result names the subscription and event type, the delivery status and the response status, and has a failure time exactly when the answer was not 2xx |
| WebhookDelivery.ResultCopies | src/webhook/webhook.service.ts:207-223 | merchant, product, duration and URL are the config's and the response's own |
| WebhookDelivery.WebhookService.SendWebhookNotification | src/webhook/webhook.service.ts:142-239 | a failed config lookup gives `null` and sends nothing; otherwise exactly one request as `RequestFor` says, and the result is built from its answer |
| Base64.DecodeEncodeText | src/webhook/webhook.service.ts:126 | the base 64 of a text's UTF-8 bytes decodes back to the text |
| UriComponent.DecodeEncode | src/config/rmq.config.ts:19-20 | percent-encoding a text, as a URI component or as a form value, decodes back to it |
| UriComponent.ParseQueryOfQuery | src/webhook/webhook.service.ts:182-184 | a serialized query reads back as the same pairs in the same order |
| Strings.IntToStringRoundTrip | src/webhook/webhook.service.ts:104 | the decimal text of the tariff reads back as the same integer |

## Left out

- Logging: every logger call. Nothing is decided by it.
- Timers, connection and channel event listeners, and `disconnect`/`onModuleDestroy`: `setTimeout` is recorded as a scheduled reconnect (`ScheduleReconnect`); the listeners only log or call `handleConnectionError`, which is modelled; closing is I/O.
- The workers, the BullMQ job semantics (job-id deduplication, priorities applied by the broker, retries) and `Promise.allSettled` outcomes: the router only issues `add` calls, and their outcomes are discarded.
- Prisma repositories, the Redis client and dependency injection: the product table is a map, Redis is a map of lists plus a typed cache, and bulk inserts are a `BulkStore` whose failure is an input.
- The Redis cache's serialization and TTL expiry: `RedisService` is not part of this model, so a cached config is taken to come back as the object written. The TTL is recorded but never expires.
- `JSON.parse`, `JSON.stringify`, the HTTP client, the GP sender and `Date.now()`: these are parameters, since their code is not part of the core.
- Environment validation (zod) and the `ConfigService` defaults: the configured constants are used directly.
- SmsDispatch.AmountText: amounts and billing cycles are integers, so `toFixed(2)` is the integer followed by `.00`; fractional amounts (floating point) are not modelled.
- SmsTemplates.PopulateTemplate: keys are taken as plain text. The source builds a regular expression from the placeholder, and `$` patterns in replacement values are not modelled; nor is the `Object.entries` reordering of integer-like keys.
- RabbitConsumer.RetryCount: a truthy `x-retry-count` header that is not a number (for example a numeric string, which JavaScript would compare and concatenate) is treated as dead-lettering; the source's string arithmetic is not modelled.
- ProductConfig.GetWebhookConfig: a `notification_config` column that holds a JSON value other than an object or `null` is not modelled.
- The `data` record at src/product/product.service.ts:61-70 is built and never used, so it has no counterpart.
