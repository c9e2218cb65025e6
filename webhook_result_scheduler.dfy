/** The webhook result flusher: every thirty seconds it drains the webhook
    result list into one bulk insert of merchant notification rows. Nothing
    guards the parse, so one unreadable entry ends the tick with an error,
    and a failed insert is an error of the tick too. */
module WebhookResultScheduler {
  import opened Wrappers
  import opened Json
  import opened ResultBuffer
  import opened RedisStore
  import opened Persistence
  import Notification
  import WebhookDelivery

  /** The batch size used when none is configured. */
  const DefaultBatchSize: int := 1000

  /** A row of the merchant notification table. Each field is the property
      of the result it is copied from (`None` when that is `undefined`);
      `failedAt` is `None` for `null` and `Some(v)` for the date built
      from `v`. */
  datatype WebhookRow = WebhookRow(
    merchantId: Option<Json>,
    productId: Option<Json>,
    webhookUrl: Option<Json>,
    eventType: Option<Json>,
    httpMethod: Option<Json>,
    headers: Option<Json>,
    payload: Option<Json>,
    relatedOrderId: Option<Json>,
    sentAt: Option<Json>,
    failedAt: Option<Json>,
    responseStatusCode: Option<Json>,
    responseBody: Option<Json>,
    responseTimeMs: Option<Json>,
    deliveryStatus: Option<Json>,
    errorMessage: Option<Json>)

  /** `transformResultToLog`, or `None` where it throws: reading a property
      of `null`. Every other parsed value has properties, perhaps none. */
  function TransformResultToLog(v: Json): (r: Option<WebhookRow>)
    ensures r.None? <==> v.JNull?
    ensures r.Some? ==>
      r.value.merchantId == Get(v, "merchantId")
      && r.value.productId == Get(v, "productId")
      && r.value.webhookUrl == Get(v, "url")
      && r.value.relatedOrderId == Get(v, "subscriptionId")
      && r.value.responseTimeMs == Get(v, "duration")
      && r.value.deliveryStatus == Get(v, "deliveryStatus")
      && (r.value.failedAt.None? <==> !Truthy(Get(v, "failedAt")))
  {
    if v.JNull? then None
    else
      Some(WebhookRow(
        Get(v, "merchantId"), Get(v, "productId"), Get(v, "url"), Get(v, "eventType"),
        Get(v, "method"), Get(v, "headers"), Get(v, "payload"), Get(v, "subscriptionId"),
        Get(v, "sentAt"), DateOrNull(Get(v, "failedAt")), Get(v, "responseStatus"),
        Get(v, "responseBody"), Get(v, "duration"), Get(v, "deliveryStatus"), Get(v, "errorMessage")))
  }

  /** The row logged for a delivery result: it names the subscription as
      the related order, keeps the delivery status, and has a failure time
      exactly when the answer was not 2xx. */
  lemma RowOfDeliveryResult(config: Object, n: Notification.NotificationPayload, headers: Object,
                            finalUrl: Option<Json>, response: WebhookDelivery.HttpResponse, sentAt: int, now: int)
    requires now > 0
    ensures var result := WebhookDelivery.BuildResult(config, n, headers, finalUrl, response, sentAt, now);
      var row := TransformResultToLog(JObj(result));
      row.Some?
      && row.value.relatedOrderId == Some(JStr(n.subscriptionId))
      && row.value.merchantId == Field(config, "merchantId")
      && row.value.responseTimeMs == response.duration
      && row.value.deliveryStatus == Some(JStr(WebhookDelivery.DeliveryText(WebhookDelivery.DeliveryStatusOf(response))))
      && (row.value.failedAt.None? <==> WebhookDelivery.IsSuccess(response))
  {
    WebhookDelivery.ResultFields(config, n, headers, finalUrl, response, sentAt, now);
    WebhookDelivery.ResultCopies(config, n, headers, finalUrl, response, sentAt, now);
  }

  /** One entry of the list as a row: `JSON.parse` and then the transform. */
  function RowOf(parse: string -> Option<Json>): string -> Option<WebhookRow> {
    (entry: string) =>
      match parse(entry)
      case Some(v) => TransformResultToLog(v)
      case None => None
  }

  /** The drain of one tick over the list as it is when the tick starts. */
  function Tick(list: seq<string>, maxBatchSize: int, parse: string -> Option<Json>): Drain<WebhookRow> {
    DrainAborting(list, Budget(maxBatchSize), RowOf(parse))
  }

  /** The loop of `processWebhookResults`: pops at most `budget` entries,
      stopping at the first empty pop, and gives up at the first entry it
      cannot turn into a row, which is popped all the same. */
  method PopBatch(redis: RedisLists, key: string, toRow: string -> Option<WebhookRow>, budget: nat)
    returns (batch: seq<WebhookRow>, aborted: bool)
    modifies redis
    ensures var list := old(redis.List(key));
      var d := DrainAborting(list, budget, toRow);
      batch == d.rows && aborted == d.aborted
      && redis.lists == AfterPops(old(redis.lists), key, list, d.popped)
  {
    ghost var list0 := redis.List(key);
    ghost var lists0 := redis.lists;
    batch := [];
    aborted := false;
    var i := 0;
    while i < budget
      invariant 0 <= i <= budget && i <= |list0|
      invariant redis.List(key) == list0[i..]
      invariant redis.lists == AfterPops(lists0, key, list0, i)
      invariant AbortProgress(list0, budget, toRow, i, batch)
    {
      var result := redis.LPop(key);
      if result.None? {
        AbortProgressStop(list0, budget, toRow, i, batch);
        break;
      }
      assert list0[i..][1..] == list0[i + 1..];
      if result.value == "" {
        AbortProgressStop(list0, budget, toRow, i, batch);
        break;
      }
      var row := toRow(result.value);
      if row.None? {
        AbortProgressAbort(list0, budget, toRow, i, batch);
        aborted := true;
        break;
      }
      AbortProgressStep(list0, budget, toRow, i, batch);
      batch := batch + [row.value];
      i := i + 1;
    }
    if i == budget {
      AbortProgressStop(list0, budget, toRow, i, batch);
    }
  }

  /** `processWebhookResults`: an unreadable entry makes the tick fail
      before any insert; an empty batch makes no insert; otherwise one bulk
      insert of the batch in pop order, whose failure is the tick's. Popped
      entries are never put back. */
  method ProcessWebhookResults(redis: RedisLists, store: BulkStore<WebhookRow>, maxBatchSize: int,
                               parse: string -> Option<Json>, insertFails: bool)
    returns (r: Result<(), string>)
    modifies redis, store
    ensures var list := old(redis.List(Notification.WebhookResultsKey));
      var d := Tick(list, maxBatchSize, parse);
      redis.lists == AfterPops(old(redis.lists), Notification.WebhookResultsKey, list, d.popped)
      && (d.aborted ==> r.Err? && store.calls == old(store.calls) && store.rows == old(store.rows))
      && (!d.aborted && d.rows == [] ==> r.Ok? && store.calls == old(store.calls) && store.rows == old(store.rows))
      && (!d.aborted && d.rows != [] ==>
            store.calls == old(store.calls) + [d.rows]
            && (r.Err? <==> insertFails)
            && store.rows == old(store.rows) + (if insertFails then [] else d.rows))
  {
    var batch, aborted := PopBatch(redis, Notification.WebhookResultsKey, RowOf(parse), Budget(maxBatchSize));
    if aborted {
      return Err("unreadable webhook result");
    }
    if |batch| == 0 {
      return Ok(());
    }
    r := store.CreateMany(batch, insertFails);
  }
}
