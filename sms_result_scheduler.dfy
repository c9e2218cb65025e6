/** The SMS result flusher: every thirty seconds it drains the SMS result
    list into one bulk insert of SMS log rows. Entries it cannot read are
    dropped, and a failed insert is only logged. */
module SmsResultScheduler {
  import opened Wrappers
  import opened Json
  import opened ResultBuffer
  import opened RedisStore
  import opened Persistence
  import Notification
  import SmsDispatch

  /** The batch size used when none is configured. */
  const DefaultBatchSize: int := 1000

  /** A row of the SMS log table. Each field is the property it is copied
      from (`None` when that is `undefined`), except `status`, the text of the
      response status, and `sentAt`/`deliveredAt`, where `None` is `null` and
      `Some(v)` is the date built from `v`. */
  datatype SmsLogRow = SmsLogRow(
    msisdn: Option<Json>,
    message: Option<Json>,
    messageType: Option<Json>,
    relatedSubscriptionId: Option<Json>,
    httpMethod: Option<Json>,
    requestUrl: Option<Json>,
    requestPayload: Option<Json>,
    requestHeaders: Option<Json>,
    status: string,
    errorCode: Option<Json>,
    errorMessage: Option<Json>,
    provider: Option<Json>,
    providerResponse: Option<Json>,
    sentAt: Option<Json>,
    deliveredAt: Option<Json>)

  /** `transformResultToLog`, or `None` where it throws: reading a property
      of `null`, or calling `toString` on a missing or `null` response status. */
  function TransformResultToLog(v: Json): (r: Option<SmsLogRow>)
    ensures r.Some? <==> v.JObj? && "responseStatus" in v.fields && v.fields["responseStatus"] != JNull
    ensures r.Some? ==>
      r.value.status == ToString(v.fields["responseStatus"])
      && r.value.relatedSubscriptionId == Get(v, "subscriptionId")
      && r.value.message == Get(v, "messageBody")
      && r.value.messageType == Get(v, "messageType")
      && r.value.provider == Get(v, "provider")
      && (r.value.sentAt.None? <==> !Truthy(Get(v, "sentAt")))
      && (r.value.deliveredAt.None? <==> !Truthy(Get(v, "deliveredAt")))
  {
    if v.JNull? then None
    else
      match CallToString(Get(v, "responseStatus"))
      case None => None
      case Some(status) =>
        Some(SmsLogRow(
          Get(v, "msisdn"), Get(v, "messageBody"), Get(v, "messageType"), Get(v, "subscriptionId"),
          Get(v, "method"), Get(v, "url"), Get(v, "requestPayload"), Get(v, "requestHeaders"),
          status, Get(v, "errorCode"), Get(v, "errorMessage"), Get(v, "provider"), Get(v, "response"),
          DateOrNull(Get(v, "sentAt")), DateOrNull(Get(v, "deliveredAt"))))
  }

  /** A published SMS result makes a row exactly when the sender's answer
      carried a response status, and the row names the notification's
      subscription, text, event type and provider. */
  lemma RowOfSmsResult(senderResult: Option<Object>, n: Notification.NotificationPayload, body: string)
    ensures var row := TransformResultToLog(JObj(SmsDispatch.SmsResult(senderResult, n, body)));
      (row.Some? <==> senderResult.Some? && Field(senderResult.value, "responseStatus").Some?
                      && Field(senderResult.value, "responseStatus") != Some(JNull))
      && (row.Some? ==>
            row.value.relatedSubscriptionId == Some(JStr(n.subscriptionId))
            && row.value.message == Some(JStr(body))
            && row.value.messageType == Some(JStr(n.eventType))
            && row.value.provider == Some(JStr(n.paymentProvider)))
  {
    SmsDispatch.SmsResultFields(senderResult, n, body);
    assert "responseStatus" !in SmsDispatch.Overlay(n, body);
  }

  /** One entry of the list as a row: `JSON.parse` and then the transform. */
  function RowOf(parse: string -> Option<Json>): string -> Option<SmsLogRow> {
    (entry: string) =>
      match parse(entry)
      case Some(v) => TransformResultToLog(v)
      case None => None
  }

  /** The drain of one tick over the list as it is when the tick starts. */
  function Tick(list: seq<string>, maxBatchSize: int, parse: string -> Option<Json>): Drain<SmsLogRow> {
    DrainSkipping(list, Budget(maxBatchSize), RowOf(parse))
  }

  /** The loop of `processSmsResults`: pops at most `budget` entries,
      stopping at the first empty pop, and keeps the rows it can build. */
  method PopBatch(redis: RedisLists, key: string, toRow: string -> Option<SmsLogRow>, budget: nat)
    returns (batch: seq<SmsLogRow>)
    modifies redis
    ensures var list := old(redis.List(key));
      var d := DrainSkipping(list, budget, toRow);
      batch == d.rows
      && redis.lists == AfterPops(old(redis.lists), key, list, d.popped)
  {
    ghost var list0 := redis.List(key);
    ghost var lists0 := redis.lists;
    batch := [];
    var i := 0;
    while i < budget
      invariant 0 <= i <= budget && i <= |list0|
      invariant redis.List(key) == list0[i..]
      invariant redis.lists == AfterPops(lists0, key, list0, i)
      invariant SkipProgress(list0, budget, toRow, i, batch)
    {
      var result := redis.LPop(key);
      if result.None? {
        SkipProgressStop(list0, budget, toRow, i, batch);
        break;
      }
      assert list0[i..][1..] == list0[i + 1..];
      if result.value == "" {
        SkipProgressStop(list0, budget, toRow, i, batch);
        break;
      }
      SkipProgressStep(list0, budget, toRow, i, batch);
      // An entry that yields a row is pushed; one that does not is dropped.
      batch := batch + RowsOf(toRow(result.value));
      i := i + 1;
    }
    if i == budget {
      SkipProgressStop(list0, budget, toRow, i, batch);
    }
  }

  /** `processSmsResults`: pops at most `maxBatchSize` entries, stopping at
      the first empty pop; makes one bulk insert of the rows it could build,
      none when there are none; swallows a failed insert. */
  method ProcessSmsResults(redis: RedisLists, store: BulkStore<SmsLogRow>, maxBatchSize: int,
                           parse: string -> Option<Json>, insertFails: bool)
    modifies redis, store
    ensures var list := old(redis.List(Notification.SmsResultsKey));
      var d := Tick(list, maxBatchSize, parse);
      redis.lists == AfterPops(old(redis.lists), Notification.SmsResultsKey, list, d.popped)
      && store.calls == old(store.calls) + (if d.rows == [] then [] else [d.rows])
      && store.rows == old(store.rows) + (if d.rows == [] || insertFails then [] else d.rows)
  {
    var batch := PopBatch(redis, Notification.SmsResultsKey, RowOf(parse), Budget(maxBatchSize));
    if |batch| == 0 {
      return;
    }
    var _ := store.CreateMany(batch, insertFails);
  }
}
