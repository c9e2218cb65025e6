/** Delivery of a notification to the merchant's webhook: the request is
    shaped from the payload and the product's webhook config, sent as a
    POST body or a GET query, and the response is classified into the
    result record that is buffered for the webhook log. */
module WebhookDelivery {
  import opened Wrappers
  import opened Json
  import opened Strings
  import Base64
  import UriComponent
  import opened NotificationConstants
  import opened Notification
  import opened ProductConfig

  /** The request timeout put into the auth headers, in milliseconds. */
  const DefaultTimeoutMs: int := 5000

  /** The `event` field of a webhook request. */
  datatype WebhookEvent = Subscription | Unsubscription | Rebill | UnknownEvent

  function EventText(e: WebhookEvent): string {
    match e
    case Subscription => "subscription"
    case Unsubscription => "unsubscription"
    case Rebill => "rebill"
    case UnknownEvent => "unknown"
  }

  /** `mapEventTypeToWebhookEvent`: by the text before the first '.'. */
  function MapEventTypeToWebhookEvent(eventType: string): WebhookEvent {
    EventOfPrimary(FirstSegment(eventType, '.'))
  }

  /** The webhook event of a primary event name. */
  function EventOfPrimary(primary: string): WebhookEvent {
    if primary == "subscription" then Subscription
    else if primary == "unsubscription" then Unsubscription
    else if primary == "renew" then Rebill
    else UnknownEvent
  }

  /** The `status` field: the text after the first '.', up to the next. */
  function Status(eventType: string): string {
    SecondSegment(eventType, '.')
  }

  /** The `subscription_lifecycle` field. */
  datatype Lifecycle = Ended | Remaining

  function LifecycleText(l: Lifecycle): string {
    match l
    case Ended => "Ended"
    case Remaining => "Remaining"
  }

  /** The fields of a webhook request, in the order they are written. */
  datatype RequestParams = RequestParams(
    msisdn: string,
    shortcode: string,
    operator: string,
    billingId: string,
    tariff: int,
    event: WebhookEvent,
    status: string,
    orderTrackingId: string,
    reason: string,
    lifecycle: Lifecycle)

  /** `prepareRequestParams`. */
  function PrepareRequestParams(n: NotificationPayload): (p: RequestParams)
    ensures p.reason == "" && p.orderTrackingId == n.subscriptionId && p.billingId == n.merchantTransactionId
    ensures p.lifecycle == Ended <==> n.eventType == "unsubscription.success"
  {
    RequestParams(
      n.msisdn, n.keyword, n.paymentProvider, n.merchantTransactionId, n.amount,
      MapEventTypeToWebhookEvent(n.eventType), Status(n.eventType), n.subscriptionId, "",
      if n.eventType == "unsubscription.success" then Ended else Remaining)
  }

  /** The webhook event and status each event type is reported with. */
  function ExpectedEvent(e: EventType): (WebhookEvent, string) {
    match e
    case RenewSuccess => (Rebill, "success")
    case RenewFail => (Rebill, "fail")
    case SubscriptionSuccess => (Subscription, "success")
    case SubscriptionFail => (Subscription, "fail")
    case SubscriptionCancel => (Subscription, "cancel")
    case UnsubscriptionSuccess => (Unsubscription, "success")
    case UnsubscriptionFail => (Unsubscription, "fail")
    case PreRenewalAlert => (UnknownEvent, "renewal")
  }

  /** Splitting `primary.status` at its dot. */
  lemma EventOfTwoParts(primary: string, status: string)
    requires '.' !in primary && '.' !in status
    ensures FirstSegment(primary + ['.'] + status, '.') == primary
    ensures Status(primary + ['.'] + status) == status
  {
    SplitAtFirst(primary, '.', status);
    FirstSegmentWithout(status, '.');
  }

  /** Splitting `primary.status.more` at its first two dots. */
  lemma EventOfThreeParts(primary: string, status: string, more: string)
    requires '.' !in primary && '.' !in status
    ensures FirstSegment(primary + ['.'] + status + ['.'] + more, '.') == primary
    ensures Status(primary + ['.'] + status + ['.'] + more) == status
  {
    assert primary + ['.'] + status + ['.'] + more == primary + ['.'] + (status + ['.'] + more);
    SplitAtFirst(primary, '.', status + ['.'] + more);
    SplitAtFirst(status, '.', more);
  }

  /** The primary event and the status of an event type's name. */
  lemma NameParts(e: EventType)
    ensures FirstSegment(Name(e), '.') == PrimaryOf(e)
    ensures Status(Name(e)) == ExpectedEvent(e).1
  {
    if e.RenewSuccess? || e.RenewFail? {
      RenewalNameParts(e);
    } else if e.PreRenewalAlert? {
      assert Name(e) == "pre" + ['.'] + "renewal" + ['.'] + "alert";
      EventOfThreeParts("pre", "renewal", "alert");
    } else if e.UnsubscriptionSuccess? || e.UnsubscriptionFail? {
      UnsubscriptionNameParts(e);
    } else {
      SubscriptionNameParts(e);
    }
  }

  lemma RenewalNameParts(e: EventType)
    requires e.RenewSuccess? || e.RenewFail?
    ensures FirstSegment(Name(e), '.') == PrimaryOf(e)
    ensures Status(Name(e)) == ExpectedEvent(e).1
  {
    match e {
    case RenewSuccess =>
      assert Name(e) == "renew" + ['.'] + "success";
      EventOfTwoParts("renew", "success");
    case RenewFail =>
      assert Name(e) == "renew" + ['.'] + "fail";
      EventOfTwoParts("renew", "fail");
    }
  }

  lemma SubscriptionNameParts(e: EventType)
    requires e.SubscriptionSuccess? || e.SubscriptionFail? || e.SubscriptionCancel?
    ensures FirstSegment(Name(e), '.') == PrimaryOf(e)
    ensures Status(Name(e)) == ExpectedEvent(e).1
  {
    match e {
    case SubscriptionSuccess =>
      assert Name(e) == "subscription" + ['.'] + "success";
      EventOfTwoParts("subscription", "success");
    case SubscriptionFail =>
      assert Name(e) == "subscription" + ['.'] + "fail";
      EventOfTwoParts("subscription", "fail");
    case SubscriptionCancel =>
      assert Name(e) == "subscription" + ['.'] + "cancel";
      EventOfTwoParts("subscription", "cancel");
    }
  }

  lemma UnsubscriptionNameParts(e: EventType)
    requires e.UnsubscriptionSuccess? || e.UnsubscriptionFail?
    ensures FirstSegment(Name(e), '.') == PrimaryOf(e)
    ensures Status(Name(e)) == ExpectedEvent(e).1
  {
    match e {
    case UnsubscriptionSuccess =>
      assert Name(e) == "unsubscription" + ['.'] + "success";
      EventOfTwoParts("unsubscription", "success");
    case UnsubscriptionFail =>
      assert Name(e) == "unsubscription" + ['.'] + "fail";
      EventOfTwoParts("unsubscription", "fail");
    }
  }

  /** The text before the first '.' of each event type's name. */
  function PrimaryOf(e: EventType): string {
    match e
    case RenewSuccess | RenewFail => "renew"
    case SubscriptionSuccess | SubscriptionFail | SubscriptionCancel => "subscription"
    case UnsubscriptionSuccess | UnsubscriptionFail => "unsubscription"
    case PreRenewalAlert => "pre"
  }

  /** Renewals are reported as `rebill`, the pre-renewal alert as `unknown`,
      and every event type's status is its second segment. */
  lemma WebhookEventOfEventType(e: EventType)
    ensures MapEventTypeToWebhookEvent(Name(e)) == ExpectedEvent(e).0
    ensures Status(Name(e)) == ExpectedEvent(e).1
  {
    NameParts(e);
    PrimaryEvents(e);
  }

  lemma PrimaryEvents(e: EventType)
    ensures EventOfPrimary(PrimaryOf(e)) == ExpectedEvent(e).0
  {
    match e
    case RenewSuccess =>
    case RenewFail =>
    case SubscriptionSuccess =>
    case SubscriptionFail =>
    case SubscriptionCancel =>
    case UnsubscriptionSuccess =>
    case UnsubscriptionFail =>
    case PreRenewalAlert =>
  }

  /** A text with no '.' is its own primary event and has no status. */
  lemma EventWithoutDot(eventType: string)
    requires '.' !in eventType
    ensures Status(eventType) == ""
    ensures MapEventTypeToWebhookEvent(eventType) == UnknownEvent <==>
      eventType !in {"subscription", "unsubscription", "renew"}
  {
    FirstSegmentWithout(eventType, '.');
  }

  /** The query string fields, as `URLSearchParams` reads the params
      object: own properties in order, each value as `String(v)`. */
  function QueryPairs(p: RequestParams): seq<(string, string)> {
    [("msisdn", p.msisdn), ("shortcode", p.shortcode), ("operator", p.operator),
     ("billing_id", p.billingId), ("tariff", IntToString(p.tariff)), ("event", EventText(p.event)),
     ("status", p.status), ("order_tracking_id", p.orderTrackingId), ("reason", p.reason),
     ("subscription_lifecycle", LifecycleText(p.lifecycle))]
  }

  /** The params as a JSON body. */
  function ParamsObject(p: RequestParams): Object {
    map[
      "msisdn" := JStr(p.msisdn), "shortcode" := JStr(p.shortcode), "operator" := JStr(p.operator),
      "billing_id" := JStr(p.billingId), "tariff" := JNum(p.tariff), "event" := JStr(EventText(p.event)),
      "status" := JStr(p.status), "order_tracking_id" := JStr(p.orderTrackingId), "reason" := JStr(p.reason),
      "subscription_lifecycle" := JStr(LifecycleText(p.lifecycle))]
  }

  /** The `user:password` credentials of `getAuthHeaders`, with a missing
      or empty password as the empty text. */
  function Credentials(username: Option<Json>, password: Option<Json>): string {
    TemplateText(username) + ":" + (if Truthy(password) then TemplateText(password) else "")
  }

  /** `getAuthHeaders`: Basic credentials (section 2 of RFC 7617), the JSON
      content type and the timeout. */
  function GetAuthHeaders(username: Option<Json>, password: Option<Json>, timeout: int): (r: Object)
    ensures r.Keys == {"Authorization", "Content-Type", "timeout"}
    ensures r["Content-Type"] == JStr("application/json") && r["timeout"] == JNum(timeout)
  {
    map[
      "Authorization" := JStr("Basic " + Base64.EncodeText(Credentials(username, password))),
      "Content-Type" := JStr("application/json"),
      "timeout" := JNum(timeout)]
  }

  /** The `Authorization` header of text credentials gives back the user and
      the password, the user being the text before the first ':' (a user id
      has no colon, as section 2 of RFC 7617 requires). */
  lemma AuthHeaderDecodes(user: string, password: string)
    requires ':' !in user
    ensures var auth := GetAuthHeaders(Some(JStr(user)), Some(JStr(password)), DefaultTimeoutMs)["Authorization"];
      auth.JStr? && auth.s[..6] == "Basic "
      && Base64.DecodeText(auth.s[6..]).Some?
      && FirstSegment(Base64.DecodeText(auth.s[6..]).value, ':') == user
      && AfterFirst(Base64.DecodeText(auth.s[6..]).value, ':') == Some(password)
  {
    var text := Credentials(Some(JStr(user)), Some(JStr(password)));
    assert text == user + [':'] + password;
    var auth := "Basic " + Base64.EncodeText(text);
    assert auth[6..] == Base64.EncodeText(text);
    Base64.DecodeEncodeText(text);
    SplitAtFirst(user, ':', password);
  }

  /** A missing password is sent as the empty one. */
  lemma AuthHeaderWithoutPassword(user: Option<Json>)
    ensures GetAuthHeaders(user, None, DefaultTimeoutMs) == GetAuthHeaders(user, Some(JStr("")), DefaultTimeoutMs)
  {
  }

  /** The headers of the request: auth headers only when the config says
      `hasAuth`, otherwise none. */
  function RequestHeaders(config: Object): Object {
    if Truthy(Field(config, "hasAuth")) then
      GetAuthHeaders(Field(config, "auth_user"), Field(config, "auth_password"), DefaultTimeoutMs)
    else map[]
  }

  predicate IsGet(config: Object) {
    Field(config, "method") == Some(JStr("GET"))
  }

  predicate IsPost(config: Object) {
    Field(config, "method") == Some(JStr("POST"))
  }

  /** The URL recorded for the request: the query is appended for GET only. */
  function FinalUrl(config: Object, p: RequestParams): Option<Json> {
    if IsGet(config) then Some(JStr(TemplateText(Field(config, "url")) + "?" + UriComponent.Query(QueryPairs(p))))
    else Field(config, "url")
  }

  /** An HTTP request handed to the client. */
  datatype HttpCall = PostRequest(url: Option<Json>, body: Object, headers: Object) | GetRequest(url: Option<Json>)

  /** The request `sendWebhookNotification` makes: a POST of the params
      with the headers, and for every other method a GET of the final URL. */
  function RequestFor(config: Object, n: NotificationPayload): HttpCall {
    var p := PrepareRequestParams(n);
    if IsPost(config) then PostRequest(Field(config, "url"), ParamsObject(p), RequestHeaders(config))
    else GetRequest(FinalUrl(config, p))
  }

  /** POST sends the params as its body to the bare URL. GET appends a query
      that reads back as the params. Any other method is a GET of the bare
      URL, and no GET carries the auth headers. */
  lemma RequestShape(config: Object, n: NotificationPayload)
    ensures var call, p := RequestFor(config, n), PrepareRequestParams(n);
      (IsPost(config) ==> call == PostRequest(Field(config, "url"), ParamsObject(p), RequestHeaders(config)))
      && (IsGet(config) ==>
            call.GetRequest? && call.url.Some? && call.url.value.JStr?
            && SplitLast(call.url.value.s, '?') == Some((TemplateText(Field(config, "url")), UriComponent.Query(QueryPairs(p))))
            && UriComponent.ParseQuery(UriComponent.Query(QueryPairs(p))) == Some(QueryPairs(p)))
      && (!IsGet(config) && !IsPost(config) ==> call == GetRequest(Field(config, "url")))
  {
    var p := PrepareRequestParams(n);
    var q := UriComponent.Query(QueryPairs(p));
    UriComponent.ParseQueryOfQuery(QueryPairs(p));
    if IsGet(config) {
      QueryHasNoQuestionMark(QueryPairs(p));
      SplitAtLast(TemplateText(Field(config, "url")), '?', q);
    }
  }

  /** The form serializer percent-encodes '?'. */
  lemma {:induction false} QueryHasNoQuestionMark(pairs: seq<(string, string)>)
    ensures '?' !in UriComponent.Query(pairs)
    decreases |pairs|
  {
    if pairs != [] {
      var k, v := UriComponent.Encode(UriComponent.Form, pairs[0].0), UriComponent.Encode(UriComponent.Form, pairs[0].1);
      forall i | 0 <= i < |k| ensures k[i] != '?' {
        assert UriComponent.Emitted(UriComponent.Form, k[i]);
      }
      forall i | 0 <= i < |v| ensures v[i] != '?' {
        assert UriComponent.Emitted(UriComponent.Form, v[i]);
      }
      QueryHasNoQuestionMark(pairs[1..]);
    }
  }

  /** What the HTTP client answers: the status (absent when there was no
      response), the body, the error object and the duration. */
  datatype HttpResponse = HttpResponse(status: Option<int>, data: Option<Json>, error: Option<Json>, duration: Option<Json>)

  /** `status >= 200 && status < 300`. */
  predicate IsSuccess(r: HttpResponse) {
    r.status.Some? && 200 <= r.status.value < 300
  }

  /** `response.error?.code`. */
  function ErrorCode(r: HttpResponse): Option<Json> {
    if r.error.None? || r.error == Some(JNull) then None else Get(r.error.value, "code")
  }

  /** `response.error?.message`. */
  function ErrorMessage(r: HttpResponse): Option<Json> {
    if r.error.None? || r.error == Some(JNull) then None else Get(r.error.value, "message")
  }

  datatype DeliveryStatus = Delivered | Failed | TimedOut

  function DeliveryText(d: DeliveryStatus): string {
    match d
    case Delivered => "delivered"
    case Failed => "failed"
    case TimedOut => "timeout"
  }

  /** The delivery status: a timeout when the client aborted, whatever the
      status; otherwise delivered exactly on a 2xx status. */
  function DeliveryStatusOf(r: HttpResponse): (d: DeliveryStatus)
    ensures d == TimedOut <==> ErrorCode(r) == Some(JStr("ECONNABORTED"))
    ensures d == Delivered <==> ErrorCode(r) != Some(JStr("ECONNABORTED")) && IsSuccess(r)
    ensures d == Failed <==> ErrorCode(r) != Some(JStr("ECONNABORTED")) && !IsSuccess(r)
  {
    if ErrorCode(r) == Some(JStr("ECONNABORTED")) then TimedOut
    else if IsSuccess(r) then Delivered
    else Failed
  }

  /** `response.status || 0`. */
  function ResponseStatus(r: HttpResponse): (s: int)
    ensures r.status.None? ==> s == 0
    ensures r.status.Some? ==> s == r.status.value
  {
    if r.status.Some? && r.status.value != 0 then r.status.value else 0
  }

  /** `response.data ?? response.error ?? 'No response body/error'`. */
  function ResponseBody(r: HttpResponse): Json {
    Coalesce(r.data, Coalesce(r.error, JStr("No response body/error")))
  }

  /** The properties whose value is defined; an `undefined` property does
      not survive `JSON.stringify`, the only way the record is read. */
  function DefinedFields(fields: map<string, Option<Json>>): (r: Object)
    ensures r.Keys <= fields.Keys
    ensures forall k :: k in fields ==> Field(r, k) == fields[k]
  {
    map k | k in fields && fields[k].Some? :: fields[k].value
  }

  /** The payload as the JSON object it is sent as. */
  function PayloadObject(n: NotificationPayload): Object {
    map[
      "id" := JStr(n.id), "source" := JStr(n.source), "subscriptionId" := JStr(n.subscriptionId),
      "merchantTransactionId" := JStr(n.merchantTransactionId), "keyword" := JStr(n.keyword),
      "msisdn" := JStr(n.msisdn), "paymentProvider" := JStr(n.paymentProvider),
      "eventType" := JStr(n.eventType), "amount" := JNum(n.amount), "currency" := JStr(n.currency),
      "billingCycleDays" := JNum(n.billingCycleDays), "timestamp" := JNum(n.timestamp)]
  }

  /** The properties of the result that are always defined. */
  function FixedFields(n: NotificationPayload, headers: Object, response: HttpResponse, sentAt: int, now: int): Object {
    map[
      "eventType" := JStr(n.eventType),
      "headers" := JObj(headers),
      "payload" := JObj(PayloadObject(n)),
      "subscriptionId" := JStr(n.subscriptionId),
      "sentAt" := JNum(sentAt),
      "responseStatus" := JNum(ResponseStatus(response)),
      "responseBody" := ResponseBody(response),
      "deliveryStatus" := JStr(DeliveryText(DeliveryStatusOf(response))),
      "failedAt" := if IsSuccess(response) then JNull else JNum(now)]
  }

  /** The properties of the result copied from values that may be undefined. */
  function CopiedFields(config: Object, finalUrl: Option<Json>, response: HttpResponse): map<string, Option<Json>> {
    map[
      "merchantId" := Field(config, "merchantId"),
      "productId" := Field(config, "productId"),
      "url" := finalUrl,
      "method" := Field(config, "method"),
      "duration" := response.duration,
      "errorMessage" := ErrorMessage(response)]
  }

  /** The `WebhookNotificationResult` of a delivery with these headers to
      this URL, made at `sentAt`, whose answer came back at `now`. */
  function BuildResult(config: Object, n: NotificationPayload, headers: Object, finalUrl: Option<Json>,
                       response: HttpResponse, sentAt: int, now: int): Object {
    FixedFields(n, headers, response, sentAt, now) + DefinedFields(CopiedFields(config, finalUrl, response))
  }

  /** The result reports the subscription, the delivery status and the
      answer: `failedAt` is set exactly when the status is not 2xx, so a
      timeout with a 2xx status has none. */
  lemma ResultFields(config: Object, n: NotificationPayload, headers: Object, finalUrl: Option<Json>,
                     response: HttpResponse, sentAt: int, now: int)
    requires now > 0
    ensures var r := BuildResult(config, n, headers, finalUrl, response, sentAt, now);
      Field(r, "subscriptionId") == Some(JStr(n.subscriptionId))
      && Field(r, "eventType") == Some(JStr(n.eventType))
      && Field(r, "deliveryStatus") == Some(JStr(DeliveryText(DeliveryStatusOf(response))))
      && Field(r, "responseStatus") == Some(JNum(ResponseStatus(response)))
      && (Truthy(Field(r, "failedAt")) <==> !IsSuccess(response))
  {
    var fixed := FixedFields(n, headers, response, sentAt, now);
    var copied := DefinedFields(CopiedFields(config, finalUrl, response));
    CopiedKeys(config, finalUrl, response);
    FixedValues(n, headers, response, sentAt, now);
    assert forall k :: k in fixed && k !in copied ==> Field(fixed + copied, k) == Field(fixed, k);
  }

  lemma CopiedKeys(config: Object, finalUrl: Option<Json>, response: HttpResponse)
    ensures var copied := DefinedFields(CopiedFields(config, finalUrl, response));
      "subscriptionId" !in copied && "eventType" !in copied && "deliveryStatus" !in copied
      && "responseStatus" !in copied && "failedAt" !in copied
  {
    var keys := CopiedFields(config, finalUrl, response).Keys;
    assert keys == {"merchantId", "productId", "url", "method", "duration", "errorMessage"};
    StatusKeysNotCopied(keys);
    EventKeysNotCopied(keys);
  }

  lemma StatusKeysNotCopied(keys: set<string>)
    requires keys == {"merchantId", "productId", "url", "method", "duration", "errorMessage"}
    ensures "deliveryStatus" !in keys && "responseStatus" !in keys && "failedAt" !in keys
  {
  }

  lemma EventKeysNotCopied(keys: set<string>)
    requires keys == {"merchantId", "productId", "url", "method", "duration", "errorMessage"}
    ensures "subscriptionId" !in keys && "eventType" !in keys
  {
  }

  lemma FixedValues(n: NotificationPayload, headers: Object, response: HttpResponse, sentAt: int, now: int)
    ensures var fixed := FixedFields(n, headers, response, sentAt, now);
      Field(fixed, "subscriptionId") == Some(JStr(n.subscriptionId))
      && Field(fixed, "eventType") == Some(JStr(n.eventType))
      && Field(fixed, "deliveryStatus") == Some(JStr(DeliveryText(DeliveryStatusOf(response))))
      && Field(fixed, "responseStatus") == Some(JNum(ResponseStatus(response)))
      && Field(fixed, "failedAt") == Some(if IsSuccess(response) then JNull else JNum(now))
  {
  }

  /** The copied properties are the config's and the response's own. */
  lemma ResultCopies(config: Object, n: NotificationPayload, headers: Object, finalUrl: Option<Json>,
                     response: HttpResponse, sentAt: int, now: int)
    ensures var r := BuildResult(config, n, headers, finalUrl, response, sentAt, now);
      Field(r, "merchantId") == Field(config, "merchantId")
      && Field(r, "productId") == Field(config, "productId")
      && Field(r, "duration") == response.duration
      && Field(r, "url") == finalUrl
  {
    FixedKeys(n, headers, response, sentAt, now);
    ConfigCopies(config, finalUrl, response);
    ResponseCopies(config, finalUrl, response);
  }

  lemma ConfigCopies(config: Object, finalUrl: Option<Json>, response: HttpResponse)
    ensures var copied := DefinedFields(CopiedFields(config, finalUrl, response));
      Field(copied, "merchantId") == Field(config, "merchantId")
      && Field(copied, "productId") == Field(config, "productId")
  {
    var fields := CopiedFields(config, finalUrl, response);
    assert fields["merchantId"] == Field(config, "merchantId");
    assert fields["productId"] == Field(config, "productId");
  }

  lemma ResponseCopies(config: Object, finalUrl: Option<Json>, response: HttpResponse)
    ensures var copied := DefinedFields(CopiedFields(config, finalUrl, response));
      Field(copied, "duration") == response.duration && Field(copied, "url") == finalUrl
  {
    var fields := CopiedFields(config, finalUrl, response);
    assert fields["duration"] == response.duration;
    assert fields["url"] == finalUrl;
  }

  /** The properties that are always defined do not include the copied ones. */
  lemma FixedKeys(n: NotificationPayload, headers: Object, response: HttpResponse, sentAt: int, now: int)
    ensures var fixed := FixedFields(n, headers, response, sentAt, now);
      "merchantId" !in fixed && "productId" !in fixed && "duration" !in fixed && "url" !in fixed
  {
    var keys := FixedFields(n, headers, response, sentAt, now).Keys;
    assert keys == {"eventType", "headers", "payload", "subscriptionId", "sentAt", "responseStatus",
                    "responseBody", "deliveryStatus", "failedAt"};
    ConfigKeysNotFixed(keys);
    ResponseKeysNotFixed(keys);
  }

  lemma ConfigKeysNotFixed(keys: set<string>)
    requires keys == {"eventType", "headers", "payload", "subscriptionId", "sentAt", "responseStatus",
                      "responseBody", "deliveryStatus", "failedAt"}
    ensures "merchantId" !in keys && "productId" !in keys
  {
  }

  lemma ResponseKeysNotFixed(keys: set<string>)
    requires keys == {"eventType", "headers", "payload", "subscriptionId", "sentAt", "responseStatus",
                      "responseBody", "deliveryStatus", "failedAt"}
    ensures "duration" !in keys && "url" !in keys
  {
  }

  class WebhookService {
    const productService: ProductService
    /** The requests handed to the HTTP client, in call order. */
    var calls: seq<HttpCall>

    constructor(productService: ProductService)
      ensures this.productService == productService && calls == []
    {
      this.productService := productService;
      calls := [];
    }

    /** `sendWebhookNotification`. The config lookup comes first; when it
        fails the result is `null` and nothing is sent. Otherwise exactly one
        request is made and its answer becomes the result. The clock
        readings and the HTTP client are parameters. */
    method SendWebhookNotification(n: NotificationPayload, respond: HttpCall -> HttpResponse, sentAt: int, now: int)
      returns (r: Option<Object>)
      modifies this, productService
      ensures var config := ConfigLookup(old(productService.cache), productService.products, n.keyword, n.eventType);
        productService.cache == CacheAfterLookup(old(productService.cache), productService.products, n.keyword, n.eventType)
        && (config.Err? ==> r.None? && calls == old(calls))
        && (config.Ok? ==>
              calls == old(calls) + [RequestFor(config.value, n)]
              && r == Some(BuildResult(config.value, n, RequestHeaders(config.value),
                                       FinalUrl(config.value, PrepareRequestParams(n)),
                                       respond(RequestFor(config.value, n)), sentAt, now)))
    {
      var config := productService.GetWebhookConfig(n.keyword, n.eventType);
      if config.Err? {
        return None;
      }
      var requestHeaders := RequestHeaders(config.value);
      var finalUrl := FinalUrl(config.value, PrepareRequestParams(n));
      var call := RequestFor(config.value, n);
      calls := calls + [call];
      var response := respond(call);
      return Some(BuildResult(config.value, n, requestHeaders, finalUrl, response, sentAt, now));
    }
  }
}
