/** The job queue names, the event types of the notification payload, and
    the per-event job priorities of the notification router. */
module NotificationConstants {
  import opened Wrappers

  /** The BullMQ queue the SMS worker drains. */
  const SmsQueue: string := "notification_sms"
  /** The BullMQ queue the webhook worker drains. */
  const WebhookQueue: string := "notification_webhook"

  /** The members of the `NotificationEventType` union. */
  datatype EventType =
    | RenewSuccess
    | RenewFail
    | SubscriptionSuccess
    | SubscriptionFail
    | SubscriptionCancel
    | UnsubscriptionSuccess
    | UnsubscriptionFail
    | PreRenewalAlert

  /** The text of an event type, as it appears in a payload. */
  function Name(e: EventType): string {
    match e
    case RenewSuccess => "renew.success"
    case RenewFail => "renew.fail"
    case SubscriptionSuccess => "subscription.success"
    case SubscriptionFail => "subscription.fail"
    case SubscriptionCancel => "subscription.cancel"
    case UnsubscriptionSuccess => "unsubscription.success"
    case UnsubscriptionFail => "unsubscription.fail"
    case PreRenewalAlert => "pre.renewal.alert"
  }

  /** The event type a text names, if any: the keys of the tables below. */
  function Parse(s: string): Option<EventType> {
    if s == "renew.success" then Some(RenewSuccess)
    else if s == "renew.fail" then Some(RenewFail)
    else if s == "subscription.success" then Some(SubscriptionSuccess)
    else if s == "subscription.fail" then Some(SubscriptionFail)
    else if s == "subscription.cancel" then Some(SubscriptionCancel)
    else if s == "unsubscription.success" then Some(UnsubscriptionSuccess)
    else if s == "unsubscription.fail" then Some(UnsubscriptionFail)
    else if s == "pre.renewal.alert" then Some(PreRenewalAlert)
    else None
  }

  /** Every event type is read back from its text, so no two share a text. */
  lemma ParseName(e: EventType)
    ensures Parse(Name(e)) == Some(e)
  {
    match e
    case RenewSuccess =>
    case RenewFail =>
      assert Name(e)[6] != "renew.success"[6];
    case SubscriptionSuccess =>
      assert Name(e)[0] != 'r';
    case SubscriptionFail =>
      assert Name(e)[0] != 'r' && Name(e)[13] != "subscription.success"[13];
    case SubscriptionCancel =>
      assert Name(e)[0] != 'r' && Name(e)[13] != "subscription.success"[13]
        && Name(e)[13] != "subscription.fail"[13];
    case UnsubscriptionSuccess =>
      assert Name(e)[0] == 'u';
    case UnsubscriptionFail =>
      assert Name(e)[0] == 'u' && Name(e)[15] != "unsubscription.success"[15];
    case PreRenewalAlert =>
      assert Name(e)[0] == 'p';
  }

  /** A text that parses is the name of what it parses to. */
  lemma NameParse(s: string)
    requires Parse(s).Some?
    ensures Name(Parse(s).value) == s
  {
  }

  /** `NOTIFICATION_PRIORITY`, which has an entry for every event type. */
  function Priority(e: EventType): int {
    match e
    case RenewSuccess => 10
    case RenewFail => 10
    case SubscriptionSuccess => 1
    case SubscriptionFail => 1
    case SubscriptionCancel => 1
    case UnsubscriptionSuccess => 1
    case UnsubscriptionFail => 1
    case PreRenewalAlert => 5
  }

  /** The `subscription.*` and `unsubscription.*` event types. */
  predicate IsSubscriptionEvent(e: EventType) {
    e in {SubscriptionSuccess, SubscriptionFail, SubscriptionCancel, UnsubscriptionSuccess, UnsubscriptionFail}
  }

  /** The two job queues are different queues. */
  lemma QueuesDistinct()
    ensures SmsQueue != WebhookQueue
  {
    assert SmsQueue[13] != WebhookQueue[13];
  }

  /** Subscription and unsubscription events have priority 1, the pre-renewal
      alert 5 and renewals 10: a priority is 1, 5 or 10. */
  lemma PriorityOrder(e: EventType)
    ensures IsSubscriptionEvent(e) <==> Priority(e) == 1
    ensures e == PreRenewalAlert <==> Priority(e) == 5
    ensures e in {RenewSuccess, RenewFail} <==> Priority(e) == 10
  {
  }
}
