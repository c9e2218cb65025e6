/** Sending the SMS of a notification: the message body is the populated
    template, only the `GP` provider has a sender, and the sender's answer is
    returned with the notification's own fields laid over it. */
module SmsDispatch {
  import opened Wrappers
  import opened Json
  import opened Strings
  import opened SmsTemplates
  import opened Notification

  /** The error thrown for a provider without a sender. */
  datatype SmsError = SmsConfigurationError(message: string)

  /** The message of `SmsConfigurationError`. */
  function ConfigurationMessage(provider: string): string {
    "Sms sender is not configured for payment provider: " + provider
  }

  /** `amount.toFixed(2)` for a whole amount. */
  function AmountText(amount: int): (t: string)
    ensures |t| >= 4 && t[|t| - 3..] == ".00"
  {
    IntToString(amount) + ".00"
  }

  /** The variables the template is populated with, in entry order. */
  function TemplateVariables(n: NotificationPayload): seq<(string, string)> {
    [("amount", AmountText(n.amount)), ("subscriptionId", n.subscriptionId)]
  }

  /** The text of the SMS. */
  function MessageBody(n: NotificationPayload): string {
    Populate(GetTemplate(n.eventType, n.paymentProvider), TemplateVariables(n))
  }

  /** The properties laid over the sender's answer. */
  function Overlay(n: NotificationPayload, body: string): Object {
    map[
      "subscriptionId" := JStr(n.subscriptionId),
      "messageType" := JStr(n.eventType),
      "messageBody" := JStr(body),
      "provider" := JStr(n.paymentProvider)]
  }

  /** `{...senderResult, ...overlay}`; spreading `undefined` adds nothing. */
  function SmsResult(senderResult: Option<Object>, n: NotificationPayload, body: string): Object {
    Spread(senderResult.GetOr(map[]), Overlay(n, body))
  }

  /** The notification's fields win over whatever the sender answered, and
      every other property of the answer is kept. */
  lemma SmsResultFields(senderResult: Option<Object>, n: NotificationPayload, body: string)
    ensures var r := SmsResult(senderResult, n, body);
      Field(r, "subscriptionId") == Some(JStr(n.subscriptionId))
      && Field(r, "messageType") == Some(JStr(n.eventType))
      && Field(r, "messageBody") == Some(JStr(body))
      && Field(r, "provider") == Some(JStr(n.paymentProvider))
      && (senderResult.Some? ==>
            forall k :: k in senderResult.value && k !in Overlay(n, body) ==> Field(r, k) == Field(senderResult.value, k))
  {
  }

  /** The SMS says only what the sample template says: its placeholders
      never occur, so the amount and the subscription are not in the text. */
  lemma MessageBodyIsTemplate(n: NotificationPayload)
    requires '{' !in n.eventType && '{' !in n.paymentProvider
    ensures MessageBody(n) == GetTemplate(n.eventType, n.paymentProvider)
  {
    PopulateSampleTemplate(n.eventType, n.paymentProvider, TemplateVariables(n));
  }

  class SmsService {
    /** The messages handed to the GP sender, as (msisdn, text), in order. */
    var sent: seq<(string, string)>

    constructor()
      ensures sent == []
    {
      sent := [];
    }

    /** `sendNotificationSms`. The template is built and populated first;
        a provider other than `GP` is a configuration error and nothing is
        sent; `GP` sends the text once and the result is its answer with the
        notification's fields laid over it. `send` is the GP sender, which
        answers `None` when its request failed. */
    method SendNotificationSms(n: NotificationPayload, send: (string, string) -> Option<Object>)
      returns (r: Result<Object, SmsError>)
      modifies this
      ensures n.paymentProvider != "GP" ==>
        r == Err(SmsConfigurationError(ConfigurationMessage(n.paymentProvider))) && sent == old(sent)
      ensures n.paymentProvider == "GP" ==>
        sent == old(sent) + [(n.msisdn, MessageBody(n))]
        && r == Ok(SmsResult(send(n.msisdn, MessageBody(n)), n, MessageBody(n)))
    {
      var template := GetTemplate(n.eventType, n.paymentProvider);
      var messageBody := PopulateTemplate(template, TemplateVariables(n));
      if n.paymentProvider != "GP" {
        return Err(SmsConfigurationError(ConfigurationMessage(n.paymentProvider)));
      }
      var senderResult := send(n.msisdn, messageBody);
      sent := sent + [(n.msisdn, messageBody)];
      return Ok(SmsResult(senderResult, n, messageBody));
    }
  }
}
