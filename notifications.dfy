/** The `useNotifications` hook of src/hooks/useNotifications.ts: one
    notification through the `send-notification` function, the message shown
    when it fails, and the bulk loop over a list of customers. */
module Notifications {
  import opened Common
  import opened CustomerModel
  import SendNotification

  /** The hook's own `Customer` shape. */
  datatype NotifyCustomer = NotifyCustomer(
    id: string, name: string, token: string, contactNumber: string, email: string,
    waitTime: int, status: string)

  /** A screen's customer seen through that shape. */
  function FromCustomer(c: Customer): NotifyCustomer {
    NotifyCustomer(c.id, c.name, c.token, c.contactNumber, c.email, c.waitTime, c.status)
  }

  /** The body handed to `functions.invoke`. */
  function InvokeBody(c: NotifyCustomer, kind: string): (b: SendNotification.RequestBody)
    ensures b.kind == kind && b.customerId == c.id && b.customerName == c.name && b.customerPhone == c.contactNumber
    ensures b.customerEmail == c.email && b.token == c.token && b.waitTime == c.waitTime
  {
    SendNotification.RequestBody(c.id, kind, c.name, c.contactNumber, c.email, c.token, c.waitTime)
  }

  /** The answer of `functions.invoke`: data, or an error whose message text is
      given ('' when it has none). */
  datatype InvokeReply = Data | InvokeError(message: string)

  /** Which message a failure gets. */
  datatype FailureKind = NotConfigured | MissingContact | OtherFailure

  /** The check on the error text: the credentials test comes first. */
  function Classify(message: string): (k: FailureKind)
    ensures k == NotConfigured <==> Contains(message, "credentials not configured")
    ensures k == MissingContact <==> !Contains(message, "credentials not configured") && Contains(message, "required")
  {
    if Contains(message, "credentials not configured") then NotConfigured
    else if Contains(message, "required") then MissingContact
    else OtherFailure
  }

  /** What follows the upper-cased kind in the not-configured toast. */
  const NotConfiguredTail := " service not configured. Please add API keys in settings."

  /** The toast text for a failed `kind` notification. */
  function FailureMessage(kind: string, k: FailureKind): (text: string)
    ensures k == NotConfigured ==>
      |text| > |kind| && text[..|kind|] == Upper(kind) && text[|kind|..] == NotConfiguredTail
    ensures k == MissingContact ==>
      text == (if kind == "sms" then "Customer phone number is missing" else "Customer email is missing")
    ensures k == OtherFailure ==> text == "Failed to send " + kind + " notification" && Contains(text, kind)
  {
    match k
    case NotConfigured => Upper(kind) + NotConfiguredTail
    case MissingContact => if kind == "sms" then "Customer phone number is missing" else "Customer email is missing"
    case OtherFailure => ContainsInfix("Failed to send ", kind, " notification"); "Failed to send " + kind + " notification"
  }

  /** The edge function's own errors, read by this check: the missing phone
      reads as a missing contact and the Twilio one as an unconfigured
      service, but the missing Resend key and an unknown type fall through to
      the generic message. */
  lemma EdgeErrorsClassified()
    ensures Classify(SendNotification.TwilioNotConfigured) == NotConfigured
    ensures Classify(SendNotification.PhoneRequired) == MissingContact
    ensures Classify(SendNotification.EmailRequired) == MissingContact
    ensures Classify(SendNotification.ResendNotConfigured) == OtherFailure
    ensures Classify(SendNotification.InvalidType) == OtherFailure
  {
    TwilioErrorClassified();
    PhoneErrorClassified();
    EmailErrorClassified();
    ResendErrorClassified();
    TypeErrorClassified();
  }

  lemma TwilioErrorClassified()
    ensures Contains(SendNotification.TwilioNotConfigured, "credentials not configured")
  {
    var creds := "credentials not configured";
    assert SendNotification.TwilioNotConfigured == "Twilio " + creds;
    assert ("Twilio " + creds)[7..7 + |creds|] == creds;
    ContainsAt(SendNotification.TwilioNotConfigured, creds, 7);
  }

  lemma PhoneErrorClassified()
    ensures !Contains(SendNotification.PhoneRequired, "credentials not configured")
    ensures Contains(SendNotification.PhoneRequired, "required")
  {
    MissingCharNotContained(SendNotification.PhoneRequired, "credentials not configured", 0);
    PhoneErrorRequired();
  }

  lemma PhoneErrorRequired()
    ensures Contains(SendNotification.PhoneRequired, "required")
  {
    ContainsInfix("Customer phone number is ", "required", " for SMS");
    assert SendNotification.PhoneRequired == "Customer phone number is " + "required" + " for SMS";
  }

  lemma EmailErrorClassified()
    ensures !Contains(SendNotification.EmailRequired, "credentials not configured")
    ensures Contains(SendNotification.EmailRequired, "required")
  {
    MissingCharNotContained(SendNotification.EmailRequired, "credentials not configured", 21);
    EmailErrorRequired();
  }

  lemma EmailErrorRequired()
    ensures Contains(SendNotification.EmailRequired, "required")
  {
    ContainsInfix("Customer email is ", "required", " for email notification");
  }

  lemma ResendErrorClassified()
    ensures !Contains(SendNotification.ResendNotConfigured, "credentials not configured")
    ensures !Contains(SendNotification.ResendNotConfigured, "required")
  {
    MissingCharNotContained(SendNotification.ResendNotConfigured, "credentials not configured", 8);
    MissingCharNotContained(SendNotification.ResendNotConfigured, "required", 2);
  }

  lemma TypeErrorClassified()
    ensures !Contains(SendNotification.InvalidType, "credentials not configured")
    ensures !Contains(SendNotification.InvalidType, "required")
  {
    MissingCharNotContained(SendNotification.InvalidType, "credentials not configured", 1);
    MissingCharNotContained(SendNotification.InvalidType, "required", 0);
  }

  /** What one `sendNotification` call ends in: the data, or the error it
      rethrows after showing `toast`. */
  datatype SendOutcome = Sent | Rethrown(error: string, toast: string)

  /** The result of a bulk send. */
  datatype BulkResult = BulkResult(attempted: seq<NotifyCustomer>, successCount: nat, errorCount: nat)

  /** The hook's state. */
  class NotificationsHook {
    var loading: bool

    constructor ()
      ensures !loading
    {
      loading := false;
    }

    /** `sendNotification`: invokes the function with the customer's details;
        an error is reported with its classified message and rethrown. Either
        way `loading` is false afterwards. */
    method SendNotification(c: NotifyCustomer, kind: string, reply: InvokeReply)
      returns (body: SendNotification.RequestBody, outcome: SendOutcome)
      modifies this
      ensures body == InvokeBody(c, kind)
      ensures reply == Data ==> outcome == Sent
      ensures reply.InvokeError? ==>
        outcome == Rethrown(reply.message, FailureMessage(kind, Classify(reply.message)))
      ensures !loading
    {
      loading := true;
      body := InvokeBody(c, kind);
      if reply.InvokeError? {
        var toast := FailureMessage(kind, Classify(reply.message));
        outcome := Rethrown(reply.message, toast);
      } else {
        outcome := Sent;
      }
      loading := false;
    }

    /** `sendBulkNotifications`: every customer is tried once, in order; a
        failure is counted and the loop goes on; the counts add up to the
        list's length and nothing is thrown. `succeeds(c)` is whether the
        send to `c` returns normally. */
    method SendBulkNotifications(customers: seq<NotifyCustomer>, kind: string, succeeds: NotifyCustomer -> bool)
      returns (result: BulkResult)
      modifies this
      ensures result.attempted == customers
      ensures result.successCount == Count(customers, succeeds)
      ensures result.successCount + result.errorCount == |customers|
      ensures !loading
    {
      loading := true;
      var attempted := [];
      var successCount := 0;
      var errorCount := 0;
      for i := 0 to |customers|
        invariant attempted == customers[..i]
        invariant successCount == Count(customers[..i], succeeds)
        invariant successCount + errorCount == i
      {
        CountSnoc(customers[..i], customers[i], succeeds);
        assert customers[..i + 1] == customers[..i] + [customers[i]];
        attempted := attempted + [customers[i]];
        if succeeds(customers[i]) {
          successCount := successCount + 1;
        } else {
          errorCount := errorCount + 1;
        }
      }
      assert customers[..|customers|] == customers;
      loading := false;
      result := BulkResult(attempted, successCount, errorCount);
    }
  }
}
