/** The notification screen of src/components/NotificationSystem.tsx: which
    customers it lists, when its buttons are disabled, and how it hands sends
    to the `useNotifications` hook. */
module NotificationSystem {
  import opened Common
  import opened CustomerModel
  import opened Notifications
  import SendNotification

  datatype Settings = Settings(smsEnabled: bool, emailEnabled: bool, soundEnabled: bool, autoSend: bool)

  const InitialSettings := Settings(true, true, true, false)

  predicate NeedsNotification(c: Customer) {
    c.status == "waiting" && c.waitTime > 0
  }

  /** `customersNeedingNotification`: the waiting customers with a positive
      wait, in the list's order. */
  function NeedingNotification(customers: seq<Customer>): (r: seq<Customer>)
    ensures forall c :: c in r <==> c in customers && c.status == "waiting" && c.waitTime > 0
    ensures IsSubsequence(r, customers)
  {
    Filter(customers, NeedsNotification)
  }

  /** The bulk SMS button is disabled while loading, with SMS off, or with
      nobody to notify, that is with no customer waiting with a positive wait. */
  function BulkSmsDisabled(loading: bool, s: Settings, customers: seq<Customer>): (disabled: bool)
    ensures disabled <==>
      loading || !s.smsEnabled || forall c :: c in customers ==> !(c.status == "waiting" && c.waitTime > 0)
  {
    NobodyToNotify(customers);
    loading || !s.smsEnabled || |NeedingNotification(customers)| == 0
  }

  /** The bulk e-mail button follows the same rule with the e-mail switch. */
  function BulkEmailDisabled(loading: bool, s: Settings, customers: seq<Customer>): (disabled: bool)
    ensures disabled <==>
      loading || !s.emailEnabled || forall c :: c in customers ==> !(c.status == "waiting" && c.waitTime > 0)
  {
    NobodyToNotify(customers);
    loading || !s.emailEnabled || |NeedingNotification(customers)| == 0
  }

  /** The list of customers to notify is empty exactly when nobody is waiting
      with a positive wait. */
  lemma NobodyToNotify(customers: seq<Customer>)
    ensures |NeedingNotification(customers)| == 0 <==>
      forall c :: c in customers ==> !(c.status == "waiting" && c.waitTime > 0)
  {
    var r := NeedingNotification(customers);
    if |r| != 0 {
      assert r[0] in r;
    }
  }

  /** The per-customer SMS button needs a contact number. */
  function SmsButtonDisabled(loading: bool, s: Settings, c: Customer): (disabled: bool)
    ensures !disabled <==> !loading && s.smsEnabled && c.contactNumber != ""
  {
    loading || !s.smsEnabled || c.contactNumber == ""
  }

  /** The per-customer e-mail button needs an address. */
  function EmailButtonDisabled(loading: bool, s: Settings, c: Customer): (disabled: bool)
    ensures !disabled <==> !loading && s.emailEnabled && c.email != ""
  {
    loading || !s.emailEnabled || c.email == ""
  }

  /** A send from an enabled per-customer button is never refused by the edge
      function for a missing phone number or address. */
  lemma EnabledButtonsPassContactCheck(loading: bool, s: Settings, c: Customer, env: SendNotification.Env)
    ensures !SmsButtonDisabled(loading, s, c) ==>
      SendNotification.Dispatch(InvokeBody(FromCustomer(c), "sms"), env) != Err(SendNotification.PhoneRequired)
    ensures !EmailButtonDisabled(loading, s, c) ==>
      SendNotification.Dispatch(InvokeBody(FromCustomer(c), "email"), env) != Err(SendNotification.EmailRequired)
  {
  }

  /** The listed customers as the hook sees them. */
  function AsNotifyCustomers(cs: seq<Customer>): (r: seq<NotifyCustomer>)
    ensures |r| == |cs| && forall i :: 0 <= i < |cs| ==> r[i] == FromCustomer(cs[i])
  {
    if cs == [] then [] else [FromCustomer(cs[0])] + AsNotifyCustomers(cs[1..])
  }

  /** `handleSendNotification`: an unknown id does nothing; otherwise the hook
      sends to the first customer with the id. A failure is caught here, so
      the call always returns normally. */
  method HandleSendNotification(hook: NotificationsHook, customers: seq<Customer>, id: string,
    kind: string, reply: InvokeReply)
    returns (body: Option<SendNotification.RequestBody>)
    modifies hook
    ensures FindCustomer(customers, id).None? ==> body == None && hook.loading == old(hook.loading)
    ensures FindCustomer(customers, id).Some? ==>
      body == Some(InvokeBody(FromCustomer(FindCustomer(customers, id).value), kind)) && !hook.loading
  {
    var found := FindCustomer(customers, id);
    if found.None? {
      return None;
    }
    var sent, outcome := hook.SendNotification(FromCustomer(found.value), kind, reply);
    body := Some(sent);
  }

  /** `handleBulkNotifications`: the hook's bulk send over the listed customers. */
  method HandleBulkNotifications(hook: NotificationsHook, customers: seq<Customer>, kind: string,
    succeeds: NotifyCustomer -> bool)
    returns (result: BulkResult)
    modifies hook
    ensures result.attempted == AsNotifyCustomers(NeedingNotification(customers))
    ensures result.successCount + result.errorCount == |NeedingNotification(customers)|
    ensures !hook.loading
  {
    result := hook.SendBulkNotifications(AsNotifyCustomers(NeedingNotification(customers)), kind, succeeds);
  }
}
