/** The SMS notification centre of src/components/NotificationCenter.tsx: the
    customer selection, the template list and the bulk send over the
    selection. */
module NotificationCenter {
  import opened Common
  import opened CustomerModel

  // ---------------------------------------------------------------------------
  // Selection

  /** `toggleCustomerSelection`: a selected id is removed (every copy of it),
      any other id is appended at the end; the other ids keep their order. */
  function Toggled(selected: seq<string>, id: string): (r: seq<string>)
    ensures id in selected ==> id !in r && IsSubsequence(r, selected)
    ensures id in selected ==> forall x :: x != id ==> (x in r <==> x in selected)
    ensures id !in selected ==> r == selected + [id]
  {
    if id in selected then Filter(selected, x => x != id) else selected + [id]
  }

  /** Toggling an unselected id twice gives the selection back. */
  lemma ToggleTwice(selected: seq<string>, id: string)
    requires id !in selected
    ensures Toggled(Toggled(selected, id), id) == selected
  {
    var keep := x => x != id;
    FilterAppend(selected, [id], keep);
    FilterAll(selected, keep);
    assert Filter([id], keep) == [];
  }

  /** `selectAllCustomers`: every customer's id, in the customers' order. */
  function AllIds(customers: seq<Customer>): (ids: seq<string>)
    ensures |ids| == |customers|
    ensures forall i :: 0 <= i < |customers| ==> ids[i] == customers[i].id
  {
    if customers == [] then [] else [customers[0].id] + AllIds(customers[1..])
  }

  // ---------------------------------------------------------------------------
  // Templates

  datatype Template = Template(id: string, name: string, kind: string, message: string, enabled: bool)

  /** The `newTemplate` draft: a template without its id. */
  datatype TemplateDraft = TemplateDraft(name: string, kind: string, message: string, enabled: bool)

  const EmptyDraft := TemplateDraft("", "sms", "", true)

  const InitialTemplates: seq<Template> := [
    Template("1", "Queue Ready", "sms",
      "Hello {{customerName}}, your queue number {{token}} is ready! Please proceed to our counter.", true),
    Template("2", "Service Complete", "sms",
      "Thank you {{customerName}}! Your service is complete. Token: {{token}}. Please collect your receipt.", false),
    Template("3", "Wait Time Update", "sms",
      "Hello {{customerName}}! Your queue number {{token}} at Esca Optical has an estimated wait time of {{waitTime}} minutes.", true)]

  /** `toggleTemplate`: the templates with the id have `enabled` flipped and
      nothing else changed; the others are untouched. */
  function ToggledTemplates(ts: seq<Template>, id: string): (r: seq<Template>)
    ensures |r| == |ts|
    ensures forall i :: 0 <= i < |ts| && ts[i].id != id ==> r[i] == ts[i]
    ensures forall i :: 0 <= i < |ts| && ts[i].id == id ==> r[i] == ts[i].(enabled := !ts[i].enabled)
  {
    if ts == [] then []
    else [if ts[0].id == id then ts[0].(enabled := !ts[0].enabled) else ts[0]] + ToggledTemplates(ts[1..], id)
  }

  /** Toggling the same template twice restores the list. */
  lemma ToggleTemplateTwice(ts: seq<Template>, id: string)
    ensures ToggledTemplates(ToggledTemplates(ts, id), id) == ts
  {
  }

  /** The outcome of `saveTemplate`: the new list and the new draft. */
  datatype Saved = Saved(templates: seq<Template>, draft: TemplateDraft)

  /** `saveTemplate` at clock reading `now`: a draft without a name or a
      message changes nothing; otherwise it is appended under the id
      `Date.now().toString()` and the draft is cleared. */
  function SaveTemplate(ts: seq<Template>, draft: TemplateDraft, now: nat): (s: Saved)
    ensures draft.name == "" || draft.message == "" ==> s == Saved(ts, draft)
    ensures draft.name != "" && draft.message != "" ==>
      |s.templates| == |ts| + 1 && s.templates[..|ts|] == ts && s.draft == EmptyDraft
    ensures draft.name != "" && draft.message != "" ==>
      var t := s.templates[|ts|];
      AllDigits(t.id) && DigitsValue(t.id) == now && t.id == Decimal(now) && (|t.id| > 1 ==> t.id[0] != '0')
      && t.name == draft.name && t.kind == draft.kind
      && t.message == draft.message && t.enabled == draft.enabled
  {
    if draft.name == "" || draft.message == "" then Saved(ts, draft)
    else
      DecimalValue(now);
      var t := Template(Decimal(now), draft.name, draft.kind, draft.message, draft.enabled);
      assert (ts + [t])[..|ts|] == ts;
      Saved(ts + [t], EmptyDraft)
  }

  /** The templates offered in the template picker. */
  function EnabledTemplates(ts: seq<Template>): (r: seq<Template>)
    ensures forall t :: t in r <==> t in ts && t.enabled
    ensures IsSubsequence(r, ts)
  {
    Filter(ts, (t: Template) => t.enabled)
  }

  /** Of the initial templates, "Queue Ready" and "Wait Time Update" are offered. */
  lemma InitialOffer()
    ensures EnabledTemplates(InitialTemplates) == [InitialTemplates[0], InitialTemplates[2]]
  {
    var keep := (t: Template) => t.enabled;
    assert InitialTemplates == [InitialTemplates[0]] + ([InitialTemplates[1]] + [InitialTemplates[2]]);
    FilterAppend([InitialTemplates[0]], [InitialTemplates[1]] + [InitialTemplates[2]], keep);
    FilterAppend([InitialTemplates[1]], [InitialTemplates[2]], keep);
  }

  /** `templates.find(t => t.id === id)`: the first template with the id, if any. */
  function FindTemplate(ts: seq<Template>, id: string): (r: Option<Template>)
    ensures r.None? <==> forall i :: 0 <= i < |ts| ==> ts[i].id != id
    ensures r.Some? ==> exists i :: FirstTemplateWithId(ts, i, id) && ts[i] == r.value
  {
    if ts == [] then None
    else if ts[0].id == id then
      assert FirstTemplateWithId(ts, 0, id);
      Some(ts[0])
    else
      var rest := FindTemplate(ts[1..], id);
      if rest.Some? then
        ghost var i :| FirstTemplateWithId(ts[1..], i, id) && ts[1..][i] == rest.value;
        assert FirstTemplateWithId(ts, i + 1, id);
        rest
      else rest
  }

  /** Position `i` holds the first template with the id. */
  predicate FirstTemplateWithId(ts: seq<Template>, i: int, id: string) {
    0 <= i < |ts| && ts[i].id == id && forall j :: 0 <= j < i ==> ts[j].id != id
  }

  // ---------------------------------------------------------------------------
  // Bulk send

  /** The SMS sender the component takes from `useNotifications`. That hook
      has no `sendSMSNotification`, so as written the call finds nothing to
      call and throws (`MissingSender`); `Sender(delivers)` is a working
      sender, `delivers(id)` saying whether the send to customer `id` succeeds. */
  datatype SmsSender = MissingSender | Sender(delivers: string -> bool)

  /** Whether `sendNotificationToCustomer` returns normally for one selected id.
      An unknown customer or template returns early, which the loop counts
      as a success. */
  function SendReturns(customers: seq<Customer>, ts: seq<Template>, templateId: string,
    sender: SmsSender, id: string): bool
  {
    if FindCustomer(customers, id).None? || FindTemplate(ts, templateId).None? then true
    else match sender
      case MissingSender => false
      case Sender(delivers) => delivers(id)
  }

  /** As written: every send to a known customer with a known template fails. */
  lemma MissingSenderFailsEveryone(customers: seq<Customer>, ts: seq<Template>, templateId: string, id: string)
    ensures SendReturns(customers, ts, templateId, MissingSender, id) <==>
      (forall i :: 0 <= i < |customers| ==> customers[i].id != id)
      || (forall i :: 0 <= i < |ts| ==> ts[i].id != templateId)
  {
  }

  /** With a working sender, a known customer counts as sent exactly when the
      send succeeds. */
  lemma WorkingSenderCounts(customers: seq<Customer>, ts: seq<Template>, templateId: string,
    delivers: string -> bool, id: string)
    requires exists i :: 0 <= i < |customers| && customers[i].id == id
    requires exists i :: 0 <= i < |ts| && ts[i].id == templateId
    ensures SendReturns(customers, ts, templateId, Sender(delivers), id) == delivers(id)
  {
  }

  /** As written, a bulk send to known customers with a known template
      reports no success at all. */
  lemma MissingSenderNoSuccess(customers: seq<Customer>, ts: seq<Template>, templateId: string, selected: seq<string>)
    requires exists i :: 0 <= i < |ts| && ts[i].id == templateId
    requires forall id :: id in selected ==> exists i :: 0 <= i < |customers| && customers[i].id == id
    ensures Count(selected, id => SendReturns(customers, ts, templateId, MissingSender, id)) == 0
  {
    CountNone(selected, id => SendReturns(customers, ts, templateId, MissingSender, id));
  }

  /** What a bulk send reports. */
  datatype BulkReport = NothingToSend | BulkDone(successCount: nat, errorCount: nat)

  /** The component and its state. */
  class NotificationCenterState {
    var templates: seq<Template>
    var newTemplate: TemplateDraft
    var selectedCustomers: seq<string>
    var selectedTemplate: string
    var bulkSending: bool

    constructor ()
      ensures templates == InitialTemplates && newTemplate == EmptyDraft
      ensures selectedCustomers == [] && selectedTemplate == "" && !bulkSending
    {
      templates := InitialTemplates;
      newTemplate := EmptyDraft;
      selectedCustomers := [];
      selectedTemplate := "";
      bulkSending := false;
    }

    method ToggleCustomerSelection(id: string)
      modifies this
      ensures selectedCustomers == Toggled(old(selectedCustomers), id)
      ensures templates == old(templates) && newTemplate == old(newTemplate)
      ensures selectedTemplate == old(selectedTemplate) && bulkSending == old(bulkSending)
    {
      selectedCustomers := Toggled(selectedCustomers, id);
    }

    method SelectAllCustomers(customers: seq<Customer>)
      modifies this
      ensures selectedCustomers == AllIds(customers)
      ensures templates == old(templates) && newTemplate == old(newTemplate)
      ensures selectedTemplate == old(selectedTemplate) && bulkSending == old(bulkSending)
    {
      selectedCustomers := AllIds(customers);
    }

    method ClearSelection()
      modifies this
      ensures selectedCustomers == []
      ensures templates == old(templates) && newTemplate == old(newTemplate)
      ensures selectedTemplate == old(selectedTemplate) && bulkSending == old(bulkSending)
    {
      selectedCustomers := [];
    }

    method ToggleTemplate(id: string)
      modifies this
      ensures templates == ToggledTemplates(old(templates), id)
      ensures newTemplate == old(newTemplate) && selectedCustomers == old(selectedCustomers)
      ensures selectedTemplate == old(selectedTemplate) && bulkSending == old(bulkSending)
    {
      templates := ToggledTemplates(templates, id);
    }

    method SaveTemplateAt(now: nat)
      modifies this
      ensures Saved(templates, newTemplate) == SaveTemplate(old(templates), old(newTemplate), now)
      ensures selectedCustomers == old(selectedCustomers)
      ensures selectedTemplate == old(selectedTemplate) && bulkSending == old(bulkSending)
    {
      var s := SaveTemplate(templates, newTemplate, now);
      templates := s.templates;
      newTemplate := s.draft;
    }

    /** `sendBulkNotifications`: with no template or no selection nothing
        happens; otherwise each selected id is tried once, in order, a
        failure does not stop the rest, the two counts add up to the
        selection's length and the selection is cleared. */
    method SendBulkNotifications(customers: seq<Customer>, sender: SmsSender) returns (report: BulkReport)
      modifies this
      ensures old(selectedTemplate) == "" || old(selectedCustomers) == [] ==>
        report == NothingToSend && selectedCustomers == old(selectedCustomers) && bulkSending == old(bulkSending)
      ensures old(selectedTemplate) != "" && old(selectedCustomers) != [] ==>
        report.BulkDone? && selectedCustomers == [] && !bulkSending
        && report.successCount + report.errorCount == |old(selectedCustomers)|
        && report.successCount == Count(old(selectedCustomers),
          id => SendReturns(customers, old(templates), old(selectedTemplate), sender, id))
      ensures templates == old(templates) && newTemplate == old(newTemplate)
      ensures selectedTemplate == old(selectedTemplate)
    {
      if selectedTemplate == "" || |selectedCustomers| == 0 {
        return NothingToSend;
      }
      bulkSending := true;
      var selected := selectedCustomers;
      var ts := templates;
      var templateId := selectedTemplate;
      var sends := id => SendReturns(customers, ts, templateId, sender, id);
      var successCount := 0;
      var errorCount := 0;
      var i := 0;
      while i < |selected|
        invariant 0 <= i <= |selected|
        invariant successCount == Count(selected[..i], sends)
        invariant successCount + errorCount == i
        modifies {}
      {
        CountSnoc(selected[..i], selected[i], sends);
        assert selected[..i + 1] == selected[..i] + [selected[i]];
        if sends(selected[i]) {
          successCount := successCount + 1;
        } else {
          errorCount := errorCount + 1;
        }
        i := i + 1;
      }
      assert selected[..i] == selected;
      selectedCustomers := [];
      bulkSending := false;
      report := BulkDone(successCount, errorCount);
    }
  }
}
