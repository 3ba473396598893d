/** The customer record in its two shapes: the `Customer` interface the
    screens use (src/contexts/CustomerContext.tsx) and the row of the
    `customers` table (src/integrations/supabase/types.ts), with the JSON
    encoding of its two object-valued columns and the token and OR-number
    texts given to a new customer. */
module CustomerModel {
  import opened Common

  datatype Prescription = Prescription(od: string, os: string, ou: string, pd: string, add: string)

  datatype PaymentInfo = PaymentInfo(mode: string, amount: string)

  const EmptyPrescription := Prescription("", "", "", "", "")
  const EmptyPaymentInfo := PaymentInfo("", "")

  /** The `Customer` interface. `status` is a string because the row's text is
      cast to the union without a check; `registrationTime` is a millisecond
      timestamp. */
  datatype Customer = Customer(
    id: string, name: string, contactNumber: string, email: string, age: int,
    address: string, occupation: string, distribution: string, salesAgent: string,
    assignedDoctor: string, prescription: Prescription, gradeType: string,
    lensType: string, frameCode: string, paymentInfo: PaymentInfo, remarks: string,
    token: string, priority: bool, priorityType: Option<string>, waitTime: int,
    status: string, registrationTime: int, orNumber: string)

  /** A JSON value stored in a `Json` column. Object members are strings, the
      only kind the screens write. */
  datatype Json = JNull | JObject(members: map<string, string>) | JArray(items: seq<string>) | JText(text: string) | JNumber(n: int) | JBool(b: bool)
  {
    /** `typeof v === 'object' && v !== null`: objects and arrays. */
    predicate IsObject() {
      JObject? || JArray?
    }

    /** `(v as any)[key] || ''` on an object value: the member's text, or '' when
        it is missing (arrays have none of the keys used here). */
    function MemberOrEmpty(key: string): string
      requires IsObject()
    {
      if JObject? then MemberText(members, key) else ""
    }
  }

  function PrescriptionJson(p: Prescription): Json {
    JObject(map["od" := p.od, "os" := p.os, "ou" := p.ou, "pd" := p.pd, "add" := p.add])
  }

  function PaymentInfoJson(p: PaymentInfo): Json {
    JObject(map["mode" := p.mode, "amount" := p.amount])
  }

  /** A prescription field by its JSON member name. */
  function PrescriptionMember(p: Prescription, key: string): string {
    if key == "od" then p.od
    else if key == "os" then p.os
    else if key == "ou" then p.ou
    else if key == "pd" then p.pd
    else if key == "add" then p.add
    else ""
  }

  /** The member `key` of an object's members, '' when it is missing. */
  function MemberText(members: map<string, string>, key: string): string {
    if key in members then members[key] else ""
  }

  /** The prescription read from a column value: each member of an object
      (a missing one as ''), and all five empty for anything else. */
  function PrescriptionOf(j: Json): (p: Prescription)
    ensures !j.IsObject() ==> p == EmptyPrescription
    ensures j.JArray? ==> p == EmptyPrescription
    ensures j.JObject? ==> forall key :: key in {"od", "os", "ou", "pd", "add"} ==>
      PrescriptionMember(p, key) == MemberText(j.members, key)
  {
    if j.IsObject() then
      Prescription(j.MemberOrEmpty("od"), j.MemberOrEmpty("os"), j.MemberOrEmpty("ou"),
        j.MemberOrEmpty("pd"), j.MemberOrEmpty("add"))
    else EmptyPrescription
  }

  /** The payment information read from a column value, defaulted like the prescription. */
  function PaymentInfoOf(j: Json): (p: PaymentInfo)
    ensures !j.IsObject() ==> p == EmptyPaymentInfo
    ensures j.JArray? ==> p == EmptyPaymentInfo
    ensures j.JObject? ==> p.mode == MemberText(j.members, "mode") && p.amount == MemberText(j.members, "amount")
  {
    if j.IsObject() then PaymentInfo(j.MemberOrEmpty("mode"), j.MemberOrEmpty("amount"))
    else EmptyPaymentInfo
  }

  /** A stored prescription reads back unchanged. */
  lemma PrescriptionRoundTrip(p: Prescription)
    ensures PrescriptionOf(PrescriptionJson(p)) == p
  {
  }

  /** Stored payment information reads back unchanged. */
  lemma PaymentInfoRoundTrip(p: PaymentInfo)
    ensures PaymentInfoOf(PaymentInfoJson(p)) == p
  {
  }

  /** A row of `customers`. Field names are the table's column names.
      `created_at` and `updated_at` are never read by the screens modelled here. */
  datatype Row = Row(
    id: string, name: string, contact_number: string, email: string, age: int,
    address: string, occupation: string, distribution: string, sales_agent: string,
    assigned_doctor: string, prescription: Json, grade_type: string, lens_type: string,
    frame_code: string, payment_info: Json, remarks: Option<string>, token: string,
    priority: bool, priority_type: Option<string>, wait_time: int, status: string,
    registration_time: int, or_number: string)

  /** What a screen hands over to register a customer: the record without the
      fields the store or the hook fill in (id, token, wait time, status,
      registration time and OR number). */
  datatype CustomerDraft = CustomerDraft(
    name: string, contactNumber: string, email: string, age: int, address: string,
    occupation: string, distribution: string, salesAgent: string, assignedDoctor: string,
    prescription: Prescription, gradeType: string, lensType: string, frameCode: string,
    paymentInfo: PaymentInfo, remarks: string, priority: bool, priorityType: Option<string>)

  /** The draft part of a stored customer. */
  function DraftOf(c: Customer): CustomerDraft {
    CustomerDraft(c.name, c.contactNumber, c.email, c.age, c.address, c.occupation,
      c.distribution, c.salesAgent, c.assignedDoctor, c.prescription, c.gradeType,
      c.lensType, c.frameCode, c.paymentInfo, c.remarks, c.priority, c.priorityType)
  }

  /** `Partial<Customer>`: `None` is a field left undefined. */
  datatype CustomerUpdate = CustomerUpdate(
    id: Option<string>, name: Option<string>, contactNumber: Option<string>,
    email: Option<string>, age: Option<int>, address: Option<string>,
    occupation: Option<string>, distribution: Option<string>, salesAgent: Option<string>,
    assignedDoctor: Option<string>, prescription: Option<Prescription>,
    gradeType: Option<string>, lensType: Option<string>, frameCode: Option<string>,
    paymentInfo: Option<PaymentInfo>, remarks: Option<string>, token: Option<string>,
    priority: Option<bool>, priorityType: Option<string>, waitTime: Option<int>,
    status: Option<string>, registrationTime: Option<int>, orNumber: Option<string>)

  const NoUpdate := CustomerUpdate(None, None, None, None, None, None, None, None, None,
    None, None, None, None, None, None, None, None, None, None, None, None, None, None)

  /** The customer after an update: every defined field but the id replaced,
      every other field kept. */
  function Merge(c: Customer, u: CustomerUpdate): Customer {
    c.(name := u.name.GetOr(c.name), contactNumber := u.contactNumber.GetOr(c.contactNumber),
      email := u.email.GetOr(c.email), age := u.age.GetOr(c.age),
      address := u.address.GetOr(c.address), occupation := u.occupation.GetOr(c.occupation),
      distribution := u.distribution.GetOr(c.distribution),
      salesAgent := u.salesAgent.GetOr(c.salesAgent),
      assignedDoctor := u.assignedDoctor.GetOr(c.assignedDoctor),
      prescription := u.prescription.GetOr(c.prescription),
      gradeType := u.gradeType.GetOr(c.gradeType), lensType := u.lensType.GetOr(c.lensType),
      frameCode := u.frameCode.GetOr(c.frameCode),
      paymentInfo := u.paymentInfo.GetOr(c.paymentInfo), remarks := u.remarks.GetOr(c.remarks),
      token := u.token.GetOr(c.token), priority := u.priority.GetOr(c.priority),
      priorityType := if u.priorityType.Some? then u.priorityType else c.priorityType,
      waitTime := u.waitTime.GetOr(c.waitTime), status := u.status.GetOr(c.status),
      registrationTime := u.registrationTime.GetOr(c.registrationTime),
      orNumber := u.orNumber.GetOr(c.orNumber))
  }

  /** The draw padded to three digits: three digits whose value is the draw. */
  lemma PaddedDraw(draw: nat)
    requires draw < 1000
    ensures |PadStart(Decimal(draw), 3, '0')| == 3
    ensures AllDigits(PadStart(Decimal(draw), 3, '0'))
    ensures DigitsValue(PadStart(Decimal(draw), 3, '0')) == draw
  {
    DecimalShort(draw);
    DecimalValue(draw);
    var digits := Decimal(draw);
    var padded := PadStart(digits, 3, '0');
    var k: nat :| padded == Repeat('0', k) + digits;
    LeadingZeros(k, digits);
  }

  /** `T-` and the draw `Math.floor(Math.random() * 1000)` padded to three digits. */
  function TokenText(draw: nat): (t: string)
    requires draw < 1000
    ensures |t| == 5 && t[..2] == "T-" && AllDigits(t[2..]) && DigitsValue(t[2..]) == draw
  {
    var padded := PadStart(Decimal(draw), 3, '0');
    PaddedDraw(draw);
    assert ("T-" + padded)[2..] == padded;
    "T-" + padded
  }

  /** Reads the draw back from a token text. */
  function TokenDraw(t: string): Option<nat>
  {
    if |t| == 5 && t[..2] == "T-" then ParseDigits(t[2..]) else None
  }

  /** Every token reads back to the draw it was made from. */
  lemma TokenRoundTrip(draw: nat)
    requires draw < 1000
    ensures TokenDraw(TokenText(draw)) == Some(draw)
  {
  }

  /** `OR-` and the millisecond clock `Date.now()`. */
  function OrNumberText(now: nat): (t: string)
    ensures |t| > 3 && t[..3] == "OR-" && AllDigits(t[3..]) && DigitsValue(t[3..]) == now
    ensures t[3..] == Decimal(now) && (|t| > 4 ==> t[3] != '0')
  {
    DecimalValue(now);
    assert ("OR-" + Decimal(now))[3..] == Decimal(now);
    "OR-" + Decimal(now)
  }

  /** Reads the timestamp back from an OR number. */
  function OrNumberTime(t: string): Option<nat>
  {
    if |t| > 3 && t[..3] == "OR-" then ParseDigits(t[3..]) else None
  }

  lemma OrNumberRoundTrip(now: nat)
    ensures OrNumberTime(OrNumberText(now)) == Some(now)
  {
  }

  /** Position `i` holds the first customer with the id. */
  predicate FirstWithId(cs: seq<Customer>, i: int, id: string) {
    0 <= i < |cs| && cs[i].id == id && forall j :: 0 <= j < i ==> cs[j].id != id
  }

  /** `customers.find(c => c.id === id)`: the first customer with the id, if any. */
  function FindCustomer(cs: seq<Customer>, id: string): (r: Option<Customer>)
    ensures r.None? <==> forall i :: 0 <= i < |cs| ==> cs[i].id != id
    ensures r.Some? ==> exists i :: FirstWithId(cs, i, id) && cs[i] == r.value
  {
    if cs == [] then None
    else if cs[0].id == id then
      assert FirstWithId(cs, 0, id);
      Some(cs[0])
    else
      var rest := FindCustomer(cs[1..], id);
      if rest.Some? then
        ghost var i :| FirstWithId(cs[1..], i, id) && cs[1..][i] == rest.value;
        assert FirstWithId(cs, i + 1, id);
        rest
      else rest
  }
}
