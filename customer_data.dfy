/** The row-to-`Customer` transform of `fetchCustomers`
    (src/hooks/useCustomerData.ts), and how it reads back what
    `useCustomerOperations` writes. */
module CustomerData {
  import opened Common
  import opened CustomerModel
  import opened CustomerOperations

  /** One fetched row as the screens see it: the columns under their camelCase
      names, the two JSON columns decoded with '' for anything missing, and a
      null remark as ''. The status text is cast without a check. */
  function ToCustomer(r: Row): (c: Customer)
    ensures c.id == r.id && c.name == r.name && c.email == r.email && c.status == r.status
    ensures c.contactNumber == r.contact_number && c.salesAgent == r.sales_agent
      && c.assignedDoctor == r.assigned_doctor && c.gradeType == r.grade_type
      && c.lensType == r.lens_type && c.frameCode == r.frame_code
      && c.priorityType == r.priority_type && c.waitTime == r.wait_time
      && c.registrationTime == r.registration_time && c.orNumber == r.or_number
    ensures c.age == r.age && c.address == r.address && c.occupation == r.occupation
      && c.distribution == r.distribution && c.token == r.token && c.priority == r.priority
    ensures c.prescription == PrescriptionOf(r.prescription) && c.paymentInfo == PaymentInfoOf(r.payment_info)
    ensures c.remarks == "" <==> r.remarks == None || r.remarks == Some("")
    ensures r.remarks.Some? ==> c.remarks == r.remarks.value
  {
    Customer(r.id, r.name, r.contact_number, r.email, r.age, r.address, r.occupation,
      r.distribution, r.sales_agent, r.assigned_doctor, PrescriptionOf(r.prescription),
      r.grade_type, r.lens_type, r.frame_code, PaymentInfoOf(r.payment_info),
      r.remarks.GetOr(""), r.token, r.priority, r.priority_type, r.wait_time, r.status,
      r.registration_time, r.or_number)
  }

  /** `data.map(...)`: one customer per row, in the rows' order. */
  function ToCustomers(rows: seq<Row>): (cs: seq<Customer>)
    ensures |cs| == |rows|
    ensures forall i :: 0 <= i < |rows| ==> cs[i] == ToCustomer(rows[i])
  {
    if rows == [] then [] else [ToCustomer(rows[0])] + ToCustomers(rows[1..])
  }

  /** The order the query asks for: ascending `registration_time`. */
  predicate RowsByTime(rows: seq<Row>) {
    forall i, j :: 0 <= i < j < |rows| ==> rows[i].registration_time <= rows[j].registration_time
  }

  predicate CustomersByTime(cs: seq<Customer>) {
    forall i, j :: 0 <= i < j < |cs| ==> cs[i].registrationTime <= cs[j].registrationTime
  }

  /** The transform keeps the rows' order and their ids. */
  lemma ToCustomersKeepsOrder(rows: seq<Row>)
    ensures RowsByTime(rows) <==> CustomersByTime(ToCustomers(rows))
    ensures forall i :: 0 <= i < |rows| ==> ToCustomers(rows)[i].id == rows[i].id
  {
  }

  /** The answer to the select: the rows, or an error. */
  datatype FetchReply = Fetched(rows: seq<Row>) | FetchFailed

  /** The hook's state. */
  datatype DataState = DataState(customers: seq<Customer>, loading: bool)

  /** `fetchCustomers`: the list is replaced by the transformed rows, or kept
      on an error; `loading` is false afterwards either way. */
  function FetchCustomers(s: DataState, reply: FetchReply): (s': DataState)
    ensures !s'.loading
    ensures reply.FetchFailed? ==> s'.customers == s.customers
    ensures reply.Fetched? ==> |s'.customers| == |reply.rows|
    ensures reply.Fetched? ==> forall i :: 0 <= i < |reply.rows| ==> s'.customers[i] == ToCustomer(reply.rows[i])
  {
    match reply
    case Fetched(rows) => DataState(ToCustomers(rows), false)
    case FetchFailed => s.(loading := false)
  }

  /** A new customer's row reads back as the draft it was made from, waiting,
      with wait time 0, the draw in its token and the clock in its OR number. */
  lemma InsertReadsBack(d: CustomerDraft, draw: nat, now: nat, id: string, t: int)
    requires draw < 1000
    ensures var c := ToCustomer(StoredRow(NewCustomerRecord(d, draw, now), id, t));
      && DraftOf(c) == d && c.id == id && c.registrationTime == t
      && c.status == "waiting" && c.waitTime == 0
      && TokenDraw(c.token) == Some(draw) && OrNumberTime(c.orNumber) == Some(now)
  {
    PrescriptionRoundTrip(d.prescription);
    PaymentInfoRoundTrip(d.paymentInfo);
  }

  /** Reading a row after the store applied any column map gives the customer
      read before, merged with the update the map reads back as. */
  lemma ApplyReadsBack(r: Row, db: map<Column, DbValue>)
    ensures ToCustomer(ApplyDbUpdates(r, db)) == Merge(ToCustomer(r), UpdateFromDb(db))
  {
  }

  /** An update sent by `updateCustomerInDatabase` and applied by the store
      reads back as the customer merged with the update. */
  lemma UpdateReadsBack(r: Row, u: CustomerUpdate)
    ensures ToCustomer(ApplyDbUpdates(r, DbUpdatesOf(u))) == Merge(ToCustomer(r), u)
  {
    ApplyReadsBack(r, DbUpdatesOf(u));
    DbUpdatesRoundTrip(u);
    MergeIgnoresId(ToCustomer(r), u);
  }

  /** The update's id never reaches the customer. */
  lemma MergeIgnoresId(c: Customer, u: CustomerUpdate)
    ensures Merge(c, u.(id := None)) == Merge(c, u)
    ensures Merge(c, u).id == c.id
  {
  }
}
