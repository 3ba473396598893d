/** The two store writes of src/hooks/useCustomerOperations.ts: the record
    inserted for a new customer and the partial update, whose camelCase fields
    are written under the table's snake_case column names. The store itself is
    a reply passed in. */
module CustomerOperations {
  import opened Common
  import opened CustomerModel

  /** The columns of `customers` a screen can write. */
  datatype Column =
    | IdColumn | NameColumn | ContactNumberColumn | EmailColumn | AgeColumn | AddressColumn
    | OccupationColumn | DistributionColumn | SalesAgentColumn | AssignedDoctorColumn
    | PrescriptionColumn | GradeTypeColumn | LensTypeColumn | FrameCodeColumn
    | PaymentInfoColumn | RemarksColumn | TokenColumn | PriorityColumn | PriorityTypeColumn
    | WaitTimeColumn | StatusColumn | RegistrationTimeColumn | OrNumberColumn

  /** The column's name in the table. */
  function ColumnName(c: Column): string {
    match c
    case IdColumn => "id"
    case NameColumn => "name"
    case ContactNumberColumn => "contact_number"
    case EmailColumn => "email"
    case AgeColumn => "age"
    case AddressColumn => "address"
    case OccupationColumn => "occupation"
    case DistributionColumn => "distribution"
    case SalesAgentColumn => "sales_agent"
    case AssignedDoctorColumn => "assigned_doctor"
    case PrescriptionColumn => "prescription"
    case GradeTypeColumn => "grade_type"
    case LensTypeColumn => "lens_type"
    case FrameCodeColumn => "frame_code"
    case PaymentInfoColumn => "payment_info"
    case RemarksColumn => "remarks"
    case TokenColumn => "token"
    case PriorityColumn => "priority"
    case PriorityTypeColumn => "priority_type"
    case WaitTimeColumn => "wait_time"
    case StatusColumn => "status"
    case RegistrationTimeColumn => "registration_time"
    case OrNumberColumn => "or_number"
  }

  /** The name of the `Customer` field stored in the column. */
  function FieldName(c: Column): string {
    match c
    case IdColumn => "id"
    case NameColumn => "name"
    case ContactNumberColumn => "contactNumber"
    case EmailColumn => "email"
    case AgeColumn => "age"
    case AddressColumn => "address"
    case OccupationColumn => "occupation"
    case DistributionColumn => "distribution"
    case SalesAgentColumn => "salesAgent"
    case AssignedDoctorColumn => "assignedDoctor"
    case PrescriptionColumn => "prescription"
    case GradeTypeColumn => "gradeType"
    case LensTypeColumn => "lensType"
    case FrameCodeColumn => "frameCode"
    case PaymentInfoColumn => "paymentInfo"
    case RemarksColumn => "remarks"
    case TokenColumn => "token"
    case PriorityColumn => "priority"
    case PriorityTypeColumn => "priorityType"
    case WaitTimeColumn => "waitTime"
    case StatusColumn => "status"
    case RegistrationTimeColumn => "registrationTime"
    case OrNumberColumn => "orNumber"
  }

  /** The lower-case letter of an upper-case ASCII letter. */
  function LowerChar(c: char): char
    requires 'A' <= c <= 'Z'
  {
    ((c as int) - ('A' as int) + ('a' as int)) as char
  }

  /** camelCase to snake_case: every upper-case ASCII letter becomes `_` and
      its lower-case letter. */
  function SnakeCase(s: string): string
    decreases |s|
  {
    if s == [] then []
    else
      var head := if 'A' <= s[0] <= 'Z' then ['_', LowerChar(s[0])] else [s[0]];
      head + SnakeCase(s[1..])
  }

  /** The eleven fields the table stores under another name. */
  predicate IsRenamed(c: Column) {
    match c
    case ContactNumberColumn | SalesAgentColumn | AssignedDoctorColumn | GradeTypeColumn
      | LensTypeColumn | FrameCodeColumn | PaymentInfoColumn | PriorityTypeColumn
      | WaitTimeColumn | RegistrationTimeColumn | OrNumberColumn => true
    case _ => false
  }

  /** The renamed fields are stored under the snake_case of their names. */
  lemma RenamedColumnsAreSnakeCase(c: Column)
    requires IsRenamed(c)
    ensures ColumnName(c) == SnakeCase(FieldName(c))
  {
    match c
    case ContactNumberColumn => ContactNumberSnakeCase();
    case SalesAgentColumn => SalesAgentSnakeCase();
    case AssignedDoctorColumn => AssignedDoctorSnakeCase();
    case GradeTypeColumn => GradeTypeSnakeCase();
    case LensTypeColumn => LensTypeSnakeCase();
    case FrameCodeColumn => FrameCodeSnakeCase();
    case PaymentInfoColumn => PaymentInfoSnakeCase();
    case PriorityTypeColumn => PriorityTypeSnakeCase();
    case WaitTimeColumn => WaitTimeSnakeCase();
    case RegistrationTimeColumn => RegistrationTimeSnakeCase();
    case OrNumberColumn => OrNumberSnakeCase();
    case _ =>
  }

  /** Every other field is stored under its own name. */
  lemma SameNamedColumns(c: Column)
    requires !IsRenamed(c)
    ensures ColumnName(c) == FieldName(c)
  {
  }

  // One lemma per renamed field, so that each literal name is unfolded on its own.

  lemma ContactNumberSnakeCase()
    ensures ColumnName(ContactNumberColumn) == SnakeCase(FieldName(ContactNumberColumn))
  {
    assert "contactNumber" == "contact" + "Number";
    CamelPair("contact", "Number", "contact_number");
  }

  lemma SalesAgentSnakeCase()
    ensures ColumnName(SalesAgentColumn) == SnakeCase(FieldName(SalesAgentColumn))
  {
    assert "salesAgent" == "sales" + "Agent";
    CamelPair("sales", "Agent", "sales_agent");
  }

  lemma AssignedDoctorSnakeCase()
    ensures ColumnName(AssignedDoctorColumn) == SnakeCase(FieldName(AssignedDoctorColumn))
  {
    assert "assignedDoctor" == "assigned" + "Doctor";
    CamelPair("assigned", "Doctor", "assigned_doctor");
  }

  lemma GradeTypeSnakeCase()
    ensures ColumnName(GradeTypeColumn) == SnakeCase(FieldName(GradeTypeColumn))
  {
    assert "gradeType" == "grade" + "Type";
    CamelPair("grade", "Type", "grade_type");
  }

  lemma LensTypeSnakeCase()
    ensures ColumnName(LensTypeColumn) == SnakeCase(FieldName(LensTypeColumn))
  {
    assert "lensType" == "lens" + "Type";
    CamelPair("lens", "Type", "lens_type");
  }

  lemma FrameCodeSnakeCase()
    ensures ColumnName(FrameCodeColumn) == SnakeCase(FieldName(FrameCodeColumn))
  {
    assert "frameCode" == "frame" + "Code";
    CamelPair("frame", "Code", "frame_code");
  }

  lemma PaymentInfoSnakeCase()
    ensures ColumnName(PaymentInfoColumn) == SnakeCase(FieldName(PaymentInfoColumn))
  {
    assert "paymentInfo" == "payment" + "Info";
    CamelPair("payment", "Info", "payment_info");
  }

  lemma PriorityTypeSnakeCase()
    ensures ColumnName(PriorityTypeColumn) == SnakeCase(FieldName(PriorityTypeColumn))
  {
    assert "priorityType" == "priority" + "Type";
    CamelPair("priority", "Type", "priority_type");
  }

  lemma WaitTimeSnakeCase()
    ensures ColumnName(WaitTimeColumn) == SnakeCase(FieldName(WaitTimeColumn))
  {
    assert "waitTime" == "wait" + "Time";
    CamelPair("wait", "Time", "wait_time");
  }

  lemma RegistrationTimeSnakeCase()
    ensures ColumnName(RegistrationTimeColumn) == SnakeCase(FieldName(RegistrationTimeColumn))
  {
    assert "registrationTime" == "registration" + "Time";
    CamelPair("registration", "Time", "registration_time");
  }

  lemma OrNumberSnakeCase()
    ensures ColumnName(OrNumberColumn) == SnakeCase(FieldName(OrNumberColumn))
  {
    assert "orNumber" == "or" + "Number";
    CamelPair("or", "Number", "or_number");
  }

  predicate NoCapitals(s: string) {
    forall i :: 0 <= i < |s| ==> !('A' <= s[i] <= 'Z')
  }

  /** A name without capitals is its own snake_case. */
  lemma {:induction false} NoCapitalsUnchanged(s: string)
    requires NoCapitals(s)
    ensures SnakeCase(s) == s
    decreases |s|
  {
    if s != [] {
      NoCapitalsUnchanged(s[1..]);
    }
  }

  /** snake_case works character by character. */
  lemma {:induction false} SnakeCaseAppend(a: string, b: string)
    ensures SnakeCase(a + b) == SnakeCase(a) + SnakeCase(b)
    decreases |a|
  {
    if a == [] {
      assert a + b == b;
    } else {
      assert (a + b)[1..] == a[1..] + b;
      SnakeCaseAppend(a[1..], b);
    }
  }

  /** A name without capitals keeps its text in front of whatever follows. */
  lemma LowerPrefix(a: string, b: string)
    requires NoCapitals(a)
    ensures SnakeCase(a + b) == a + SnakeCase(b)
  {
    SnakeCaseAppend(a, b);
    NoCapitalsUnchanged(a);
  }

  /** A word with a leading capital and no other becomes `_`, its lowered capital, and the rest. */
  lemma CapitalWord(b: string)
    requires b != [] && 'A' <= b[0] <= 'Z' && NoCapitals(b[1..])
    ensures SnakeCase(b) == ['_', LowerChar(b[0])] + b[1..]
  {
    NoCapitalsUnchanged(b[1..]);
  }

  /** A two-word camelCase name `a` + `b` becomes `a`, `_`, and `b` with its capital lowered. */
  lemma CamelPair(a: string, b: string, snake: string)
    requires NoCapitals(a) && b != [] && 'A' <= b[0] <= 'Z' && NoCapitals(b[1..])
    requires snake == a + (['_', LowerChar(b[0])] + b[1..])
    ensures SnakeCase(a + b) == snake
  {
    LowerPrefix(a, b);
    CapitalWord(b);
  }

  /** A value written into a column. */
  datatype DbValue = Text(text: string) | Number(n: int) | Flag(b: bool) | Object(json: Json)

  /** The value `updateCustomerInDatabase` writes into column `c`, if any. The
      id is never written. */
  function ColumnValue(u: CustomerUpdate, c: Column): Option<DbValue> {
    match c
    case IdColumn => None
    case NameColumn => TextValue(u.name)
    case ContactNumberColumn => TextValue(u.contactNumber)
    case EmailColumn => TextValue(u.email)
    case AgeColumn => if u.age.Some? then Some(Number(u.age.value)) else None
    case AddressColumn => TextValue(u.address)
    case OccupationColumn => TextValue(u.occupation)
    case DistributionColumn => TextValue(u.distribution)
    case SalesAgentColumn => TextValue(u.salesAgent)
    case AssignedDoctorColumn => TextValue(u.assignedDoctor)
    case PrescriptionColumn =>
      if u.prescription.Some? then Some(Object(PrescriptionJson(u.prescription.value))) else None
    case GradeTypeColumn => TextValue(u.gradeType)
    case LensTypeColumn => TextValue(u.lensType)
    case FrameCodeColumn => TextValue(u.frameCode)
    case PaymentInfoColumn =>
      if u.paymentInfo.Some? then Some(Object(PaymentInfoJson(u.paymentInfo.value))) else None
    case RemarksColumn => TextValue(u.remarks)
    case TokenColumn => TextValue(u.token)
    case PriorityColumn => if u.priority.Some? then Some(Flag(u.priority.value)) else None
    case PriorityTypeColumn => TextValue(u.priorityType)
    case WaitTimeColumn => if u.waitTime.Some? then Some(Number(u.waitTime.value)) else None
    case StatusColumn => TextValue(u.status)
    case RegistrationTimeColumn =>
      if u.registrationTime.Some? then Some(Number(u.registrationTime.value)) else None
    case OrNumberColumn => TextValue(u.orNumber)
  }

  function TextValue(field: Option<string>): Option<DbValue> {
    if field.Some? then Some(Text(field.value)) else None
  }

  const AllColumns: set<Column> := {
    IdColumn, NameColumn, ContactNumberColumn, EmailColumn, AgeColumn, AddressColumn,
    OccupationColumn, DistributionColumn, SalesAgentColumn, AssignedDoctorColumn,
    PrescriptionColumn, GradeTypeColumn, LensTypeColumn, FrameCodeColumn,
    PaymentInfoColumn, RemarksColumn, TokenColumn, PriorityColumn, PriorityTypeColumn,
    WaitTimeColumn, StatusColumn, RegistrationTimeColumn, OrNumberColumn }

  /** The `dbUpdates` object: one entry per column whose field is defined,
      holding that field's value; the id is never written. */
  function DbUpdatesOf(u: CustomerUpdate): (db: map<Column, DbValue>)
    ensures IdColumn !in db
    ensures forall c :: c in db <==> ColumnValue(u, c).Some?
    ensures forall c :: c in db ==> db[c] == ColumnValue(u, c).value
  {
    assert forall c :: c in AllColumns by {
      forall c ensures c in AllColumns {
        EveryColumn(c);
      }
    }
    map c | c in AllColumns && ColumnValue(u, c).Some? :: ColumnValue(u, c).value
  }

  /** The place of each column in the order the hook handles them: the
      renamed fields first, then the same-named ones. The id, which the hook
      skips, comes last. */
  function Position(c: Column): (p: nat)
    ensures p < 22 <==> c != IdColumn
  {
    match c
    case ContactNumberColumn => 0
    case SalesAgentColumn => 1
    case AssignedDoctorColumn => 2
    case GradeTypeColumn => 3
    case LensTypeColumn => 4
    case FrameCodeColumn => 5
    case PaymentInfoColumn => 6
    case PriorityTypeColumn => 7
    case WaitTimeColumn => 8
    case RegistrationTimeColumn => 9
    case OrNumberColumn => 10
    case NameColumn => 11
    case EmailColumn => 12
    case AgeColumn => 13
    case AddressColumn => 14
    case OccupationColumn => 15
    case DistributionColumn => 16
    case PrescriptionColumn => 17
    case RemarksColumn => 18
    case TokenColumn => 19
    case PriorityColumn => 20
    case StatusColumn => 21
    case IdColumn => 22
  }

  /** The column handled at place `k`. */
  function ColumnAt(k: nat): (c: Column)
    requires k < 22
    ensures Position(c) == k
  {
    if k == 0 then ContactNumberColumn
    else if k == 1 then SalesAgentColumn
    else if k == 2 then AssignedDoctorColumn
    else if k == 3 then GradeTypeColumn
    else if k == 4 then LensTypeColumn
    else if k == 5 then FrameCodeColumn
    else if k == 6 then PaymentInfoColumn
    else if k == 7 then PriorityTypeColumn
    else if k == 8 then WaitTimeColumn
    else if k == 9 then RegistrationTimeColumn
    else if k == 10 then OrNumberColumn
    else if k == 11 then NameColumn
    else if k == 12 then EmailColumn
    else if k == 13 then AgeColumn
    else if k == 14 then AddressColumn
    else if k == 15 then OccupationColumn
    else if k == 16 then DistributionColumn
    else if k == 17 then PrescriptionColumn
    else if k == 18 then RemarksColumn
    else if k == 19 then TokenColumn
    else if k == 20 then PriorityColumn
    else StatusColumn
  }

  /** Every column but `id` is the one handled at its own place. */
  lemma ColumnAtPosition(c: Column)
    requires c != IdColumn
    ensures ColumnAt(Position(c)) == c
  {
  }

  /** `dbUpdates` once the first `n` places are handled. */
  ghost function Partial(u: CustomerUpdate, n: nat): map<Column, DbValue>
    requires n <= 22
  {
    if n == 0 then map[]
    else
      var c := ColumnAt(n - 1);
      if ColumnValue(u, c).Some? then Partial(u, n - 1)[c := ColumnValue(u, c).value] else Partial(u, n - 1)
  }

  /** After `n` places, exactly the columns placed before `n` whose field is defined are present. */
  lemma {:induction false} PartialSpec(u: CustomerUpdate, n: nat)
    requires n <= 22
    ensures forall c :: c in Partial(u, n) <==> Position(c) < n && ColumnValue(u, c).Some?
    ensures forall c :: c in Partial(u, n) ==> Partial(u, n)[c] == ColumnValue(u, c).value
  {
    if n > 0 {
      PartialSpec(u, n - 1);
      forall c | Position(c) == n - 1 ensures c == ColumnAt(n - 1) {
        ColumnAtPosition(c);
      }
    }
  }

  /** Handling all 22 places yields `dbUpdates`. */
  lemma AllHandled(u: CustomerUpdate)
    ensures Partial(u, 22) == DbUpdatesOf(u)
  {
    PartialSpec(u, 22);
    forall c ensures c in AllColumns {
      EveryColumn(c);
    }
  }

  lemma EveryColumn(c: Column)
    ensures c in AllColumns
  {
  }

  /** One line of the hook: when the field stored in column `c` is defined,
      its value is written under `c`; otherwise `db` is left alone. */
  method SetIfDefined(db: map<Column, DbValue>, c: Column, u: CustomerUpdate, ghost n: nat)
    returns (db': map<Column, DbValue>)
    requires c != IdColumn && Position(c) == n && db == Partial(u, n)
    ensures db' == Partial(u, n + 1)
  {
    var value := ColumnValue(u, c);
    if value.Some? {
      db' := db[c := value.value];
    } else {
      db' := db;
    }
  }

  /** Builds `dbUpdates` field by field, as the hook does: the renamed fields
      first, then the same-named ones. */
  method BuildDbUpdates(u: CustomerUpdate) returns (db: map<Column, DbValue>)
    ensures db == DbUpdatesOf(u)
  {
    db := MapRenamedFields(u);
    db := CopyDirectFields(u, db);
    AllHandled(u);
  }

  /** The eleven renamed fields, each written under its snake_case column. */
  method MapRenamedFields(u: CustomerUpdate) returns (db: map<Column, DbValue>)
    ensures db == Partial(u, 11)
  {
    ghost var k := 0;
    db := map[];
    db := MapContactFields(u, db, k); k := k + 3;
    db := MapLensFields(u, db, k); k := k + 3;
    db := MapPaymentFields(u, db, k); k := k + 3;
    db := MapReceiptFields(u, db, k); k := k + 2;
  }

  /** The eleven same-named fields, each copied under its own name. */
  method CopyDirectFields(u: CustomerUpdate, db0: map<Column, DbValue>) returns (db: map<Column, DbValue>)
    requires db0 == Partial(u, 11)
    ensures db == Partial(u, 22)
  {
    ghost var k := 11;
    db := db0;
    db := CopyNameFields(u, db, k); k := k + 3;
    db := CopyAboutFields(u, db, k); k := k + 3;
    db := CopyRecordFields(u, db, k); k := k + 3;
    db := CopyQueueFields(u, db, k); k := k + 2;
  }

  // The hook's assignments are one straight run of statements. They are split
  // into groups of two or three here so that each group's proof unfolds
  // `Partial` for its own few columns only; the ghost `k` is the position of
  // the group's first assignment in that run.

  /** `contactNumber`, `salesAgent` and `assignedDoctor`. */
  method MapContactFields(u: CustomerUpdate, db0: map<Column, DbValue>, ghost k: nat) returns (db: map<Column, DbValue>)
    requires k == 0 && db0 == Partial(u, k)
    ensures db == Partial(u, k + 3)
  {
    db := db0;
    ghost var n := k;
    db := SetIfDefined(db, ContactNumberColumn, u, n); n := n + 1;
    db := SetIfDefined(db, SalesAgentColumn, u, n); n := n + 1;
    db := SetIfDefined(db, AssignedDoctorColumn, u, n); n := n + 1;
  }

  /** `gradeType`, `lensType` and `frameCode`. */
  method MapLensFields(u: CustomerUpdate, db0: map<Column, DbValue>, ghost k: nat) returns (db: map<Column, DbValue>)
    requires k == 3 && db0 == Partial(u, k)
    ensures db == Partial(u, k + 3)
  {
    db := db0;
    ghost var n := k;
    db := SetIfDefined(db, GradeTypeColumn, u, n); n := n + 1;
    db := SetIfDefined(db, LensTypeColumn, u, n); n := n + 1;
    db := SetIfDefined(db, FrameCodeColumn, u, n); n := n + 1;
  }

  /** `paymentInfo`, `priorityType` and `waitTime`. */
  method MapPaymentFields(u: CustomerUpdate, db0: map<Column, DbValue>, ghost k: nat) returns (db: map<Column, DbValue>)
    requires k == 6 && db0 == Partial(u, k)
    ensures db == Partial(u, k + 3)
  {
    db := db0;
    ghost var n := k;
    db := SetIfDefined(db, PaymentInfoColumn, u, n); n := n + 1;
    db := SetIfDefined(db, PriorityTypeColumn, u, n); n := n + 1;
    db := SetIfDefined(db, WaitTimeColumn, u, n); n := n + 1;
  }

  /** `registrationTime` and `orNumber`. */
  method MapReceiptFields(u: CustomerUpdate, db0: map<Column, DbValue>, ghost k: nat) returns (db: map<Column, DbValue>)
    requires k == 9 && db0 == Partial(u, k)
    ensures db == Partial(u, k + 2)
  {
    db := db0;
    ghost var n := k;
    db := SetIfDefined(db, RegistrationTimeColumn, u, n); n := n + 1;
    db := SetIfDefined(db, OrNumberColumn, u, n); n := n + 1;
  }

  /** `name`, `email` and `age`. */
  method CopyNameFields(u: CustomerUpdate, db0: map<Column, DbValue>, ghost k: nat) returns (db: map<Column, DbValue>)
    requires k == 11 && db0 == Partial(u, k)
    ensures db == Partial(u, k + 3)
  {
    db := db0;
    ghost var n := k;
    db := SetIfDefined(db, NameColumn, u, n); n := n + 1;
    db := SetIfDefined(db, EmailColumn, u, n); n := n + 1;
    db := SetIfDefined(db, AgeColumn, u, n); n := n + 1;
  }

  /** `address`, `occupation` and `distribution`. */
  method CopyAboutFields(u: CustomerUpdate, db0: map<Column, DbValue>, ghost k: nat) returns (db: map<Column, DbValue>)
    requires k == 14 && db0 == Partial(u, k)
    ensures db == Partial(u, k + 3)
  {
    db := db0;
    ghost var n := k;
    db := SetIfDefined(db, AddressColumn, u, n); n := n + 1;
    db := SetIfDefined(db, OccupationColumn, u, n); n := n + 1;
    db := SetIfDefined(db, DistributionColumn, u, n); n := n + 1;
  }

  /** `prescription`, `remarks` and `token`. */
  method CopyRecordFields(u: CustomerUpdate, db0: map<Column, DbValue>, ghost k: nat) returns (db: map<Column, DbValue>)
    requires k == 17 && db0 == Partial(u, k)
    ensures db == Partial(u, k + 3)
  {
    db := db0;
    ghost var n := k;
    db := SetIfDefined(db, PrescriptionColumn, u, n); n := n + 1;
    db := SetIfDefined(db, RemarksColumn, u, n); n := n + 1;
    db := SetIfDefined(db, TokenColumn, u, n); n := n + 1;
  }

  /** `priority` and `status`. */
  method CopyQueueFields(u: CustomerUpdate, db0: map<Column, DbValue>, ghost k: nat) returns (db: map<Column, DbValue>)
    requires k == 20 && db0 == Partial(u, k)
    ensures db == Partial(u, k + 2)
  {
    db := db0;
    ghost var n := k;
    db := SetIfDefined(db, PriorityColumn, u, n); n := n + 1;
    db := SetIfDefined(db, StatusColumn, u, n); n := n + 1;
  }

  /** An update with no field defined but the id writes nothing. */
  lemma IdNeverWritten(u: CustomerUpdate)
    ensures u.(id := None) == NoUpdate ==> DbUpdatesOf(u) == map[]
  {
  }

  /** Reads a partial update back from the columns of `dbUpdates`: a field is
      defined exactly when its column is present with a value of its type. */
  function UpdateFromDb(db: map<Column, DbValue>): CustomerUpdate {
    CustomerUpdate(None, TextAt(db, NameColumn), TextAt(db, ContactNumberColumn),
      TextAt(db, EmailColumn), NumberAt(db, AgeColumn), TextAt(db, AddressColumn),
      TextAt(db, OccupationColumn), TextAt(db, DistributionColumn),
      TextAt(db, SalesAgentColumn), TextAt(db, AssignedDoctorColumn),
      PrescriptionAt(db),
      TextAt(db, GradeTypeColumn), TextAt(db, LensTypeColumn), TextAt(db, FrameCodeColumn),
      PaymentInfoAt(db),
      TextAt(db, RemarksColumn), TextAt(db, TokenColumn),
      if PriorityColumn in db && db[PriorityColumn].Flag? then Some(db[PriorityColumn].b) else None,
      TextAt(db, PriorityTypeColumn), NumberAt(db, WaitTimeColumn), TextAt(db, StatusColumn),
      NumberAt(db, RegistrationTimeColumn), TextAt(db, OrNumberColumn))
  }

  function TextAt(db: map<Column, DbValue>, c: Column): Option<string> {
    if c in db && db[c].Text? then Some(db[c].text) else None
  }

  function NumberAt(db: map<Column, DbValue>, c: Column): Option<int> {
    if c in db && db[c].Number? then Some(db[c].n) else None
  }

  function PrescriptionAt(db: map<Column, DbValue>): Option<Prescription> {
    if PrescriptionColumn in db && db[PrescriptionColumn].Object? then
      Some(PrescriptionOf(db[PrescriptionColumn].json))
    else None
  }

  function PaymentInfoAt(db: map<Column, DbValue>): Option<PaymentInfo> {
    if PaymentInfoColumn in db && db[PaymentInfoColumn].Object? then
      Some(PaymentInfoOf(db[PaymentInfoColumn].json))
    else None
  }

  /** `dbUpdates` carries every defined field but the id, each under its
      column with its value unchanged, and nothing else: reading it back gives
      the update without its id. */
  lemma DbUpdatesRoundTrip(u: CustomerUpdate)
    ensures UpdateFromDb(DbUpdatesOf(u)) == u.(id := None)
  {
    ReadBack(u, DbUpdatesOf(u));
  }

  /** Any map holding exactly the defined fields' values reads back as the update. */
  lemma ReadBack(u: CustomerUpdate, db: map<Column, DbValue>)
    requires forall c: Column :: c in db <==> ColumnValue(u, c).Some?
    requires forall c: Column :: c in db ==> db[c] == ColumnValue(u, c).value
    ensures UpdateFromDb(db) == u.(id := None)
  {
    NamesReadBack(u, db);
    PersonalReadBack(u, db);
    StaffReadBack(u, db);
    LensReadBack(u, db);
    ObjectsReadBack(u, db);
    QueueTextReadBack(u, db);
    QueueNumberReadBack(u, db);
  }

  /** The name and contact fields read back. */
  lemma NamesReadBack(u: CustomerUpdate, db: map<Column, DbValue>)
    requires forall c: Column :: c in db <==> ColumnValue(u, c).Some?
    requires forall c: Column :: c in db ==> db[c] == ColumnValue(u, c).value
    ensures UpdateFromDb(db).name == u.name
    ensures UpdateFromDb(db).contactNumber == u.contactNumber
    ensures UpdateFromDb(db).email == u.email
    ensures UpdateFromDb(db).age == u.age
  {
    TextBack(db, NameColumn, u.name);
    TextBack(db, ContactNumberColumn, u.contactNumber);
    TextBack(db, EmailColumn, u.email);
    NumberBack(db, AgeColumn, u.age);
  }

  /** The address, occupation and distribution read back. */
  lemma PersonalReadBack(u: CustomerUpdate, db: map<Column, DbValue>)
    requires forall c: Column :: c in db <==> ColumnValue(u, c).Some?
    requires forall c: Column :: c in db ==> db[c] == ColumnValue(u, c).value
    ensures UpdateFromDb(db).address == u.address
    ensures UpdateFromDb(db).occupation == u.occupation
    ensures UpdateFromDb(db).distribution == u.distribution
  {
    TextBack(db, AddressColumn, u.address);
    TextBack(db, OccupationColumn, u.occupation);
    TextBack(db, DistributionColumn, u.distribution);
  }

  /** The agent, doctor and remarks read back. */
  lemma StaffReadBack(u: CustomerUpdate, db: map<Column, DbValue>)
    requires forall c: Column :: c in db <==> ColumnValue(u, c).Some?
    requires forall c: Column :: c in db ==> db[c] == ColumnValue(u, c).value
    ensures UpdateFromDb(db).salesAgent == u.salesAgent
    ensures UpdateFromDb(db).assignedDoctor == u.assignedDoctor
    ensures UpdateFromDb(db).remarks == u.remarks
  {
    TextBack(db, SalesAgentColumn, u.salesAgent);
    TextBack(db, AssignedDoctorColumn, u.assignedDoctor);
    TextBack(db, RemarksColumn, u.remarks);
  }

  /** The grade, lens and frame read back. */
  lemma LensReadBack(u: CustomerUpdate, db: map<Column, DbValue>)
    requires forall c: Column :: c in db <==> ColumnValue(u, c).Some?
    requires forall c: Column :: c in db ==> db[c] == ColumnValue(u, c).value
    ensures UpdateFromDb(db).gradeType == u.gradeType
    ensures UpdateFromDb(db).lensType == u.lensType
    ensures UpdateFromDb(db).frameCode == u.frameCode
  {
    TextBack(db, GradeTypeColumn, u.gradeType);
    TextBack(db, LensTypeColumn, u.lensType);
    TextBack(db, FrameCodeColumn, u.frameCode);
  }

  /** The prescription and payment objects read back. */
  lemma ObjectsReadBack(u: CustomerUpdate, db: map<Column, DbValue>)
    requires forall c: Column :: c in db <==> ColumnValue(u, c).Some?
    requires forall c: Column :: c in db ==> db[c] == ColumnValue(u, c).value
    ensures UpdateFromDb(db).prescription == u.prescription
    ensures UpdateFromDb(db).paymentInfo == u.paymentInfo
  {
    PrescriptionBack(db, u.prescription);
    PaymentInfoBack(db, u.paymentInfo);
  }

  /** The token, priority type, status and OR number read back. */
  lemma QueueTextReadBack(u: CustomerUpdate, db: map<Column, DbValue>)
    requires forall c: Column :: c in db <==> ColumnValue(u, c).Some?
    requires forall c: Column :: c in db ==> db[c] == ColumnValue(u, c).value
    ensures UpdateFromDb(db).token == u.token
    ensures UpdateFromDb(db).priorityType == u.priorityType
    ensures UpdateFromDb(db).status == u.status
    ensures UpdateFromDb(db).orNumber == u.orNumber
  {
    TextBack(db, TokenColumn, u.token);
    TextBack(db, PriorityTypeColumn, u.priorityType);
    TextBack(db, StatusColumn, u.status);
    TextBack(db, OrNumberColumn, u.orNumber);
  }

  /** The priority flag, wait time and registration time read back. */
  lemma QueueNumberReadBack(u: CustomerUpdate, db: map<Column, DbValue>)
    requires forall c: Column :: c in db <==> ColumnValue(u, c).Some?
    requires forall c: Column :: c in db ==> db[c] == ColumnValue(u, c).value
    ensures UpdateFromDb(db).waitTime == u.waitTime
    ensures UpdateFromDb(db).registrationTime == u.registrationTime
    ensures UpdateFromDb(db).priority == u.priority
  {
    NumberBack(db, WaitTimeColumn, u.waitTime);
    NumberBack(db, RegistrationTimeColumn, u.registrationTime);
    assert PriorityColumn in db <==> u.priority.Some?;
  }

  lemma TextBack(db: map<Column, DbValue>, c: Column, field: Option<string>)
    requires c in db <==> field.Some?
    requires c in db ==> db[c] == TextValue(field).value
    ensures TextAt(db, c) == field
  {
  }

  lemma PrescriptionBack(db: map<Column, DbValue>, field: Option<Prescription>)
    requires PrescriptionColumn in db <==> field.Some?
    requires PrescriptionColumn in db ==> db[PrescriptionColumn] == Object(PrescriptionJson(field.value))
    ensures PrescriptionAt(db) == field
  {
    if field.Some? {
      PrescriptionRoundTrip(field.value);
    }
  }

  lemma PaymentInfoBack(db: map<Column, DbValue>, field: Option<PaymentInfo>)
    requires PaymentInfoColumn in db <==> field.Some?
    requires PaymentInfoColumn in db ==> db[PaymentInfoColumn] == Object(PaymentInfoJson(field.value))
    ensures PaymentInfoAt(db) == field
  {
    if field.Some? {
      PaymentInfoRoundTrip(field.value);
    }
  }

  lemma NumberBack(db: map<Column, DbValue>, c: Column, field: Option<int>)
    requires c in db <==> field.Some?
    requires c in db ==> db[c] == Number(field.value)
    ensures NumberAt(db, c) == field
  {
  }

  /** The request the hook sends: `update(dbUpdates).eq('id', id)`. */
  datatype UpdateRequest = UpdateRequest(id: string, values: map<Column, DbValue>)

  /** How the store answers a request: success, an `error` in the reply, or a thrown exception. */
  datatype StoreReply = Done | ReplyError | Thrown

  /** What the store does with an update: each column present is replaced by
      its value when the value has the column's type; the others are kept. */
  function ApplyDbUpdates(r: Row, db: map<Column, DbValue>): Row {
    r.(name := TextIn(db, NameColumn, r.name),
      contact_number := TextIn(db, ContactNumberColumn, r.contact_number),
      email := TextIn(db, EmailColumn, r.email),
      age := NumberIn(db, AgeColumn, r.age),
      address := TextIn(db, AddressColumn, r.address),
      occupation := TextIn(db, OccupationColumn, r.occupation),
      distribution := TextIn(db, DistributionColumn, r.distribution),
      sales_agent := TextIn(db, SalesAgentColumn, r.sales_agent),
      assigned_doctor := TextIn(db, AssignedDoctorColumn, r.assigned_doctor),
      prescription := JsonIn(db, PrescriptionColumn, r.prescription),
      grade_type := TextIn(db, GradeTypeColumn, r.grade_type),
      lens_type := TextIn(db, LensTypeColumn, r.lens_type),
      frame_code := TextIn(db, FrameCodeColumn, r.frame_code),
      payment_info := JsonIn(db, PaymentInfoColumn, r.payment_info),
      remarks := if RemarksColumn in db && db[RemarksColumn].Text? then Some(db[RemarksColumn].text) else r.remarks,
      token := TextIn(db, TokenColumn, r.token),
      priority := if PriorityColumn in db && db[PriorityColumn].Flag? then db[PriorityColumn].b else r.priority,
      priority_type := if PriorityTypeColumn in db && db[PriorityTypeColumn].Text? then Some(db[PriorityTypeColumn].text) else r.priority_type,
      wait_time := NumberIn(db, WaitTimeColumn, r.wait_time),
      status := TextIn(db, StatusColumn, r.status),
      registration_time := NumberIn(db, RegistrationTimeColumn, r.registration_time),
      or_number := TextIn(db, OrNumberColumn, r.or_number))
  }

  function TextIn(db: map<Column, DbValue>, c: Column, current: string): string {
    if c in db && db[c].Text? then db[c].text else current
  }

  function NumberIn(db: map<Column, DbValue>, c: Column, current: int): int {
    if c in db && db[c].Number? then db[c].n else current
  }

  function JsonIn(db: map<Column, DbValue>, c: Column, current: Json): Json {
    if c in db && db[c].Object? then db[c].json else current
  }

  /** The row a new customer is inserted as: the draft under the column names,
      with a fresh token, wait time 0, status 'waiting' and an OR number. The
      store adds the id and the registration time. */
  datatype CustomerInsert = CustomerInsert(
    name: string, contact_number: string, email: string, age: int, address: string,
    occupation: string, distribution: string, sales_agent: string, assigned_doctor: string,
    prescription: Json, grade_type: string, lens_type: string, frame_code: string,
    payment_info: Json, remarks: string, token: string, priority: bool,
    priority_type: Option<string>, wait_time: int, status: string, or_number: string)

  /** The `newCustomer` object of `addCustomerToDatabase`, for the random draw
      `draw` (`Math.floor(Math.random() * 1000)`) and the clock reading `now`. */
  function NewCustomerRecord(d: CustomerDraft, draw: nat, now: nat): (rec: CustomerInsert)
    requires draw < 1000
    ensures rec.status == "waiting" && rec.wait_time == 0
    ensures TokenDraw(rec.token) == Some(draw) && OrNumberTime(rec.or_number) == Some(now)
  {
    TokenRoundTrip(draw);
    OrNumberRoundTrip(now);
    CustomerInsert(d.name, d.contactNumber, d.email, d.age, d.address, d.occupation,
      d.distribution, d.salesAgent, d.assignedDoctor, PrescriptionJson(d.prescription),
      d.gradeType, d.lensType, d.frameCode, PaymentInfoJson(d.paymentInfo), d.remarks,
      TokenText(draw), d.priority, d.priorityType, 0, "waiting", OrNumberText(now))
  }

  /** The row the store holds after the insert, with the id and registration
      time it assigned. */
  function StoredRow(ins: CustomerInsert, id: string, registrationTime: int): Row {
    Row(id, ins.name, ins.contact_number, ins.email, ins.age, ins.address, ins.occupation,
      ins.distribution, ins.sales_agent, ins.assigned_doctor, ins.prescription,
      ins.grade_type, ins.lens_type, ins.frame_code, ins.payment_info, Some(ins.remarks),
      ins.token, ins.priority, ins.priority_type, ins.wait_time, ins.status,
      registrationTime, ins.or_number)
  }

  /** The store's answer to the insert: the id and registration time of the
      new row, or a failure (an `error` in the reply or a thrown exception). */
  datatype InsertReply = Inserted(id: string, registrationTime: int) | InsertFailed

  /** `updateCustomerInDatabase`, which does not touch `loading`. */
  method UpdateCustomerInDatabase(id: string, u: CustomerUpdate, reply: StoreReply)
    returns (request: UpdateRequest, ok: bool)
    ensures request == UpdateRequest(id, DbUpdatesOf(u))
    ensures ok <==> reply == Done
  {
    var db := BuildDbUpdates(u);
    request := UpdateRequest(id, db);
    ok := reply == Done;
  }

  /** The hook's state: its `loading` flag. */
  class CustomerOperations {
    var loading: bool

    constructor ()
      ensures !loading
    {
      loading := false;
    }

    /** `addCustomerToDatabase`: sends the new record and returns the stored row,
        or nothing when the store fails; `loading` is false again afterwards. */
    method AddCustomerToDatabase(d: CustomerDraft, draw: nat, now: nat, reply: InsertReply)
      returns (sent: CustomerInsert, added: Option<Row>)
      requires draw < 1000
      modifies this
      ensures sent == NewCustomerRecord(d, draw, now)
      ensures added == if reply.Inserted? then Some(StoredRow(sent, reply.id, reply.registrationTime)) else None
      ensures !loading
    {
      loading := true;
      sent := NewCustomerRecord(d, draw, now);
      if reply.Inserted? {
        added := Some(StoredRow(sent, reply.id, reply.registrationTime));
      } else {
        added := None;
      }
      loading := false;
    }
  }
}
