/** The registration form of src/components/CustomerRegistration.tsx: its
    state, the checks `handleSubmit` makes before registering, the token and
    OR number it hands out, and the reset that follows. */
module CustomerRegistration {
  import opened Common
  import opened CustomerModel

  datatype PriorityFlags = PriorityFlags(seniorCitizen: bool, pregnant: bool, pwd: bool)

  /** The `formData` state. Every input is text, the age included. */
  datatype FormData = FormData(
    name: string, contactNumber: string, email: string, age: string, address: string,
    occupation: string, distribution: string, salesAgent: string,
    prescription: Prescription, gradeType: string, lensType: string, frameCode: string,
    estimatedTime: string, paymentInfo: PaymentInfo, remarks: string, priority: PriorityFlags)

  /** The form as first shown and after every successful submit. */
  const InitialForm := FormData("", "", "", "", "", "", "", "Admin User", EmptyPrescription,
    "", "", "", "", EmptyPaymentInfo, "", PriorityFlags(false, false, false))

  const RequiredFields: seq<string> := ["name", "contactNumber", "email", "age", "address"]

  /** The value of a required field by its name. */
  function RequiredValue(f: FormData, key: string): string {
    if key == "name" then f.name
    else if key == "contactNumber" then f.contactNumber
    else if key == "email" then f.email
    else if key == "age" then f.age
    else if key == "address" then f.address
    else ""
  }

  /** The names of the required fields left empty, in the order of `requiredFields`. */
  function MissingFields(f: FormData): (m: seq<string>)
    ensures forall k :: k in m <==> k in RequiredFields && RequiredValue(f, k) == ""
    ensures IsSubsequence(m, RequiredFields)
  {
    Filter(RequiredFields, k => RequiredValue(f, k) == "")
  }

  /** Nothing is missing exactly when all five required fields are filled in. */
  lemma NothingMissing(f: FormData)
    ensures MissingFields(f) == [] <==>
      f.name != "" && f.contactNumber != "" && f.email != "" && f.age != "" && f.address != ""
  {
    var m := MissingFields(f);
    if m != [] {
      assert m[0] in m;
    } else {
      assert "name" in RequiredFields && "contactNumber" in RequiredFields && "email" in RequiredFields;
      assert "age" in RequiredFields && "address" in RequiredFields;
    }
  }

  /** Only the five required fields decide what is missing. */
  lemma OptionalFieldsIgnored(f: FormData, g: FormData)
    requires f.name == g.name && f.contactNumber == g.contactNumber && f.email == g.email
    requires f.age == g.age && f.address == g.address
    ensures MissingFields(f) == MissingFields(g)
  {
    assert forall k :: RequiredValue(f, k) == RequiredValue(g, k);
    FilterSameKeep(RequiredFields, k => RequiredValue(f, k) == "", k => RequiredValue(g, k) == "");
  }

  lemma {:induction false} FilterSameKeep(s: seq<string>, p: string -> bool, q: string -> bool)
    requires forall x :: p(x) == q(x)
    ensures Filter(s, p) == Filter(s, q)
  {
    if s != [] {
      FilterSameKeep(s[1..], p, q);
    }
  }

  predicate IsAlphaNumeric(c: char) {
    'a' <= c <= 'z' || 'A' <= c <= 'Z' || '0' <= c <= '9'
  }

  /** `/^[a-zA-Z0-9]+$/.test(s)`: one or more letters and digits and nothing else. */
  function AlphaNumericOnly(s: string): (b: bool)
    ensures b <==> s != [] && forall i :: 0 <= i < |s| ==> IsAlphaNumeric(s[i])
  {
    if s == [] then false
    else IsAlphaNumeric(s[0]) && (|s| == 1 || AlphaNumericOnly(s[1..]))
  }

  /** An empty frame code passes; any other must be letters and digits only. */
  function FrameCodeAccepted(code: string): (b: bool)
    ensures b <==> forall i :: 0 <= i < |code| ==> IsAlphaNumeric(code[i])
  {
    code == [] || AlphaNumericOnly(code)
  }

  /** What a submit ends in: the missing fields reported, the frame code
      refused, or the customer registered under an OR number and a token. */
  datatype SubmitOutcome = MissingRequired(fields: seq<string>) | InvalidFrameCode | Registered(orNumber: string, token: string)

  /** The decision `handleSubmit` takes on the form, for the random draw and
      the clock reading `now`: the required fields first, then the frame code. */
  function SubmitDecision(f: FormData, draw: nat, now: nat): (o: SubmitOutcome)
    requires draw < 1000
    ensures o.MissingRequired? <==> MissingFields(f) != []
    ensures o.MissingRequired? ==> o.fields == MissingFields(f)
    ensures o.InvalidFrameCode? <==> MissingFields(f) == [] && !FrameCodeAccepted(f.frameCode)
    ensures o.Registered? ==> TokenDraw(o.token) == Some(draw) && OrNumberTime(o.orNumber) == Some(now)
  {
    var missing := MissingFields(f);
    if missing != [] then MissingRequired(missing)
    else if !FrameCodeAccepted(f.frameCode) then InvalidFrameCode
    else
      TokenRoundTrip(draw);
      OrNumberRoundTrip(now);
      Registered(OrNumberText(now), TokenText(draw))
  }

  /** The form component and its state. */
  class RegistrationForm {
    var formData: FormData

    constructor ()
      ensures formData == InitialForm
    {
      formData := InitialForm;
    }

    /** `handleSubmit`: on success the form goes back to its initial state; a
        rejected submit leaves it as it was. */
    method HandleSubmit(draw: nat, now: nat) returns (outcome: SubmitOutcome)
      requires draw < 1000
      modifies this
      ensures outcome == SubmitDecision(old(formData), draw, now)
      ensures outcome.Registered? ==> formData == InitialForm
      ensures !outcome.Registered? ==> formData == old(formData)
    {
      var missing := MissingFields(formData);
      if |missing| > 0 {
        return MissingRequired(missing);
      }
      if formData.frameCode != "" && !AlphaNumericOnly(formData.frameCode) {
        return InvalidFrameCode;
      }
      var orNumber := OrNumberText(now);
      var token := TokenText(draw);
      formData := InitialForm;
      outcome := Registered(orNumber, token);
    }
  }
}
