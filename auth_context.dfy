/** The role check, the demo-account table and the demo-user creation of the
    authentication provider (src/contexts/AuthContext.tsx). The provider's
    session listener and profile fetch are store I/O and are not modelled;
    every reply of the store is a parameter. */
module AuthContext {
  import opened Common

  /** The row of `profiles` the provider holds as `userProfile`. Its role is a
      string: the store accepts any text, and other screens write
      'sales_employee' and 'cashier' into it. */
  datatype Profile = Profile(id: string, email: string, fullName: string, role: string)

  /** The level of a role in the hierarchy admin > staff > viewer; 0 for any other text. */
  function Level(role: string): nat
  {
    if role == "admin" then 3 else if role == "staff" then 2 else if role == "viewer" then 1 else 0
  }

  /** `hasRole(role)` for the current `userProfile`: no profile grants nothing,
      an admin is granted every role, and otherwise a known role is granted
      exactly the known roles at or below its level. */
  function HasRole(profile: Option<Profile>, role: string): (granted: bool)
    ensures profile.None? ==> !granted
    ensures profile.Some? ==>
      (granted <==> profile.value.role == "admin" || 0 < Level(role) <= Level(profile.value.role))
  {
    if profile.None? then false
    else if profile.value.role == "admin" then true
    else if profile.value.role == "staff" && (role == "staff" || role == "viewer") then true
    else if profile.value.role == "viewer" && role == "viewer" then true
    else false
  }

  /** Grants are nested: whatever a viewer is granted a staff member is granted,
      and whatever a staff member is granted an admin is granted. */
  lemma GrantsAreNested(p: Profile, role: string)
    ensures HasRole(Some(p.(role := "viewer")), role) ==> HasRole(Some(p.(role := "staff")), role)
    ensures HasRole(Some(p.(role := "staff")), role) ==> HasRole(Some(p.(role := "admin")), role)
  {
  }

  /** A profile whose role is none of admin, staff and viewer (for instance the
      'sales_employee' and 'cashier' roles other screens assign) is granted nothing. */
  lemma UnknownProfileRoleGrantsNothing(p: Profile, role: string)
    requires p.role != "admin" && p.role != "staff" && p.role != "viewer"
    ensures !HasRole(Some(p), role)
  {
  }

  /** The full name and role a demo account is created with. */
  datatype DemoUser = DemoUser(fullName: string, role: string)

  /** The three demo credential pairs, with the account each one creates. */
  const DemoAccounts: map<(string, string), DemoUser> :=
    map[("admin@escaoptical.com", "admin123") := DemoUser("System Administrator", "admin"),
        ("staff@escaoptical.com", "staff123") := DemoUser("Staff Member", "staff"),
        ("viewer@escaoptical.com", "viewer123") := DemoUser("System Viewer", "viewer")]

  /** The demo account `signIn` creates before signing in: both the email and
      the password must match one of the three pairs exactly. */
  function DemoAccountFor(email: string, password: string): (acct: Option<DemoUser>)
    ensures acct.Some? <==> (email, password) in DemoAccounts
    ensures acct.Some? ==> acct.value == DemoAccounts[(email, password)]
    ensures acct.Some? ==> Level(acct.value.role) > 0
  {
    if email == "admin@escaoptical.com" && password == "admin123" then Some(DemoUser("System Administrator", "admin"))
    else if email == "staff@escaoptical.com" && password == "staff123" then Some(DemoUser("Staff Member", "staff"))
    else if email == "viewer@escaoptical.com" && password == "viewer123" then Some(DemoUser("System Viewer", "viewer"))
    else None
  }

  /** Exactly three pairs create demo users, one per role. */
  lemma ThreeDemoAccounts()
    ensures |DemoAccounts| == 3
    ensures forall k :: k in DemoAccounts ==> DemoAccounts[k].role in {"admin", "staff", "viewer"}
  {
    assert DemoAccounts.Keys == {("admin@escaoptical.com", "admin123"), ("staff@escaoptical.com", "staff123"), ("viewer@escaoptical.com", "viewer123")};
  }

  /** What the auth service answers to a sign-up: an error message, if any, and
      the id of the user it returns, if any. */
  datatype SignUpReply = SignUpReply(error: Option<string>, userId: Option<string>)

  /** The two writes `createDemoUser` issues once it has a user id. */
  datatype DemoWrite =
    | UpsertProfile(userId: string, email: string, fullName: string, role: string)
    | UpsertUserRole(userId: string, role: string)

  /** `createDemoUser`: a sign-up error is rethrown unless its message contains
      'already registered'; when the reply carries a user id, the profile and
      the user role are upserted (their errors are only logged). */
  function CreateDemoUser(email: string, fullName: string, role: string, reply: SignUpReply): (r: Result<seq<DemoWrite>>)
    ensures r.Err? <==> reply.error.Some? && !Contains(reply.error.value, "already registered")
    ensures r.Err? ==> r.message == reply.error.value
    ensures r.Ok? && (reply.userId.None? || reply.userId.value == "") ==> r.value == []
    ensures r.Ok? && reply.userId.Some? && reply.userId.value != "" ==>
      r.value == [UpsertProfile(reply.userId.value, email, fullName, role), UpsertUserRole(reply.userId.value, role)]
  {
    if reply.error.Some? && !Contains(reply.error.value, "already registered") then Err(reply.error.value)
    else if reply.userId.Some? && reply.userId.value != "" then
      Ok([UpsertProfile(reply.userId.value, email, fullName, role), UpsertUserRole(reply.userId.value, role)])
    else Ok([])
  }

  /** `signIn`: for a demo pair the demo user is created first (a failure there
      ends the sign-in), then the password sign-in runs and its error, if any,
      is rethrown. On success the demo writes issued are returned. */
  function SignIn(email: string, password: string, demoReply: SignUpReply, signInError: Option<string>): (r: Result<seq<DemoWrite>>)
    ensures DemoAccountFor(email, password).None? ==> r == (if signInError.Some? then Err(signInError.value) else Ok([]))
    ensures DemoAccountFor(email, password).Some? ==>
      var acct := DemoAccountFor(email, password).value;
      var c := CreateDemoUser(email, acct.fullName, acct.role, demoReply);
      && (c.Err? ==> r == Err(c.message))
      && (c.Ok? && signInError.Some? ==> r == Err(signInError.value))
      && (c.Ok? && signInError.None? ==> r == Ok(c.value))
    ensures r.Ok? ==> signInError.None?
  {
    match DemoAccountFor(email, password)
    case None => if signInError.Some? then Err(signInError.value) else Ok([])
    case Some(acct) =>
      match CreateDemoUser(email, acct.fullName, acct.role, demoReply)
      case Err(m) => Err(m)
      case Ok(writes) => if signInError.Some? then Err(signInError.value) else Ok(writes)
  }

  /** Signing in with the admin demo pair on a fresh store upserts an admin profile. */
  lemma AdminDemoSignInWritesAdminProfile(id: string)
    requires id != ""
    ensures SignIn("admin@escaoptical.com", "admin123", SignUpReply(None, Some(id)), None)
      == Ok([UpsertProfile(id, "admin@escaoptical.com", "System Administrator", "admin"), UpsertUserRole(id, "admin")])
  {
  }

  /** A repeated demo sign-up, answered with 'User already registered', is tolerated. */
  lemma AlreadyRegisteredTolerated(reply: SignUpReply)
    requires reply.error == Some("User already registered")
    ensures CreateDemoUser("staff@escaoptical.com", "Staff Member", "staff", reply).Ok?
  {
    var msg := "User already registered";
    assert msg == "User " + "already registered";
    assert msg[5..5 + |"already registered"|] == "already registered";
    ContainsAt(msg, "already registered", 5);
  }
}
