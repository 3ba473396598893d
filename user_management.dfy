/** The administrators' user screen of src/components/UserManagement.tsx:
    the admin gate, the role labels, account creation and the two-step role
    change. Every reply of the store and of the auth service is a parameter. */
module UserManagement {
  import opened Common
  import AuthContext

  /** A row of `profiles` as the screen lists it. */
  datatype UserProfile = UserProfile(id: string, email: string, fullName: string, role: string, createdAt: string)

  /** The new-account form. */
  datatype NewUser = NewUser(email: string, password: string, fullName: string, role: string)

  const EmptyNewUser := NewUser("", "", "", "sales_employee")

  /** What `auth.signUp` is sent: the role picked in the form is not part of it. */
  datatype SignUpRequest = SignUpRequest(email: string, password: string, fullName: string)

  /** A toast: success or a destructive error, with its description. */
  datatype Toast = Success(description: string) | Failure(description: string)

  /** The two role writes of `updateUserRole`, in the order they are issued. */
  datatype RoleWrite = ProfileRole(userId: string, role: string) | UserRoleRole(userId: string, role: string)

  /** What the screen renders: the management view or only the access-denied card. */
  datatype View = ManageUsers | AccessDenied

  /** The gate: only a profile granted 'admin' sees the management view. */
  function ViewFor(profile: Option<AuthContext.Profile>): (v: View)
    ensures v == ManageUsers <==> profile.Some? && profile.value.role == "admin"
  {
    if AuthContext.HasRole(profile, "admin") then ManageUsers else AccessDenied
  }

  /** The labels the screen shows for the roles it assigns. */
  const UserRoleLabels: map<string, string> :=
    map["admin" := "Admin", "sales_employee" := "Sales Employee", "cashier" := "Cashier"]

  /** `getRoleDisplayName`: a fixed label for the three roles, any other text unchanged. */
  function RoleDisplayName(role: string): (text: string)
    ensures text == if role in UserRoleLabels then UserRoleLabels[role] else role
  {
    if role == "admin" then "Admin"
    else if role == "sales_employee" then "Sales Employee"
    else if role == "cashier" then "Cashier"
    else role
  }

  /** The three roles the screen assigns get three different labels, and any
      other text is shown as it is. */
  lemma RoleLabelsDistinct(r1: string, r2: string)
    requires r1 in {"admin", "sales_employee", "cashier"} && r2 in {"admin", "sales_employee", "cashier"}
    ensures RoleDisplayName(r1) == RoleDisplayName(r2) <==> r1 == r2
  {
  }

  lemma OtherRolesShownVerbatim(role: string)
    requires role !in {"admin", "sales_employee", "cashier"}
    ensures RoleDisplayName(role) == role
  {
  }

  /** `createUser`'s check: all three text fields must be non-empty. */
  function CreateCheck(u: NewUser): (r: Option<string>)
    ensures r.None? <==> u.email != "" && u.password != "" && u.fullName != ""
    ensures r.Some? ==> r.value == "Please fill in all fields"
  {
    if u.email == "" || u.password == "" || u.fullName == "" then Some("Please fill in all fields") else None
  }

  /** The sign-up request built from the form: email, password and full name. */
  function SignUpRequestOf(u: NewUser): (r: SignUpRequest)
    ensures r.email == u.email && r.password == u.password && r.fullName == u.fullName
  {
    SignUpRequest(u.email, u.password, u.fullName)
  }

  /** Two forms that differ only in the chosen role send the same request. */
  lemma RoleNotSent(u: NewUser, role: string)
    ensures SignUpRequestOf(u.(role := role)) == SignUpRequestOf(u)
  {
  }

  /** The screen's state. */
  class UserManagementState {
    var users: seq<UserProfile>
    var loading: bool
    var newUser: NewUser
    var isCreating: bool
    var dialogOpen: bool

    constructor ()
      ensures users == [] && loading && newUser == EmptyNewUser && !isCreating && !dialogOpen
    {
      users := [];
      loading := true;
      newUser := EmptyNewUser;
      isCreating := false;
      dialogOpen := false;
    }

    /** `fetchUsers`: the store's rows (newest first), or an error toast and
        the list as it was; `loading` ends false. A reply with no data is an
        empty list. */
    method FetchUsers(reply: Result<Option<seq<UserProfile>>>) returns (toast: Option<Toast>)
      modifies this
      ensures !loading
      ensures newUser == old(newUser) && isCreating == old(isCreating) && dialogOpen == old(dialogOpen)
      ensures reply.Ok? ==> users == reply.value.GetOr([]) && toast == None
      ensures reply.Err? ==> users == old(users) && toast == Some(Failure("Failed to fetch users"))
    {
      if reply.Err? {
        toast := Some(Failure("Failed to fetch users"));
      } else {
        users := reply.value.GetOr([]);
        toast := None;
      }
      loading := false;
    }

    /** `createUser`: a form with a missing field is rejected before anything
        is sent; otherwise the sign-up is sent, and on success the form is
        reset with role 'sales_employee', the dialog closes and the list is
        fetched again; on failure the service's message is shown and the form
        stays. `isCreating` ends false. */
    method CreateUser(signUpError: Option<string>)
      returns (request: Option<SignUpRequest>, toast: Toast, refetch: bool)
      modifies this
      ensures users == old(users) && loading == old(loading)
      ensures CreateCheck(old(newUser)).Some? ==>
        request == None && toast == Failure(CreateCheck(old(newUser)).value) && !refetch
        && newUser == old(newUser) && dialogOpen == old(dialogOpen) && isCreating == old(isCreating)
      ensures CreateCheck(old(newUser)).None? ==> request == Some(SignUpRequestOf(old(newUser))) && !isCreating
      ensures CreateCheck(old(newUser)).None? && signUpError.None? ==>
        toast == Success("User created successfully!") && refetch && newUser == EmptyNewUser && !dialogOpen
      ensures CreateCheck(old(newUser)).None? && signUpError.Some? ==>
        toast == Failure(signUpError.value) && !refetch && newUser == old(newUser) && dialogOpen == old(dialogOpen)
    {
      var rejected := CreateCheck(newUser);
      if rejected.Some? {
        return None, Failure(rejected.value), false;
      }
      isCreating := true;
      request := Some(SignUpRequestOf(newUser));
      if signUpError.Some? {
        toast := Failure(signUpError.value);
        refetch := false;
      } else {
        toast := Success("User created successfully!");
        newUser := EmptyNewUser;
        dialogOpen := false;
        refetch := true;
      }
      isCreating := false;
    }

    /** `updateUserRole`: the role is written to `profiles` first and, only if
        that succeeds, to `user_roles`; the list is fetched again only when
        both succeed. The screen's own state does not change. */
    method UpdateUserRole(userId: string, newRole: string, profileFails: bool, roleFails: bool)
      returns (writes: seq<RoleWrite>, toast: Toast, refetch: bool)
      ensures profileFails ==> writes == [ProfileRole(userId, newRole)]
      ensures !profileFails ==> writes == [ProfileRole(userId, newRole), UserRoleRole(userId, newRole)]
      ensures refetch <==> !profileFails && !roleFails
      ensures refetch ==> toast == Success("User role updated successfully")
      ensures !refetch ==> toast == Failure("Failed to update user role")
    {
      writes := [ProfileRole(userId, newRole)];
      if profileFails {
        return writes, Failure("Failed to update user role"), false;
      }
      writes := writes + [UserRoleRole(userId, newRole)];
      if roleFails {
        return writes, Failure("Failed to update user role"), false;
      }
      toast := Success("User role updated successfully");
      refetch := true;
    }
  }
}
