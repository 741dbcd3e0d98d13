/**
 * The registration page: the role picker, the form fields, the password checks
 * and the request handed to `register`.
 */
module RegistrationPage {
  import opened Wrappers
  import opened Types
  import opened MockData
  import opened AuthContext
  import AppRoutes

  const PASSWORD_MISMATCH := "Passwords do not match."
  const PASSWORD_TOO_SHORT := "Password must be at least 6 characters long."
  const REGISTRATION_FAILED := "Registration failed. Please try again."

  datatype RegistrationFields = RegistrationFields(
    name: string,
    email: string,
    password: string,
    confirmPassword: string,
    location: string,
    farmName: string,
    farmDescription: string,
    businessName: string,
    businessType: string)

  /** The role handed over by the page that linked here, else Buyer. */
  function InitialRole(linked: Option<UserRole>): UserRole {
    if linked.Some? then linked.value else Buyer
  }

  /** The first password problem, if any: a mismatch is reported before the length. */
  function PasswordError(f: RegistrationFields): (r: Option<string>)
    ensures r == None <==> f.password == f.confirmPassword && |f.password| >= 6
    ensures f.password != f.confirmPassword ==> r == Some(PASSWORD_MISMATCH)
    ensures f.password == f.confirmPassword && |f.password| < 6 ==> r == Some(PASSWORD_TOO_SHORT)
  {
    if f.password != f.confirmPassword then Some(PASSWORD_MISMATCH)
    else if |f.password| < 6 then Some(PASSWORD_TOO_SHORT)
    else None
  }

  /** The picture every new account starts with, seeded by the e-mail. */
  function SeededPicture(email: string): string {
    "https://picsum.photos/seed/" + email + "/200/200"
  }

  /** The registration request: farm fields only for farmers, business fields only for buyers. */
  function UserDataFor(f: RegistrationFields, role: UserRole): (d: UserData)
    ensures d.name == f.name && d.email == f.email && d.role == role && d.location == Some(f.location)
    ensures (d.farmName.Some? || d.farmDescription.Some?) ==> role == Farmer
    ensures (d.businessName.Some? || d.businessType.Some?) ==> role == Buyer
    ensures role == Farmer ==> d.farmName == Some(f.farmName) && d.farmDescription == Some(f.farmDescription)
    ensures role == Buyer ==> d.businessName == Some(f.businessName) && d.businessType == Some(f.businessType)
    ensures d.profilePictureUrl == Some(SeededPicture(f.email)) && d.farmStory.None? && d.produceInterests.None?
  {
    UserData(f.name, f.email, role, Some(f.location),
      if role == Farmer then Some(f.farmName) else None,
      if role == Buyer then Some(f.businessName) else None,
      if role == Buyer then Some(f.businessType) else None,
      if role == Farmer then Some(f.farmDescription) else None,
      None, Some(SeededPicture(f.email)), None)
  }

  function WelcomeText(name: string): string {
    "Welcome, " + name + "! Registration successful. Redirecting..."
  }

  /** Where the page sends a newly registered user: the dashboard the route guard allows a farmer or buyer. */
  function HomeFor(role: UserRole): (r: string)
    ensures role != NoRole ==> r == AppRoutes.HomeOf(role)
    ensures role == Farmer ==> AppRoutes.RouteAccess(r) == Some(AppRoutes.RoleOnly(Farmer))
    ensures role != Farmer ==> AppRoutes.RouteAccess(r) == Some(AppRoutes.RoleOnly(Buyer))
  {
    if role == Farmer then FARMER_DASHBOARD else BUYER_DASHBOARD
  }

  class RegistrationForm {
    var role: UserRole
    var fields: RegistrationFields
    var error: Option<string>
    var success: Option<string>

    constructor (linked: Option<UserRole>)
      ensures role == InitialRole(linked)
      ensures fields == RegistrationFields("", "", "", "", "", "", "", "", "")
      ensures error.None? && success.None?
    {
      role := InitialRole(linked);
      fields := RegistrationFields("", "", "", "", "", "", "", "", "");
      error := None;
      success := None;
    }

    /** Switching role clears the fields that belong to the other role. */
    method ToggleRole(newRole: UserRole)
      modifies this
      ensures role == newRole && error == old(error) && success == old(success)
      ensures fields.farmName == (if newRole == Farmer then old(fields.farmName) else "")
      ensures fields.farmDescription == (if newRole == Farmer then old(fields.farmDescription) else "")
      ensures fields.businessName == (if newRole == Buyer then old(fields.businessName) else "")
      ensures fields.businessType == (if newRole == Buyer then old(fields.businessType) else "")
      ensures fields.name == old(fields.name) && fields.email == old(fields.email)
      ensures fields.password == old(fields.password) && fields.confirmPassword == old(fields.confirmPassword)
      ensures fields.location == old(fields.location)
    {
      role := newRole;
      fields := fields.(
        farmName := if newRole == Farmer then fields.farmName else "",
        farmDescription := if newRole == Farmer then fields.farmDescription else "",
        businessName := if newRole == Buyer then fields.businessName else "",
        businessType := if newRole == Buyer then fields.businessType else "");
    }

    /**
     * `handleSubmit`: password problems are reported without contacting the
     * context; otherwise the request is registered and either the welcome or
     * the context's error is shown. `home` is where the page redirects.
     */
    method HandleSubmit(auth: AuthState, db: Db, stamp: nat, now: int) returns (home: Option<string>)
      requires auth.Valid()
      modifies this, auth, db`users
      ensures PasswordError(old(fields)).Some? ==>
        && error == PasswordError(old(fields)) && success.None? && home.None?
        && db.users == old(db.users) && auth.user == old(auth.user)
        && auth.session == old(auth.session) && auth.loading == old(auth.loading)
      ensures PasswordError(old(fields)).None? && UserByEmail(old(db.users), old(fields).email).Some? ==>
        && error == Some(DUPLICATE_EMAIL) && success.None? && home.None?
        && db.users == old(db.users) && auth.user == old(auth.user)
        && auth.session == old(auth.session) && !auth.loading
      ensures PasswordError(old(fields)).None? && UserByEmail(old(db.users), old(fields).email).None? ==>
        var u := NewUser(UserDataFor(old(fields), old(role)), stamp, now);
        && error.None? && success == Some(WelcomeText(u.name)) && home == Some(HomeFor(u.role))
        && db.users == old(db.users) + [u] && auth.user == Some(u)
        && auth.session == Saved(u) && !auth.loading
      ensures fields == old(fields) && role == old(role) && auth.Valid()
    {
      error := None;
      success := None;
      home := None;
      var problem := PasswordError(fields);
      if problem.Some? {
        error := problem;
        return;
      }
      var r := auth.Register(db, UserDataFor(fields, role), stamp, now);
      match r {
        case Ok(u) =>
          success := Some(WelcomeText(u.name));
          home := Some(HomeFor(u.role));
        case Err(m) =>
          error := Some(if m != "" then m else REGISTRATION_FAILED);
      }
    }
  }
}
