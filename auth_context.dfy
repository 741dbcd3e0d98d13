/**
 * The authentication context: the signed-in user, the loading flag, and the
 * session copy kept in browser storage under `harvestHubUser`. Login looks a
 * user up by e-mail only; registration appends to the user table.
 */
module AuthContext {
  import opened Wrappers
  import opened Types
  import opened Text
  import opened Lists
  import opened MockData

  /** What browser storage holds for the session key. */
  datatype StoredSession = NoSession | Saved(user: User) | Unreadable

  /** `Omit<User, 'id' | 'createdAt'>`: a registration request. */
  datatype UserData = UserData(
    name: string,
    email: string,
    role: UserRole,
    location: Option<string>,
    farmName: Option<string>,
    businessName: Option<string>,
    businessType: Option<string>,
    farmDescription: Option<string>,
    produceInterests: Option<seq<string>>,
    profilePictureUrl: Option<string>,
    farmStory: Option<string>)

  const DUPLICATE_EMAIL := "User with this email already exists."

  /** The id a user registered at millisecond `stamp` receives. */
  function UserId(stamp: nat): string {
    "user-" + NatToString(stamp)
  }

  /** The record `register` builds. */
  function NewUser(d: UserData, stamp: nat, now: int): (r: User)
    ensures r.id == UserId(stamp) && r.createdAt == now
    ensures r.name == d.name && r.email == d.email && r.role == d.role
    ensures r.location == d.location && r.farmName == d.farmName && r.businessName == d.businessName
    ensures r.businessType == d.businessType && r.farmDescription == d.farmDescription
    ensures r.produceInterests == d.produceInterests && r.profilePictureUrl == d.profilePictureUrl
    ensures r.farmStory == d.farmStory
  {
    User(UserId(stamp), d.name, d.email, d.role, d.location, d.farmName, d.businessName,
      d.businessType, d.farmDescription, d.produceInterests, d.profilePictureUrl, d.farmStory, now)
  }

  function HasEmail(email: string): User -> bool {
    (u: User) => u.email == email
  }

  /** `mockUsers.find(u => u.email === email)`: the first user with that address. */
  function UserByEmail(users: seq<User>, email: string): (r: Option<User>)
    ensures r.None? <==> forall u :: u in users ==> u.email != email
    ensures r.Some? ==> r.value in users && r.value.email == email
    ensures r.Some? ==> var k := FirstIndex(users, HasEmail(email)); 0 <= k && r.value == users[k]
  {
    Find(users, HasEmail(email))
  }

  /** No two users share an e-mail address. */
  predicate UniqueEmails(users: seq<User>) {
    forall i, j :: 0 <= i < j < |users| ==> users[i].email != users[j].email
  }

  class AuthState {
    var user: Option<User>
    var loading: bool
    var session: StoredSession

    /** The signed-in user is always the one saved in storage. */
    ghost predicate Valid()
      reads this
    {
      user.Some? ==> session == Saved(user.value)
    }

    /** The provider's first render: nobody signed in, still loading. */
    constructor (stored: StoredSession)
      ensures user.None? && loading && session == stored
      ensures Valid()
    {
      user := None;
      loading := true;
      session := stored;
    }

    /** The mount effect: a readable stored user is restored, an unreadable one removed. */
    method RestoreSession()
      requires user.None?
      modifies this
      ensures !loading
      ensures old(session).Saved? ==> user == Some(old(session).user) && session == old(session)
      ensures old(session).NoSession? ==> user.None? && session == NoSession
      ensures old(session).Unreadable? ==> user.None? && session == NoSession
      ensures Valid()
    {
      match session {
        case Saved(u) => user := Some(u);
        case NoSession =>
        case Unreadable => session := NoSession;
      }
      loading := false;
    }

    /** `login`: the first user with the e-mail signs in; no password is checked. */
    method Login(db: Db, email: string) returns (r: Option<User>)
      requires Valid()
      modifies this
      ensures r == UserByEmail(db.users, email)
      ensures r.Some? ==> user == r && session == Saved(r.value)
      ensures r.None? ==> user == old(user) && session == old(session)
      ensures !loading && Valid()
    {
      loading := true;
      r := UserByEmail(db.users, email);
      if r.Some? {
        user := r;
        session := Saved(r.value);
      }
      loading := false;
    }

    /** `register`: refused when the e-mail is taken; otherwise the new user is appended and signed in. */
    method Register(db: Db, d: UserData, stamp: nat, now: int) returns (r: Result<User>)
      requires Valid()
      modifies this, db`users
      ensures UserByEmail(old(db.users), d.email).Some? ==>
        && r == Err(DUPLICATE_EMAIL) && db.users == old(db.users)
        && user == old(user) && session == old(session)
      ensures UserByEmail(old(db.users), d.email).None? ==>
        && r == Ok(NewUser(d, stamp, now)) && db.users == old(db.users) + [r.value]
        && user == Some(r.value) && session == Saved(r.value)
      ensures !loading && Valid()
    {
      loading := true;
      if UserByEmail(db.users, d.email).Some? {
        loading := false;
        return Err(DUPLICATE_EMAIL);
      }
      var u := NewUser(d, stamp, now);
      db.users := db.users + [u];
      user := Some(u);
      session := Saved(u);
      loading := false;
      r := Ok(u);
    }

    /** `logout`: nobody signed in and the stored session removed. */
    method Logout()
      modifies this
      ensures user.None? && session == NoSession && loading == old(loading)
      ensures Valid()
    {
      user := None;
      session := NoSession;
    }

    /** `updateUserContext`: the new record is signed in and saved. */
    method UpdateUserContext(u: User)
      modifies this
      ensures user == Some(u) && session == Saved(u) && loading == old(loading)
      ensures Valid()
    {
      user := Some(u);
      session := Saved(u);
    }
  }

  /** Registration keeps e-mail addresses unique, whatever the request. */
  lemma RegisterKeepsEmailsUnique(users: seq<User>, d: UserData, stamp: nat, now: int)
    requires UniqueEmails(users)
    requires UserByEmail(users, d.email).None?
    ensures UniqueEmails(users + [NewUser(d, stamp, now)])
  {
    var s := users + [NewUser(d, stamp, now)];
    forall i, j | 0 <= i < j < |s| ensures s[i].email != s[j].email {
      assert s[i] == users[i] && users[i] in users;
      if j < |users| { assert s[j] == users[j]; }
    }
  }

  /** After a successful registration, logging in with the same e-mail finds the new user. */
  lemma RegisteredUserCanLogIn(users: seq<User>, d: UserData, stamp: nat, now: int)
    requires UserByEmail(users, d.email).None?
    ensures UserByEmail(users + [NewUser(d, stamp, now)], d.email) == Some(NewUser(d, stamp, now))
  {
    var s := users + [NewUser(d, stamp, now)];
    var k := FirstIndex(s, (u: User) => u.email == d.email);
    assert s[|users|].email == d.email;
    assert forall i :: 0 <= i < |users| ==> s[i] == users[i] && users[i] in users;
    assert k == |users|;
  }
}
