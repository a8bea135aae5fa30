/**
 * The session store behind `useAuth`: a fixed allow-list of demo accounts,
 * the current user, a loading flag, and the copy of the user kept in the
 * browser's local storage under the key `cmr_user`.
 */
module Auth {
  import opened Common

  datatype Role = Admin | Accountant | ClientRole

  /** The identity kept in the session; it carries no password. */
  datatype User = User(id: string, name: string, email: string, role: Role, avatarInitials: string)

  /** An allow-list entry: an identity together with its password. */
  datatype Account = Account(id: string, email: string, password: string, name: string,
                             role: Role, avatarInitials: string)

  /** What the asynchronous `login` settles to: resolved, or rejected with
      the message of the thrown error. */
  datatype LoginResult = LoggedIn | Rejected(message: string)

  /** The message of the `Error` a rejected login throws. */
  const InvalidCredentials: string := "Invalid credentials"

  /** The demo allow-list: three accounts sharing the password "password". */
  function MockUsers(): (r: seq<Account>)
    ensures |r| == 3
    ensures forall i :: 0 <= i < |r| ==> r[i].password == "password"
  {
    [ Account("1", "admin@cmr.com", "password", "Admin User", Admin, "AU"),
      Account("2", "accountant@cmr.com", "password", "John Smith", Accountant, "JS"),
      Account("3", "client@cmr.com", "password", "Sarah Johnson", ClientRole, "SJ") ]
  }

  predicate Matches(a: Account, email: string, password: string)
  {
    a.email == email && a.password == password
  }

  predicate EmailsDistinct(accounts: seq<Account>)
  {
    forall i, j :: 0 <= i < j < |accounts| ==> accounts[i].email != accounts[j].email
  }

  /** `accounts.find(...)`: the first entry whose email and password both
      equal the given ones. */
  function FindAccount(accounts: seq<Account>, email: string, password: string): (r: Option<Account>)
    ensures r.Some? <==> exists i :: 0 <= i < |accounts| && Matches(accounts[i], email, password)
    ensures r.Some? ==> r.value in accounts && Matches(r.value, email, password)
  {
    if accounts == [] then None
    else if Matches(accounts[0], email, password) then Some(accounts[0])
    else
      var r := FindAccount(accounts[1..], email, password);
      assert forall i :: 0 < i < |accounts| ==> accounts[i] == accounts[1..][i - 1];
      r
  }

  /** Object rest `{ password: _, ...userWithoutPassword }`. */
  function StripPassword(a: Account): (u: User)
    ensures u.id == a.id && u.email == a.email && u.name == a.name
    ensures u.role == a.role && u.avatarInitials == a.avatarInitials
  {
    User(a.id, a.name, a.email, a.role, a.avatarInitials)
  }

  /** The demo accounts have distinct emails. */
  lemma MockEmailsDistinct()
    ensures EmailsDistinct(MockUsers())
  {
  }

  /** With distinct emails, a matching entry is the one `login` finds. */
  lemma {:induction false} MatchIsUnique(accounts: seq<Account>, i: nat, email: string, password: string)
    requires EmailsDistinct(accounts)
    requires i < |accounts| && Matches(accounts[i], email, password)
    ensures FindAccount(accounts, email, password) == Some(accounts[i])
  {
    if i > 0 {
      assert !Matches(accounts[0], email, password);
      assert EmailsDistinct(accounts[1..]) by {
        forall k, l | 0 <= k < l < |accounts[1..]|
          ensures accounts[1..][k].email != accounts[1..][l].email
        {
          assert accounts[1..][k] == accounts[k + 1] && accounts[1..][l] == accounts[l + 1];
        }
      }
      MatchIsUnique(accounts[1..], i - 1, email, password);
    }
  }

  class SessionStore {
    var user: Option<User>
    var isLoading: bool
    /** The `cmr_user` entry of local storage; serialisation is the identity. */
    var storage: Option<User>

    /** Mounting the provider over whatever a previous page load persisted. */
    constructor (persisted: Option<User>)
      ensures user == None && isLoading && storage == persisted
    {
      user := None;
      isLoading := true;
      storage := persisted;
    }

    /** `isAuthenticated: !!user`. */
    function IsAuthenticated(): (b: bool)
      reads this
      ensures b <==> user != None
    {
      user.Some?
    }

    /** The mount effect: adopt a persisted user, then stop loading. The
        stored identity is trusted without checking the allow-list. */
    method Restore()
      modifies this
      ensures storage == old(storage)
      ensures user == if storage.Some? then storage else old(user)
      ensures !isLoading
    {
      if storage.Some? {
        user := storage;
      }
      isLoading := false;
    }

    /** `login`, with the simulated network delay run to completion. A
        rejected login throws before `setIsLoading(false)` is reached. */
    method Login(email: string, password: string) returns (result: LoginResult)
      modifies this
      ensures match FindAccount(MockUsers(), email, password)
        case Some(a) =>
          && result == LoggedIn
          && user == Some(StripPassword(a)) && storage == user && !isLoading
        case None =>
          && result == Rejected(InvalidCredentials)
          && user == old(user) && storage == old(storage) && isLoading
    {
      isLoading := true;
      var found := FindAccount(MockUsers(), email, password);
      if found.Some? {
        var withoutPassword := StripPassword(found.value);
        user := Some(withoutPassword);
        storage := Some(withoutPassword);
      } else {
        return Rejected(InvalidCredentials);
      }
      isLoading := false;
      result := LoggedIn;
    }

    /** `logout`: forget the user in memory and in storage. */
    method Logout()
      modifies this
      ensures user == None && storage == None
      ensures isLoading == old(isLoading)
    {
      user := None;
      storage := None;
    }
  }

  /** A login followed by a page reload: the reloaded provider restores
      exactly the user the login stored, and a rejected login leaves the
      reload to whatever was persisted before. */
  method LoginThenReload(persisted: Option<User>, email: string, password: string)
    returns (loggedIn: Option<User>, reloaded: Option<User>)
    ensures FindAccount(MockUsers(), email, password).Some? ==>
      loggedIn == Some(StripPassword(FindAccount(MockUsers(), email, password).value)) &&
      reloaded == loggedIn
    ensures FindAccount(MockUsers(), email, password).None? ==> reloaded == persisted
  {
    var session := new SessionStore(persisted);
    session.Restore();
    var _ := session.Login(email, password);
    loggedIn := session.user;
    var next := new SessionStore(session.storage);
    next.Restore();
    reloaded := next.user;
  }

  /** A logout followed by a page reload leaves no one signed in, and a
      second logout in a row changes nothing further. */
  method LogoutThenReload(persisted: Option<User>)
    returns (authenticated: bool, onceUser: Option<User>, twiceUser: Option<User>, onceStorage: Option<User>, twiceStorage: Option<User>)
    ensures !authenticated
    ensures onceUser == twiceUser && onceStorage == twiceStorage
  {
    var session := new SessionStore(persisted);
    session.Restore();
    session.Logout();
    onceUser, onceStorage := session.user, session.storage;
    session.Logout();
    twiceUser, twiceStorage := session.user, session.storage;
    var next := new SessionStore(session.storage);
    next.Restore();
    authenticated := next.IsAuthenticated();
  }

  /** The demo scenario: the admin credentials sign in as an admin, and a
      wrong password for the same email is rejected and leaves no session. */
  method AdminScenario() returns (admin: LoginResult, role: Option<Role>, wrong: LoginResult, after: bool)
    ensures admin == LoggedIn && role == Some(Admin)
    ensures wrong == Rejected(InvalidCredentials) && !after
  {
    var session := new SessionStore(None);
    session.Restore();
    admin := session.Login("admin@cmr.com", "password");
    role := if session.user.Some? then Some(session.user.value.role) else None;
    var other := new SessionStore(None);
    other.Restore();
    wrong := other.Login("admin@cmr.com", "wrong");
    after := other.IsAuthenticated();
  }
}
