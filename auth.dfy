/** The account directory: a users list and a session entry, both kept
    in local storage (js/auth.js). */
module Auth {
  import opened Common
  import opened Records
  import opened Store

  /** The fields of the registration form, as handed to `register`. */
  datatype Registration = Registration(
    firstName: string,
    lastName: string,
    email: string,
    password: string,
    confirmPassword: string,
    websiteGoal: string)

  /** Why `register` or `login` turned a request down, one per message. */
  datatype AuthError =
    | MissingCredentials
    | PasswordTooShort
    | PasswordMismatch
    | DuplicateEmail
    | InvalidCredentials

  const MinPasswordLength := 6

  /** The single account seeded into an empty directory. */
  function DemoUser(now: string): User
  {
    User(1, "Demo", "User", "demo@websitelaunchpad.com", "demo123", "portfolio", now, [], None, None)
  }

  /** The store after `initialize`: seeded with the demo account when the
      users key is absent, and untouched otherwise. */
  function Initialized(items: map<string, Value>, now: string): (r: map<string, Value>)
    ensures UsersKey in r
    ensures UsersKey in items ==> r == items
    ensures UsersKey !in items ==> UsersIn(r) == [DemoUser(now)]
    ensures r - {UsersKey} == items - {UsersKey}
  {
    if UsersKey in items then items else items[UsersKey := UserList([DemoUser(now)])]
  }

  predicate EmailTaken(users: seq<User>, email: string)
  {
    exists i :: 0 <= i < |users| && users[i].email == email
  }

  /** The checks `register` makes before it writes anything, in the order
      it makes them; None when the registration may go ahead. */
  function RegistrationError(data: Registration, users: seq<User>): (r: Option<AuthError>)
    ensures r == Some(MissingCredentials) <==> data.email == "" || data.password == ""
    ensures r == Some(PasswordTooShort) <==>
      data.email != "" && data.password != "" && Utf16Length(data.password) < MinPasswordLength
    ensures r == Some(PasswordMismatch) <==>
      data.email != "" && Utf16Length(data.password) >= MinPasswordLength && data.password != data.confirmPassword
    ensures r == Some(DuplicateEmail) <==>
      data.email != "" && Utf16Length(data.password) >= MinPasswordLength && data.password == data.confirmPassword
      && EmailTaken(users, data.email)
    ensures r != Some(InvalidCredentials)
  {
    if data.email == "" || data.password == "" then Some(MissingCredentials)
    else if Utf16Length(data.password) < MinPasswordLength then Some(PasswordTooShort)
    else if data.password != data.confirmPassword then Some(PasswordMismatch)
    else if EmailTaken(users, data.email) then Some(DuplicateEmail)
    else None
  }

  /** The account `register` appends: numbered one past the list length,
      on the free plan, with no projects yet. */
  function NewUser(data: Registration, users: seq<User>, now: string): (u: User)
    ensures u.id == |users| + 1
    ensures u.email == data.email && u.password == data.password
    ensures u.firstName == data.firstName && u.lastName == data.lastName
    ensures u.websiteGoal == data.websiteGoal && u.createdAt == now
    ensures u.projects == [] && u.subscription == Some("free") && u.completedResources == None
  {
    User(|users| + 1, data.firstName, data.lastName, data.email, data.password,
         data.websiteGoal, now, [], Some("free"), None)
  }

  /** User ids are exactly 1..n in list order. */
  predicate SequentialIds(users: seq<User>)
  {
    forall i :: 0 <= i < |users| ==> users[i].id == i + 1
  }

  /** No two accounts share an email. */
  predicate UniqueEmails(users: seq<User>)
  {
    forall i, j :: 0 <= i < j < |users| ==> users[i].email != users[j].email
  }

  /** A registration keeps ids 1..n+1. */
  lemma RegisterKeepsIdsSequential(users: seq<User>, data: Registration, now: string)
    requires SequentialIds(users)
    ensures SequentialIds(users + [NewUser(data, users, now)])
  {
  }

  /** A registration that passes the checks keeps emails unique. */
  lemma RegisterKeepsEmailsUnique(users: seq<User>, data: Registration, now: string)
    requires UniqueEmails(users)
    requires RegistrationError(data, users) == None
    ensures UniqueEmails(users + [NewUser(data, users, now)])
  {
    var all := users + [NewUser(data, users, now)];
    forall i, j | 0 <= i < j < |all|
      ensures all[i].email != all[j].email
    {
      if j == |users| {
        assert all[i] == users[i];
      }
    }
  }

  /** A password shorter than six characters is refused whatever else is typed. */
  lemma ShortPasswordRefused(data: Registration, users: seq<User>)
    requires data.email != "" && 0 < Utf16Length(data.password) < MinPasswordLength
    ensures RegistrationError(data, users) == Some(PasswordTooShort)
  {
  }

  /** The test `login` searches with. */
  function Credentials(email: string, password: string): User -> bool
  {
    (u: User) => u.email == email && u.password == password
  }

  /** The position of the first account with exactly these credentials. */
  function FindLogin(users: seq<User>, email: string, password: string): (r: Option<nat>)
    ensures r.Some? <==> exists i :: 0 <= i < |users| && users[i].email == email && users[i].password == password
    ensures r.Some? ==> r.value < |users| && users[r.value].email == email && users[r.value].password == password
    ensures r.Some? ==> forall j :: 0 <= j < r.value ==> !(users[j].email == email && users[j].password == password)
  {
    var k := FindIndex(users, Credentials(email, password));
    assert k.Some? ==> Credentials(email, password)(users[k.value]);
    k
  }

  // ------------------------------------------------------------------
  // The email check
  // ------------------------------------------------------------------

  /** A run of characters matched by the class `[^\s@]+`. */
  predicate PlainRun(s: string)
  {
    |s| > 0 && forall i :: 0 <= i < |s| ==> !IsJsSpace(s[i]) && s[i] != '@'
  }

  /** The pattern `^[^\s@]+@[^\s@]+\.[^\s@]+$`, read literally. */
  ghost predicate EmailPattern(s: string)
  {
    exists a: string, b: string, c: string ::
      PlainRun(a) && PlainRun(b) && PlainRun(c) && s == a + "@" + b + "." + c
  }

  function IsAtSign(c: char): bool { c == '@' }

  /** A '.' with at least one character before it and one after it. */
  predicate HasInnerDot(d: string)
  {
    exists k :: 1 <= k < |d| - 1 && d[k] == '.'
  }

  /** `isValidEmail`: split at the first '@'; both halves are free of
      whitespace and '@', the first is non-empty, and the second has a '.'
      with something on each side of it. */
  predicate IsValidEmail(s: string)
    ensures IsValidEmail(s) ==> 5 <= |s| && '@' in s && s[0] != '@' && !IsJsSpace(s[0])
  {
    match FindIndex(s, IsAtSign)
    case None => false
    case Some(i) => PlainRun(s[..i]) && PlainRun(s[i + 1..]) && HasInnerDot(s[i + 1..])
  }

  lemma PlainRunConcat(a: string, b: string)
    requires PlainRun(a) && PlainRun(b)
    ensures PlainRun(a + "." + b)
  {
    var ab := a + "." + b;
    forall i | 0 <= i < |ab|
      ensures !IsJsSpace(ab[i]) && ab[i] != '@'
    {
      if i < |a| {
        assert ab[i] == a[i];
      } else if i > |a| {
        assert ab[i] == b[i - |a| - 1];
      }
    }
  }

  /** A domain accepted by the check splits around one of its dots. */
  lemma SplitAtDot(d: string) returns (b: string, c: string)
    requires PlainRun(d) && HasInnerDot(d)
    ensures PlainRun(b) && PlainRun(c) && d == b + "." + c
  {
    var k :| 1 <= k < |d| - 1 && d[k] == '.';
    b, c := d[..k], d[k + 1..];
    assert forall j :: 0 <= j < |b| ==> b[j] == d[j];
    assert forall j :: 0 <= j < |c| ==> c[j] == d[k + 1 + j];
    assert d == b + "." + c;
  }

  lemma ValidEmailHasPattern(s: string)
    requires IsValidEmail(s)
    ensures EmailPattern(s)
  {
    var i := FindIndex(s, IsAtSign).value;
    var a, d := s[..i], s[i + 1..];
    var b, c := SplitAtDot(d);
    assert s == a + "@" + d;
    assert s == a + "@" + b + "." + c;
  }

  /** In `a + "@" + d` with no '@' in `a`, the first '@' is at `|a|`. */
  lemma FirstAtSign(a: string, d: string)
    requires PlainRun(a)
    ensures FindIndex(a + "@" + d, IsAtSign) == Some(|a|)
  {
    var s := a + "@" + d;
    assert IsAtSign(s[|a|]);
    assert forall j :: 0 <= j < |a| ==> s[j] == a[j] && !IsAtSign(s[j]);
  }

  lemma PatternIsValidEmail(s: string)
    requires EmailPattern(s)
    ensures IsValidEmail(s)
  {
    var a: string, b: string, c: string :|
      PlainRun(a) && PlainRun(b) && PlainRun(c) && s == a + "@" + b + "." + c;
    var d := b + "." + c;
    assert s == a + "@" + d;
    FirstAtSign(a, d);
    assert s[..|a|] == a;
    assert s[|a| + 1..] == d;
    PlainRunConcat(b, c);
    assert d[|b|] == '.';
  }

  /** The string predicate decides exactly the regular expression. */
  lemma IsValidEmailMatchesPattern(s: string)
    ensures IsValidEmail(s) <==> EmailPattern(s)
  {
    if IsValidEmail(s) {
      ValidEmailHasPattern(s);
    }
    if EmailPattern(s) {
      PatternIsValidEmail(s);
    }
  }

  // ------------------------------------------------------------------
  // The directory itself
  // ------------------------------------------------------------------

  class AuthSystem {
    const store: LocalStore

    /** `new AuthSystem()`, which initialises the directory at once. */
    constructor (store: LocalStore, now: string)
      modifies store
      ensures this.store == store
      ensures store.items == Initialized(old(store.items), now)
    {
      this.store := store;
      new;
      Initialize(now);
    }

    method Initialize(now: string)
      modifies store
      ensures store.items == Initialized(old(store.items), now)
    {
      if UsersKey !in store.items {
        store.SetItem(UsersKey, UserList([DemoUser(now)]));
      }
    }

    /** `getUsers`: the stored list, or the empty list when none is stored. */
    function GetUsers(): (r: seq<User>)
      reads store
      ensures UsersKey !in store.items ==> r == []
      ensures UsersKey in store.items && store.items[UsersKey].UserList? ==> r == store.items[UsersKey].users
    {
      UsersIn(store.items)
    }

    method SaveUsers(users: seq<User>)
      modifies store
      ensures store.items == old(store.items)[UsersKey := UserList(users)]
      ensures GetUsers() == users
    {
      store.SetItem(UsersKey, UserList(users));
    }

    /** `getCurrentUser`: the account in the session entry, or null. */
    function GetCurrentUser(): (r: Option<User>)
      reads store
      ensures r.Some? <==> SessionKey in store.items && store.items[SessionKey].Account?
      ensures r.Some? ==> store.items[SessionKey] == Account(r.value)
    {
      AccountIn(store.items, SessionKey)
    }

    method SetCurrentUser(user: User)
      modifies store
      ensures store.items == old(store.items)[SessionKey := Account(user)]
      ensures GetCurrentUser() == Some(user)
    {
      store.SetItem(SessionKey, Account(user));
    }

    /** `isLoggedIn`: a session entry holds an account. */
    predicate IsLoggedIn()
      reads store
      ensures IsLoggedIn() <==> SessionKey in store.items && store.items[SessionKey].Account?
    {
      GetCurrentUser().Some?
    }

    /** Refused registrations write nothing; an accepted one appends the
        new account, keeps every earlier one and logs it in. */
    method Register(data: Registration, now: string) returns (r: Result<User, AuthError>)
      modifies store
      ensures var users := UsersIn(old(store.items));
        match RegistrationError(data, users)
        case Some(e) =>
          r == Failure(e) && store.items == old(store.items)
        case None =>
          r == Success(NewUser(data, users, now))
          && store.items == old(store.items)[UsersKey := UserList(users + [r.value])][SessionKey := Account(r.value)]
    {
      var users := GetUsers();
      var err := RegistrationError(data, users);
      if err.Some? {
        return Failure(err.value);
      }
      var user := NewUser(data, users, now);
      SaveUsers(users + [user]);
      SetCurrentUser(user);
      r := Success(user);
    }

    /** Logs in the first account with exactly these credentials; a
        failed attempt leaves the store, the session included, as it was. */
    method Login(email: string, password: string) returns (r: Result<User, AuthError>)
      modifies store
      ensures var users := UsersIn(old(store.items));
        match FindLogin(users, email, password)
        case None =>
          r == Failure(InvalidCredentials) && store.items == old(store.items)
        case Some(k) =>
          r == Success(users[k]) && store.items == old(store.items)[SessionKey := Account(users[k])]
    {
      var users := GetUsers();
      var k := FindLogin(users, email, password);
      if k.None? {
        return Failure(InvalidCredentials);
      }
      SetCurrentUser(users[k.value]);
      r := Success(users[k.value]);
    }

    method Logout()
      modifies store
      ensures store.items == old(store.items) - {SessionKey}
      ensures !IsLoggedIn()
    {
      store.RemoveItem(SessionKey);
    }
  }
}
