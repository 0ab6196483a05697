/**
 * Mock authentication: the fake login and registration calls, and the signed-in
 * user mirrored into storage under `'agrivision_user'`.
 */
module Auth {
  import opened Wrappers
  import opened Strings
  import opened Records
  import opened LocalStorage

  const UserKey := "agrivision_user"
  const FailMarker := "fail"
  const MockUserName := "Test User"

  /** What the sign-in form submits. */
  datatype Credentials = Credentials(email: string, password: string)

  /** What the sign-up form submits. */
  datatype Registration = Registration(email: string, password: string, name: string, location: string)

  /** The mock login: any email containing "fail" is rejected; any other signs in as "Test User". */
  function FakeApiLogin(data: Credentials): (r: Result<User, string>)
    ensures r.Failure? <==> exists i :: OccursAt(data.email, FailMarker, i)
    ensures r.Success? ==> r.value == User(MockUserName, data.email)
    ensures r.Failure? ==> r.error == "Invalid credentials"
  {
    if Includes(data.email, FailMarker) then Failure("Invalid credentials")
    else Success(User(MockUserName, data.email))
  }

  /** The mock registration: fails on the same emails; otherwise returns the submitted name and email. */
  function FakeApiRegister(data: Registration): (r: Result<User, string>)
    ensures r.Failure? <==> exists i :: OccursAt(data.email, FailMarker, i)
    ensures r.Success? ==> r.value == User(data.name, data.email)
    ensures r.Failure? ==> r.error == "Registration failed"
  {
    if Includes(data.email, FailMarker) then Failure("Registration failed")
    else Success(User(data.name, data.email))
  }

  /** Login and registration with the same email succeed or fail together. */
  lemma SameEmailSameVerdict(c: Credentials, reg: Registration)
    requires c.email == reg.email
    ensures FakeApiLogin(c).Success? <==> FakeApiRegister(reg).Success?
    ensures FakeApiLogin(c).Success? ==> FakeApiLogin(c).value.email == FakeApiRegister(reg).value.email
  {
  }

  class AuthProvider {
    var user: Option<User>
    const store: Store

    /** A signed-in user is the one stored under the user key. */
    ghost predicate Mirrored()
      reads this, store
    {
      user.Some? ==> Lookup(store.entries, UserKey) == Some(StoredUser(user.value))
    }

    constructor (store: Store)
      ensures this.store == store && user == None
      ensures Mirrored()
    {
      this.store := store;
      user := None;
    }

    /**
     * The mount effect: adopts a stored user as it is. The source parses the
     * stored text without a guard, so unreadable text would throw; here the user
     * is then left as it was and the outcome says `Unparseable`.
     */
    method Restore() returns (outcome: Read<User>)
      modifies this
      ensures outcome == ReadUser(Lookup(store.entries, UserKey))
      ensures user == (if outcome.Parsed? then Some(outcome.value) else old(user))
      ensures old(Mirrored()) ==> Mirrored()
    {
      var stored := store.GetItem(UserKey);
      outcome := ReadUser(stored);
      if outcome.Parsed? {
        user := Some(outcome.value);
      }
    }

    /** Signs in; on success the user and the stored entry are the same record, on failure nothing changes. */
    method Login(data: Credentials) returns (outcome: Result<User, string>)
      modifies this, store
      ensures outcome == FakeApiLogin(data)
      ensures outcome.Success? ==>
                user == Some(outcome.value)
                && store.entries == old(store.entries)[UserKey := StoredUser(outcome.value)]
      ensures outcome.Failure? ==> user == old(user) && store.entries == old(store.entries)
      ensures old(Mirrored()) || outcome.Success? ==> Mirrored()
    {
      outcome := FakeApiLogin(data);
      if outcome.Success? {
        user := Some(outcome.value);
        store.SetItem(UserKey, StoredUser(outcome.value));
      }
    }

    /** Signs up; same shape as `Login`, with the registration call. */
    method Register(data: Registration) returns (outcome: Result<User, string>)
      modifies this, store
      ensures outcome == FakeApiRegister(data)
      ensures outcome.Success? ==>
                user == Some(outcome.value)
                && store.entries == old(store.entries)[UserKey := StoredUser(outcome.value)]
      ensures outcome.Failure? ==> user == old(user) && store.entries == old(store.entries)
      ensures old(Mirrored()) || outcome.Success? ==> Mirrored()
    {
      outcome := FakeApiRegister(data);
      if outcome.Success? {
        user := Some(outcome.value);
        store.SetItem(UserKey, StoredUser(outcome.value));
      }
    }

    /** Signs out: no user, and no stored user entry. */
    method Logout()
      modifies this, store
      ensures user == None
      ensures store.entries == old(store.entries) - {UserKey}
      ensures Mirrored()
    {
      user := None;
      store.RemoveItem(UserKey);
    }
  }
}
