/** The account resolver: the `user/login` action, which turns a login
    assertion into a local User, linking a new Login when the provider account
    is not known yet, and the `user/get` action.

    `Link` and `Resolve` are the specifications of `LinkUser` and `LoginAction`
    over a snapshot of the store; the lemmas after them state what a login does
    in each case, which invariants it keeps, and that it is idempotent. */
module Resolver {
  import opened Wrappers
  import opened Records
  import opened Format
  import opened RecordStore

  /** The failures the store reports on each call the login action may make;
      `None` means the call succeeds. */
  datatype Faults = Faults(
    findLogin: Option<string>,
    getUser: Option<string>,
    findUsers: Option<string>,
    saveUser: Option<string>,
    saveLogin: Option<string>)

  const NoFaults := Faults(None, None, None, None, None)

  /** The reply of the login action: `{ success: true, user }` or `{ success: false, err }`. */
  datatype Reply = Success(user: User) | Failure(err: StoreError)

  /** A reply together with the store it leaves behind. */
  datatype Outcome = Outcome(reply: Reply, state: Snapshot)

  /** A settled promise turned into a reply. */
  function Settle(res: Result<User, StoreError>): Reply
  {
    match res
    case Ok(u) => Success(u)
    case Err(e) => Failure(e)
  }

  /** A string field that is set and non-empty, as `if (userData.email)` tests it. */
  predicate Present(e: Option<string>)
  {
    e.Some? && e.value != ""
  }

  /** Which way a login goes, given the stored records. */
  datatype Case = Known(login: Login) | ByEmail(owner: User) | Fresh

  /** The decision of the login action: an existing Login with the identifier
      (first match), else an existing User with the assertion's email (first
      match), else a new User. */
  function Decide(users: seq<User>, logins: seq<Login>, obj: Assertion): (c: Case)
    ensures c.Known? ==> IsFirst(logins, IdentifierIs(Text(IdentifierOf(obj))), c.login)
    ensures !c.Known? ==> forall l :: l in logins ==> !HasIdentifier(l, Text(IdentifierOf(obj)))
    ensures c.ByEmail? ==> Present(UserData(obj).email) && IsFirst(users, EmailIs(UserData(obj).email.value), c.owner)
    ensures c.Fresh? ==> !Present(UserData(obj).email) || forall u :: u in users ==> u.profile.email != UserData(obj).email
  {
    var ident := Text(IdentifierOf(obj));
    var found := LoginsWith(logins, ident);
    if |found| > 0 then
      FilterHead(logins, IdentifierIs(ident));
      Known(found[0])
    else
      var email := UserData(obj).email;
      if Present(email) && |UsersWithEmail(users, email.value)| > 0 then
        FilterHead(users, EmailIs(email.value));
        ByEmail(UsersWithEmail(users, email.value)[0])
      else
        Fresh
  }

  /** `linkUser`: the Login gets `user` as its owner and both are saved, the owner first. */
  function Link(s: Snapshot, login: Object, user: UserDoc, userFault: Option<string>, loginFault: Option<string>): (o: Outcome)
    ensures o.reply.Failure? ==> o.state.logins == s.logins
    ensures o.reply.Success? ==> o.state.nextId > 0 && o.state.logins == s.logins + [Login(o.state.nextId - 1, o.reply.user.id, login)]
    ensures o.reply.Success? && user.Saved? ==> o.reply.user == user.user
    ensures o.reply.Success? && user.Unsaved? ==> o.reply.user == User(s.nextId, user.profile) && o.state.users == s.users + [o.reply.user]
  {
    if userFault.Some? then Outcome(Failure(IoError(userFault.value)), s)
    else
      var owner := if user.Unsaved? then User(s.nextId, user.profile) else user.user;
      var s1 := if user.Unsaved? then Snapshot(s.users + [owner], s.logins, s.nextId + 1)
                else Snapshot(Replace(s.users, owner), s.logins, s.nextId);
      if loginFault.Some? then Outcome(Failure(IoError(loginFault.value)), s1)
      else Outcome(Success(owner), Snapshot(s1.users, s1.logins + [Login(s1.nextId, owner.id, login)], s1.nextId + 1))
  }

  /** The `user/login` action on a snapshot of the store. */
  function Resolve(s: Snapshot, obj: Assertion, f: Faults): Outcome
  {
    if f.findLogin.Some? then Outcome(Failure(IoError(f.findLogin.value)), s)
    else match Decide(s.users, s.logins, obj)
      case Known(l) => Outcome(Settle(Fetched(s.users, l.userId, f.getUser)), s)
      case ByEmail(u) =>
        if f.findUsers.Some? then Outcome(Failure(IoError(f.findUsers.value)), s)
        else Link(s, LoginData(obj), Saved(u), f.saveUser, f.saveLogin)
      case Fresh =>
        if Present(UserData(obj).email) && f.findUsers.Some? then Outcome(Failure(IoError(f.findUsers.value)), s)
        else Link(s, LoginData(obj), Unsaved(UserData(obj)), f.saveUser, f.saveLogin)
  }

  /** A login writes at most one Login: none when it fails, and otherwise only
      the one built from the assertion, owned by the User the reply returns. */
  lemma ResolveWritesAtMostOneLogin(s: Snapshot, obj: Assertion, f: Faults)
    ensures
      var o := Resolve(s, obj, f);
      && (o.reply.Failure? ==> o.state.logins == s.logins)
      && (|| o.state.logins == s.logins
          || (&& o.reply.Success?
              && |o.state.logins| == |s.logins| + 1
              && o.state.logins[..|s.logins|] == s.logins
              && o.state.logins[|s.logins|].data == LoginData(obj)
              && o.state.logins[|s.logins|].userId == o.reply.user.id))
  {
    if f.findLogin.None? {
      match Decide(s.users, s.logins, obj)
      case Known(_) =>
      case ByEmail(u) =>
        var o := Link(s, LoginData(obj), Saved(u), f.saveUser, f.saveLogin);
        assert o.reply.Success? ==> o.state.logins[..|s.logins|] == s.logins;
      case Fresh =>
        var o := Link(s, LoginData(obj), Unsaved(UserData(obj)), f.saveUser, f.saveLogin);
        assert o.reply.Success? ==> o.state.logins[..|s.logins|] == s.logins;
    }
  }

  /** Some stored User has the id. */
  ghost predicate HasUser(users: seq<User>, id: Id)
  {
    exists u :: u in users && u.id == id
  }

  /** Every Login has its owning User in the store. */
  ghost predicate Owned(s: Snapshot)
  {
    forall l :: l in s.logins ==> HasUser(s.users, l.userId)
  }

  /** No two Logins carry the same identifier. */
  ghost predicate UniqueIdentifiers(logins: seq<Login>)
  {
    forall i, j :: 0 <= i < j < |logins| && "identifier" in logins[i].data ==> !HasIdentifier(logins[j], logins[i].data["identifier"])
  }

  /** A filter nothing in the sequence satisfies is empty. */
  lemma {:induction false} FilterNone<T>(s: seq<T>, p: T -> bool)
    requires forall i :: 0 <= i < |s| ==> !p(s[i])
    ensures Filter(s, p) == []
  {
    if s != [] {
      FilterNone(s[1..], p);
    }
  }

  /** Once a Login built from the assertion is stored, the next login with the
      same assertion finds it, whatever the users. */
  lemma {:induction false} LinkedLoginIsKnown(users: seq<User>, logins: seq<Login>, obj: Assertion, l: Login)
    requires forall x :: x in logins ==> !HasIdentifier(x, Text(IdentifierOf(obj)))
    requires l.data == LoginData(obj)
    ensures Decide(users, logins + [l], obj) == Known(l)
  {
    var p := IdentifierIs(Text(IdentifierOf(obj)));
    FilterAppend(logins, l, p);
    FilterNone(logins, p);
  }

  /** Linking keeps primary keys unique and below the next id. */
  lemma LinkKeepsWellFormed(s: Snapshot, login: Object, user: UserDoc, userFault: Option<string>, loginFault: Option<string>)
    requires WellFormed(s)
    ensures WellFormed(Link(s, login, user, userFault, loginFault).state)
  {
    if userFault.None? && user.Saved? {
      var s1 := Snapshot(Replace(s.users, user.user), s.logins, s.nextId);
      assert forall i :: 0 <= i < |s1.users| ==> s1.users[i].id == s.users[i].id;
    }
  }

  /** A login keeps the store well formed. */
  lemma ResolveKeepsWellFormed(s: Snapshot, obj: Assertion, f: Faults)
    requires WellFormed(s)
    ensures WellFormed(Resolve(s, obj, f).state)
  {
    if f.findLogin.None? {
      match Decide(s.users, s.logins, obj)
      case Known(_) =>
      case ByEmail(u) => LinkKeepsWellFormed(s, LoginData(obj), Saved(u), f.saveUser, f.saveLogin);
      case Fresh => LinkKeepsWellFormed(s, LoginData(obj), Unsaved(UserData(obj)), f.saveUser, f.saveLogin);
    }
  }

  /** A Login with the identifier exists: the reply is the lookup of the owner of
      the first such Login, and nothing is written. */
  lemma ResolveKnown(s: Snapshot, obj: Assertion, f: Faults, l: Login)
    requires f.findLogin.None?
    requires IsFirst(s.logins, IdentifierIs(Text(IdentifierOf(obj))), l)
    ensures Resolve(s, obj, f) == Outcome(Settle(Fetched(s.users, l.userId, f.getUser)), s)
  {
    var c := Decide(s.users, s.logins, obj);
    var i :| 0 <= i < |s.logins| && s.logins[i] == l && IdentifierIs(Text(IdentifierOf(obj)))(l);
    assert c.Known?;
    IsFirstUnique(s.logins, IdentifierIs(Text(IdentifierOf(obj))), c.login, l);
  }

  /** No Login with the identifier, and `u` is the first User with the
      assertion's email: one new Login owned by `u`, and no new User. */
  lemma ResolveByEmail(s: Snapshot, obj: Assertion, u: User)
    requires WellFormed(s)
    requires forall l :: l in s.logins ==> !HasIdentifier(l, Text(IdentifierOf(obj)))
    requires Present(UserData(obj).email) && IsFirst(s.users, EmailIs(UserData(obj).email.value), u)
    ensures Resolve(s, obj, NoFaults)
         == Outcome(Success(u), Snapshot(s.users, s.logins + [Login(s.nextId, u.id, LoginData(obj))], s.nextId + 1))
  {
    var c := Decide(s.users, s.logins, obj);
    var i :| 0 <= i < |s.users| && s.users[i] == u && EmailIs(UserData(obj).email.value)(u);
    if c.Known? {
      assert false;
    }
    if c.Fresh? {
      assert false;
    }
    IsFirstUnique(s.users, EmailIs(UserData(obj).email.value), c.owner, u);
    ReplaceStored(s.users, u);
  }

  /** No Login with the identifier, and no email or no User with it: one new
      User built from the assertion and one new Login owned by it. */
  lemma ResolveFresh(s: Snapshot, obj: Assertion)
    requires forall l :: l in s.logins ==> !HasIdentifier(l, Text(IdentifierOf(obj)))
    requires !Present(UserData(obj).email) || forall u :: u in s.users ==> u.profile.email != UserData(obj).email
    ensures
      var u := User(s.nextId, UserData(obj));
      Resolve(s, obj, NoFaults)
        == Outcome(Success(u), Snapshot(s.users + [u], s.logins + [Login(s.nextId + 1, u.id, LoginData(obj))], s.nextId + 2))
  {
    var c := Decide(s.users, s.logins, obj);
    if c.Known? {
      assert false;
    }
    if c.ByEmail? {
      assert false;
    }
  }

  /** A failed login writes nothing, except the new User when only the write of
      its Login failed; and it fails only on a store failure or on a Login
      whose User is missing. */
  lemma ResolveFailure(s: Snapshot, obj: Assertion, f: Faults)
    requires WellFormed(s)
    ensures
      var o := Resolve(s, obj, f);
      o.reply.Failure? ==>
        && (o.state == s || (f.saveLogin.Some? && o.state == Snapshot(s.users + [User(s.nextId, UserData(obj))], s.logins, s.nextId + 1)))
        && (f == NoFaults ==> o.reply.err.DocumentNotFound? && Decide(s.users, s.logins, obj).Known?)
  {
    if f.findLogin.None? {
      match Decide(s.users, s.logins, obj)
      case Known(_) =>
      case ByEmail(u) =>
        assert u in s.users;
        ReplaceStored(s.users, u);
      case Fresh =>
    }
  }

  /** With every Login owned, a login without store failures succeeds. */
  lemma OwnedLoginSucceeds(s: Snapshot, obj: Assertion)
    requires Owned(s)
    ensures Resolve(s, obj, NoFaults).reply.Success?
  {
    var c := Decide(s.users, s.logins, obj);
    if c.Known? {
      assert c.login in s.logins;
      assert HasUser(s.users, c.login.userId);
    }
  }

  /** Linking to a stored or a new User keeps every Login owned. */
  lemma LinkKeepsOwned(s: Snapshot, login: Object, user: UserDoc, userFault: Option<string>, loginFault: Option<string>)
    requires WellFormed(s) && Owned(s)
    requires user.Saved? ==> user.user in s.users
    ensures Owned(Link(s, login, user, userFault, loginFault).state)
  {
    var o := Link(s, login, user, userFault, loginFault);
    if user.Saved? {
      ReplaceStored(s.users, user.user);
    }
    forall l | l in o.state.logins
      ensures HasUser(o.state.users, l.userId)
    {
      if l in s.logins {
        assert HasUser(s.users, l.userId);
        var v :| v in s.users && v.id == l.userId;
        assert v in o.state.users;
      } else {
        assert o.reply.Success? && o.reply.user in o.state.users;
      }
    }
  }

  /** A login keeps every Login owned. */
  lemma ResolveKeepsOwned(s: Snapshot, obj: Assertion, f: Faults)
    requires WellFormed(s) && Owned(s)
    ensures Owned(Resolve(s, obj, f).state)
  {
    if f.findLogin.None? {
      match Decide(s.users, s.logins, obj)
      case Known(_) =>
      case ByEmail(u) =>
        assert u in s.users;
        LinkKeepsOwned(s, LoginData(obj), Saved(u), f.saveUser, f.saveLogin);
      case Fresh =>
        LinkKeepsOwned(s, LoginData(obj), Unsaved(UserData(obj)), f.saveUser, f.saveLogin);
    }
  }

  /** Linking a Login with a new identifier keeps identifiers unique. */
  lemma LinkKeepsUnique(s: Snapshot, obj: Assertion, user: UserDoc, userFault: Option<string>, loginFault: Option<string>)
    requires UniqueIdentifiers(s.logins)
    requires forall l :: l in s.logins ==> !HasIdentifier(l, Text(IdentifierOf(obj)))
    ensures UniqueIdentifiers(Link(s, LoginData(obj), user, userFault, loginFault).state.logins)
  {
    var ls := Link(s, LoginData(obj), user, userFault, loginFault).state.logins;
    if ls != s.logins {
      forall i, j | 0 <= i < j < |ls| && "identifier" in ls[i].data
        ensures !HasIdentifier(ls[j], ls[i].data["identifier"])
      {
        if j == |s.logins| {
          assert ls[i] in s.logins;
        }
      }
    }
  }

  /** A login keeps identifiers unique among Logins. */
  lemma ResolveKeepsUnique(s: Snapshot, obj: Assertion, f: Faults)
    requires UniqueIdentifiers(s.logins)
    ensures UniqueIdentifiers(Resolve(s, obj, f).state.logins)
  {
    if f.findLogin.None? {
      match Decide(s.users, s.logins, obj)
      case Known(_) =>
      case ByEmail(u) => LinkKeepsUnique(s, obj, Saved(u), f.saveUser, f.saveLogin);
      case Fresh => LinkKeepsUnique(s, obj, Unsaved(UserData(obj)), f.saveUser, f.saveLogin);
    }
  }

  /** After a successful link of a Login from the assertion, the assertion
      resolves to the same reply and writes nothing. */
  lemma LinkThenKnown(s: Snapshot, obj: Assertion, user: UserDoc, userFault: Option<string>, loginFault: Option<string>)
    requires WellFormed(s)
    requires forall l :: l in s.logins ==> !HasIdentifier(l, Text(IdentifierOf(obj)))
    requires user.Saved? ==> user.user in s.users
    ensures
      var o := Link(s, LoginData(obj), user, userFault, loginFault);
      o.reply.Success? ==> Resolve(o.state, obj, NoFaults) == o
  {
    var o := Link(s, LoginData(obj), user, userFault, loginFault);
    if o.reply.Success? {
      LinkKeepsWellFormed(s, LoginData(obj), user, userFault, loginFault);
      if user.Saved? {
        ReplaceStored(s.users, user.user);
      }
      var l := o.state.logins[|s.logins|];
      assert o.state.logins == s.logins + [l];
      LinkedLoginIsKnown(o.state.users, s.logins, obj, l);
      FetchedStored(o.state.users, o.reply.user);
    }
  }

  /** Logging in again with the same assertion, after a success, returns the
      same User and writes nothing. */
  lemma ResolveIdempotent(s: Snapshot, obj: Assertion, f: Faults)
    requires WellFormed(s)
    ensures
      var o := Resolve(s, obj, f);
      o.reply.Success? ==> Resolve(o.state, obj, NoFaults) == o
  {
    if f.findLogin.None? {
      match Decide(s.users, s.logins, obj)
      case Known(_) =>
      case ByEmail(u) =>
        assert u in s.users;
        LinkThenKnown(s, obj, Saved(u), f.saveUser, f.saveLogin);
      case Fresh =>
        LinkThenKnown(s, obj, Unsaved(UserData(obj)), f.saveUser, f.saveLogin);
    }
  }

  /** A store failure at any step the login action reaches is its reply, as
      `{ success: false, err }`; only the write of the Login, after the owner
      was saved, leaves something behind: the new User. */
  lemma ResolveReportsStoreFailures(s: Snapshot, obj: Assertion, f: Faults)
    requires WellFormed(s)
    ensures f.findLogin.Some? ==> Resolve(s, obj, f) == Outcome(Failure(IoError(f.findLogin.value)), s)
    ensures f.findLogin.None? && Decide(s.users, s.logins, obj).Known? && f.getUser.Some?
      ==> Resolve(s, obj, f) == Outcome(Failure(IoError(f.getUser.value)), s)
    ensures f.findLogin.None? && !Decide(s.users, s.logins, obj).Known? && Present(UserData(obj).email) && f.findUsers.Some?
      ==> Resolve(s, obj, f) == Outcome(Failure(IoError(f.findUsers.value)), s)
    ensures f.findLogin.None? && !Decide(s.users, s.logins, obj).Known? && !(Present(UserData(obj).email) && f.findUsers.Some?)
            && f.saveUser.Some?
      ==> Resolve(s, obj, f) == Outcome(Failure(IoError(f.saveUser.value)), s)
    ensures f.findLogin.None? && !Decide(s.users, s.logins, obj).Known? && !(Present(UserData(obj).email) && f.findUsers.Some?)
            && f.saveUser.None? && f.saveLogin.Some?
      ==> var left := if Decide(s.users, s.logins, obj).ByEmail? then s
                      else Snapshot(s.users + [User(s.nextId, UserData(obj))], s.logins, s.nextId + 1);
          Resolve(s, obj, f) == Outcome(Failure(IoError(f.saveLogin.value)), left)
  {
    if f.findLogin.None? {
      match Decide(s.users, s.logins, obj)
      case Known(_) =>
      case ByEmail(u) =>
        assert u in s.users;
        ReplaceStored(s.users, u);
      case Fresh =>
    }
  }

  /** After a successful login the store holds a Login with the assertion's
      identifier, owned by the User the reply returns. */
  lemma LoginLinksIdentity(s: Snapshot, obj: Assertion, f: Faults)
    requires WellFormed(s)
    ensures
      var o := Resolve(s, obj, f);
      o.reply.Success? ==>
        exists l :: l in o.state.logins && HasIdentifier(l, Text(IdentifierOf(obj))) && l.userId == o.reply.user.id
  {
    var o := Resolve(s, obj, f);
    if o.reply.Success? {
      ResolveIdempotent(s, obj, f);
      match Decide(o.state.users, o.state.logins, obj)
      case Known(l) =>
        assert l in o.state.logins && HasIdentifier(l, Text(IdentifierOf(obj)));
      case ByEmail(_) =>
      case Fresh =>
    }
  }

  /** A lost Login write followed by a retry: the first login saves User 0 and
      then fails to save its Login; with no email to find User 0 by, the retry
      creates User 1 and links the Login to it, so the store keeps two Users
      built from one provider account. */
  lemma RetryAfterLostLogin()
    ensures
      var obj := Assertion(Some("Ada"), map["provider" := Text("github"), "id" := Text("42")]);
      var first := Resolve(Snapshot([], [], 0), obj, NoFaults.(saveLogin := Some("write failed")));
      var second := Resolve(first.state, obj, NoFaults);
      && first.reply == Failure(IoError("write failed"))
      && first.state.users == [User(0, UserData(obj))]
      && first.state.logins == []
      && second.reply == Success(User(1, UserData(obj)))
      && second.state.users == [User(0, UserData(obj)), User(1, UserData(obj))]
      && second.state.logins == [Login(2, 1, LoginData(obj))]
  {
    var obj := Assertion(Some("Ada"), map["provider" := Text("github"), "id" := Text("42")]);
    var s1 := Snapshot([User(0, UserData(obj))], [], 1);
    assert UserData(obj).email == None;
    ResolveFresh(s1, obj);
  }

  /** The owner a new Login gets when no Login has the identifier: the first User
      with the assertion's email, or else a new User built from the assertion. */
  method FindOwner(store: Store, obj: Assertion, fault: Option<string>) returns (r: Result<UserDoc, StoreError>)
    requires forall l :: l in store.logins ==> !HasIdentifier(l, Text(IdentifierOf(obj)))
    ensures Present(UserData(obj).email) && fault.Some? ==> r == Err(IoError(fault.value))
    ensures !(Present(UserData(obj).email) && fault.Some?) ==>
      r == Ok(match Decide(store.users, store.logins, obj) case ByEmail(u) => Saved(u) case _ => Unsaved(UserData(obj)))
  {
    var userData := UserData(obj);
    if Present(userData.email) {
      var sameEmail := store.GetAllUsers(userData.email.value, fault);
      if sameEmail.Err? {
        return Err(sameEmail.error);
      }
      if |sameEmail.value| > 0 {
        return Ok(Saved(sameEmail.value[0]));
      }
    }
    r := Ok(Unsaved(userData));
  }

  /** `linkUser`: make `user` the Login's owner and save both, the owner first. */
  method LinkUser(store: Store, login: Object, user: UserDoc, userFault: Option<string>, loginFault: Option<string>)
    returns (r: Reply)
    requires store.Valid()
    modifies store
    ensures store.Valid()
    ensures Outcome(r, store.State()) == Link(old(store.State()), login, user, userFault, loginFault)
  {
    var saved := store.SaveUser(user, userFault);
    if saved.Err? {
      return Failure(saved.error);
    }
    var owner := saved.value;
    var linked := store.SaveLogin(login, owner.id, loginFault);
    if linked.Err? {
      return Failure(linked.error);
    }
    r := Success(owner);
  }

  /** The `user/login` action. */
  method LoginAction(store: Store, obj: Assertion, f: Faults) returns (r: Reply)
    requires store.Valid()
    modifies store
    ensures store.Valid()
    ensures Outcome(r, store.State()) == Resolve(old(store.State()), obj, f)
  {
    var loginData := LoginData(obj);
    var logins := store.GetAllLogins(loginData["identifier"], f.findLogin);
    if logins.Err? {
      return Failure(logins.error);
    }
    if |logins.value| > 0 {
      var user := store.Get(logins.value[0].userId, f.getUser);
      return Settle(user);
    }
    // No Login has the identifier.
    var owner := FindOwner(store, obj, f.findUsers);
    if owner.Err? {
      return Failure(owner.error);
    }
    r := LinkUser(store, loginData, owner.value, f.saveUser, f.saveLogin);
  }

  /** The `user/get` action: `{ success: true, user }` for a stored id; otherwise
      the store's rejection is passed on. */
  method GetAction(store: Store, id: Id, fault: Option<string>) returns (r: Result<User, StoreError>)
    ensures r == Fetched(store.users, id, fault)
  {
    r := store.Get(id, fault);
  }

  /** Logging in twice with the same assertion: the first call is the login
      action on the store as it was; after a first success the second call
      returns the same User and writes nothing. */
  method LoginTwice(store: Store, obj: Assertion, f: Faults) returns (first: Reply, second: Reply)
    requires store.Valid()
    modifies store
    ensures store.Valid()
    ensures first == Resolve(old(store.State()), obj, f).reply
    ensures first.Success? ==> second == first && store.State() == Resolve(old(store.State()), obj, f).state
  {
    ghost var before := store.State();
    first := LoginAction(store, obj, f);
    ResolveIdempotent(before, obj, f);
    second := LoginAction(store, obj, NoFaults);
  }

  /** Two providers, one email: a first login from an empty store creates the
      User and a Login `github-42`; a login from another provider with the same
      email links a second Login `twitter-99` to that same User. */
  lemma SameEmailTwoProviders()
    ensures
      var github := Assertion(Some("Ada"), map["provider" := Text("github"), "id" := Text("42"), "emails" := Entries([Entry(Some("ada@x.io"))])]);
      var twitter := Assertion(None, map["provider" := Text("twitter"), "id" := Text("99"), "emails" := Entries([Entry(Some("ada@x.io"))])]);
      var first := Resolve(Snapshot([], [], 0), github, NoFaults);
      var second := Resolve(first.state, twitter, NoFaults);
      && first.reply == Success(User(0, Profile(Some("Ada"), Some("ada@x.io"), None)))
      && first.state.logins == [Login(1, 0, LoginData(github))]
      && LoginData(github)["identifier"] == Text("github-42")
      && second.reply == first.reply
      && second.state.users == first.state.users
      && second.state.logins == first.state.logins + [Login(2, 0, LoginData(twitter))]
      && LoginData(twitter)["identifier"] == Text("twitter-99")
  {
    var github := Assertion(Some("Ada"), map["provider" := Text("github"), "id" := Text("42"), "emails" := Entries([Entry(Some("ada@x.io"))])]);
    var twitter := Assertion(None, map["provider" := Text("twitter"), "id" := Text("99"), "emails" := Entries([Entry(Some("ada@x.io"))])]);
    var s0 := Snapshot([], [], 0);
    assert IdentifierOf(github) == "github-42";
    assert IdentifierOf(twitter) == "twitter-99";
    ResolveFresh(s0, github);
    var first := Resolve(s0, github, NoFaults);
    var ada := User(0, Profile(Some("Ada"), Some("ada@x.io"), None));
    assert first.state == Snapshot([ada], [Login(1, 0, LoginData(github))], 2);
    assert !HasIdentifier(Login(1, 0, LoginData(github)), Text(IdentifierOf(twitter)));
    assert IsFirst(first.state.users, EmailIs(UserData(twitter).email.value), ada) by {
      assert first.state.users[0] == ada;
    }
    ResolveByEmail(first.state, twitter, ada);
  }
}
