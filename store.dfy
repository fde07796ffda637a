/** An in-memory stand-in for the User and Login tables: secondary-index
    lookups (`getAll` on `identifier` and `email`) are filters over the stored
    records in store order, `get` is a lookup by primary key, and saving a
    document inserts it with a fresh id or replaces the record with its id. */
module RecordStore {
  import opened Wrappers
  import opened Records

  /** The elements of `s` that satisfy `p`, in order. */
  function Filter<T>(s: seq<T>, p: T -> bool): (r: seq<T>)
    ensures |r| <= |s|
    ensures forall i :: 0 <= i < |r| ==> r[i] in s && p(r[i])
    ensures forall i :: 0 <= i < |s| && p(s[i]) ==> s[i] in r
  {
    if s == [] then []
    else if p(s[0]) then [s[0]] + Filter(s[1..], p)
    else Filter(s[1..], p)
  }

  /** `x` is the first element of `s` that satisfies `p`. */
  ghost predicate IsFirst<T>(s: seq<T>, p: T -> bool, x: T)
  {
    exists i :: 0 <= i < |s| && s[i] == x && p(x) && forall j :: 0 <= j < i ==> !p(s[j])
  }

  /** The head of a filter is the first match. */
  lemma {:induction false} FilterHead<T>(s: seq<T>, p: T -> bool)
    requires |Filter(s, p)| > 0
    ensures IsFirst(s, p, Filter(s, p)[0])
  {
    if p(s[0]) {
      assert s[0] == Filter(s, p)[0];
    } else {
      var t := s[1..];
      FilterHead(t, p);
      var i :| 0 <= i < |t| && t[i] == Filter(t, p)[0] && p(t[i]) && forall j :: 0 <= j < i ==> !p(t[j]);
      assert s[i + 1] == t[i];
      forall j | 0 <= j < i + 1
        ensures !p(s[j])
      {
        if j > 0 {
          assert s[j] == t[j - 1];
        }
      }
    }
  }

  /** There is only one first match. */
  lemma IsFirstUnique<T>(s: seq<T>, p: T -> bool, x: T, y: T)
    requires IsFirst(s, p, x) && IsFirst(s, p, y)
    ensures x == y
  {
    var i :| 0 <= i < |s| && s[i] == x && p(x) && forall j :: 0 <= j < i ==> !p(s[j]);
    var k :| 0 <= k < |s| && s[k] == y && p(y) && forall j :: 0 <= j < k ==> !p(s[j]);
  }

  /** Adding a record at the end adds it at the end of every filter it satisfies. */
  lemma {:induction false} FilterAppend<T>(s: seq<T>, x: T, p: T -> bool)
    ensures Filter(s + [x], p) == Filter(s, p) + (if p(x) then [x] else [])
  {
    if s == [] {
      assert s + [x] == [x];
      assert [x][1..] == [];
    } else {
      assert (s + [x])[0] == s[0];
      assert (s + [x])[1..] == s[1..] + [x];
      FilterAppend(s[1..], x, p);
    }
  }

  predicate HasIdentifier(l: Login, v: Value)
  {
    "identifier" in l.data && l.data["identifier"] == v
  }

  function IdentifierIs(v: Value): Login -> bool
  {
    (l: Login) => HasIdentifier(l, v)
  }

  function EmailIs(email: string): User -> bool
  {
    (u: User) => u.profile.email == Some(email)
  }

  function IdIs(id: Id): User -> bool
  {
    (u: User) => u.id == id
  }

  /** `Login.getAll(v, { index: 'identifier' })` */
  function LoginsWith(logins: seq<Login>, v: Value): seq<Login>
  {
    Filter(logins, IdentifierIs(v))
  }

  /** `User.getAll(email, { index: 'email' })` */
  function UsersWithEmail(users: seq<User>, email: string): seq<User>
  {
    Filter(users, EmailIs(email))
  }

  /** `User.get(id).run()`: the user with that primary key, a rejection when there is
      none, or the store's own failure. */
  function Fetched(users: seq<User>, id: Id, fault: Option<string>): (r: Result<User, StoreError>)
    ensures fault.Some? ==> r == Err(IoError(fault.value))
    ensures fault.None? && r.Ok? ==> r.value in users && r.value.id == id
    ensures fault.None? && r.Err? ==> r.error == DocumentNotFound(id) && forall u :: u in users ==> u.id != id
  {
    if fault.Some? then Err(IoError(fault.value))
    else
      var m := Filter(users, IdIs(id));
      if |m| > 0 then Ok(m[0]) else Err(DocumentNotFound(id))
  }

  /** No two users share an id. */
  ghost predicate DistinctUserIds(users: seq<User>)
  {
    forall i, j :: 0 <= i < j < |users| ==> users[i].id != users[j].id
  }

  /** Under distinct ids, `get` returns exactly the stored record with that id. */
  lemma FetchedStored(users: seq<User>, u: User)
    requires DistinctUserIds(users)
    requires u in users
    ensures Fetched(users, u.id, None) == Ok(u)
  {
    var m := Filter(users, IdIs(u.id));
    assert u in m;
    var v := m[0];
    assert v in users && v.id == u.id;
    var i :| 0 <= i < |users| && users[i] == u;
    var j :| 0 <= j < |users| && users[j] == v;
    assert i == j;
  }

  /** The stored users after saving `u` over the record with its id. */
  function Replace(users: seq<User>, u: User): seq<User>
  {
    seq(|users|, i requires 0 <= i < |users| => if users[i].id == u.id then u else users[i])
  }

  /** Saving again a user read from the store changes nothing. */
  lemma ReplaceStored(users: seq<User>, u: User)
    requires DistinctUserIds(users)
    requires u in users
    ensures Replace(users, u) == users
  {
    var k :| 0 <= k < |users| && users[k] == u;
    forall i | 0 <= i < |users|
      ensures Replace(users, u)[i] == users[i]
    {
      if users[i].id == u.id {
        assert i == k;
      }
    }
  }

  /** The contents of the store at one moment. */
  datatype Snapshot = Snapshot(users: seq<User>, logins: seq<Login>, nextId: Id)

  /** Store invariant: primary keys are unique and below the next id to hand out. */
  ghost predicate WellFormed(s: Snapshot)
  {
    && DistinctUserIds(s.users)
    && (forall i :: 0 <= i < |s.users| ==> s.users[i].id < s.nextId)
    && (forall i, j :: 0 <= i < j < |s.logins| ==> s.logins[i].id != s.logins[j].id)
    && (forall i :: 0 <= i < |s.logins| ==> s.logins[i].id < s.nextId)
  }

  class Store {
    var users: seq<User>
    var logins: seq<Login>
    var nextId: Id

    ghost predicate Valid()
      reads this
    {
      WellFormed(State())
    }

    function State(): Snapshot
      reads this
    {
      Snapshot(users, logins, nextId)
    }

    constructor ()
      ensures Valid() && users == [] && logins == []
    {
      users, logins, nextId := [], [], 0;
    }

    method GetAllLogins(identifier: Value, fault: Option<string>) returns (r: Result<seq<Login>, StoreError>)
      ensures fault.Some? ==> r == Err(IoError(fault.value))
      ensures fault.None? ==> r == Ok(LoginsWith(logins, identifier))
    {
      if fault.Some? {
        r := Err(IoError(fault.value));
      } else {
        r := Ok(LoginsWith(logins, identifier));
      }
    }

    method GetAllUsers(email: string, fault: Option<string>) returns (r: Result<seq<User>, StoreError>)
      ensures fault.Some? ==> r == Err(IoError(fault.value))
      ensures fault.None? ==> r == Ok(UsersWithEmail(users, email))
    {
      if fault.Some? {
        r := Err(IoError(fault.value));
      } else {
        r := Ok(UsersWithEmail(users, email));
      }
    }

    method Get(id: Id, fault: Option<string>) returns (r: Result<User, StoreError>)
      ensures r == Fetched(users, id, fault)
    {
      r := Fetched(users, id, fault);
    }

    /** Saves a User document: a new one is inserted under a fresh id, one read
        from the store replaces the record with its id. */
    method SaveUser(doc: UserDoc, fault: Option<string>) returns (r: Result<User, StoreError>)
      requires Valid()
      modifies this
      ensures Valid()
      ensures fault.Some? ==> r == Err(IoError(fault.value)) && State() == old(State())
      ensures fault.None? && doc.Unsaved? ==>
        && r == Ok(User(old(nextId), doc.profile))
        && users == old(users) + [r.value] && logins == old(logins) && nextId == old(nextId) + 1
      ensures fault.None? && doc.Saved? ==>
        && r == Ok(doc.user)
        && users == Replace(old(users), doc.user) && logins == old(logins) && nextId == old(nextId)
    {
      if fault.Some? {
        return Err(IoError(fault.value));
      }
      match doc
      case Unsaved(profile) =>
        var u := User(nextId, profile);
        users, nextId := users + [u], nextId + 1;
        r := Ok(u);
      case Saved(u) =>
        users := Replace(users, u);
        r := Ok(u);
    }

    /** Inserts a new Login owned by `owner` under a fresh id. */
    method SaveLogin(data: Object, owner: Id, fault: Option<string>) returns (r: Result<Login, StoreError>)
      requires Valid()
      modifies this
      ensures Valid()
      ensures fault.Some? ==> r == Err(IoError(fault.value)) && State() == old(State())
      ensures fault.None? ==>
        && r == Ok(Login(old(nextId), owner, data))
        && logins == old(logins) + [r.value] && users == old(users) && nextId == old(nextId) + 1
    {
      if fault.Some? {
        return Err(IoError(fault.value));
      }
      var l := Login(nextId, owner, data);
      logins, nextId := logins + [l], nextId + 1;
      r := Ok(l);
    }
  }
}
