/** The two normalisers of seneca-user.js: the fields a new Login is built
    from, and the fields a new User is built from. */
module Format {
  import opened Wrappers
  import opened Records

  /** Reads `o[key]`; `None` stands for `undefined`. */
  function Field(o: Object, key: string): Option<Value>
  {
    if key in o then Some(o[key]) else None
  }

  /** `n` objects converted to a string the way an array of them is: `[object Object]`, comma-separated. */
  function ObjectList(n: nat): string
  {
    if n == 0 then "" else if n == 1 then "[object Object]" else ObjectList(n - 1) + ",[object Object]"
  }

  /** The text a template literal `${v}` produces for a field value. */
  function Interpolate(v: Option<Value>): string
  {
    match v
    case None => "undefined"
    case Some(Text(s)) => s
    case Some(Entries(list)) => ObjectList(|list|)
  }

  /** The composite key of a provider account: the provider, a dash, the provider-local id. */
  function Identifier(provider: string, localId: string): (r: string)
    ensures |r| == |provider| + 1 + |localId|
    ensures r[..|provider|] == provider && r[|provider|] == '-' && r[|provider| + 1..] == localId
  {
    provider + "-" + localId
  }

  /** The identifier derived from an assertion's `userdata.provider` and `userdata.id`. */
  function IdentifierOf(obj: Assertion): string
  {
    Identifier(Interpolate(Field(obj.userdata, "provider")), Interpolate(Field(obj.userdata, "id")))
  }

  /** formatLoginData: every field of `userdata` except `id`, plus the derived `identifier`. */
  function LoginData(obj: Assertion): (r: Object)
    ensures r.Keys == obj.userdata.Keys - {"id"} + {"identifier"}
    ensures r["identifier"] == Text(IdentifierOf(obj))
    ensures forall k :: k in obj.userdata && k != "id" && k != "identifier" ==> r[k] == obj.userdata[k]
  {
    (obj.userdata - {"id"})["identifier" := Text(IdentifierOf(obj))]
  }

  /** `o[key]` is a list with at least one entry. */
  predicate HasEntries(o: Object, key: string)
  {
    key in o && o[key].Entries? && |o[key].list| > 0
  }

  /** `o[key][0].value` when `o[key]` is a non-empty list, otherwise `undefined`. */
  function FirstValue(o: Object, key: string): Option<string>
  {
    if HasEntries(o, key) then o[key].list[0].value else None
  }

  /** formatUserData: `name` from the top level, `email` and `avatar` from the first
      entry of `userdata.emails` and `userdata.photos` when those lists are non-empty. */
  function UserData(obj: Assertion): (r: Profile)
    ensures r.name == obj.name
    ensures HasEntries(obj.userdata, "emails") ==> r.email == obj.userdata["emails"].list[0].value
    ensures !HasEntries(obj.userdata, "emails") ==> r.email == None
    ensures HasEntries(obj.userdata, "photos") ==> r.avatar == obj.userdata["photos"].list[0].value
    ensures !HasEntries(obj.userdata, "photos") ==> r.avatar == None
  {
    Profile(obj.name, FirstValue(obj.userdata, "emails"), FirstValue(obj.userdata, "photos"))
  }

  /** The two normalisers read the same lists: the User's email and avatar are the
      first entries of the lists the Login record carries. */
  lemma UserDataAgreesWithLoginData(obj: Assertion)
    ensures UserData(obj).email == FirstValue(LoginData(obj), "emails")
    ensures UserData(obj).avatar == FirstValue(LoginData(obj), "photos")
  {
    var r := LoginData(obj);
    assert HasEntries(r, "emails") <==> HasEntries(obj.userdata, "emails");
    assert HasEntries(r, "photos") <==> HasEntries(obj.userdata, "photos");
  }

  /** For providers without a dash, the identifier determines provider and provider-local id. */
  lemma IdentifierInjective(p1: string, i1: string, p2: string, i2: string)
    requires '-' !in p1 && '-' !in p2
    ensures Identifier(p1, i1) == Identifier(p2, i2) <==> p1 == p2 && i1 == i2
  {
    var r1, r2 := Identifier(p1, i1), Identifier(p2, i2);
    if r1 == r2 {
      if |p1| < |p2| {
        assert false;
      } else if |p2| < |p1| {
        assert false;
      }
      assert p1 == r1[..|p1|] == r2[..|p2|] == p2;
      assert i1 == r1[|p1| + 1..] == r2[|p2| + 1..] == i2;
    }
  }

  /** A dash inside the provider name makes two accounts share an identifier. */
  lemma IdentifierAmbiguousWithDash()
    ensures Identifier("a-b", "c") == Identifier("a", "b-c")
  {
  }
}
