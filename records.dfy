/** The entities of the account resolver: the login assertion handed in by a
    provider login flow, and the User and Login records kept by the store. */
module Records {
  import opened Wrappers

  /** One element of a profile's `emails` or `photos` list: `{ value }`. */
  datatype Entry = Entry(value: Option<string>)

  /** A field of a provider profile: a string, or a list of entries. */
  datatype Value = Text(s: string) | Entries(list: seq<Entry>)

  /** A JavaScript object with flat fields; a key that is absent reads as `undefined`. */
  type Object = map<string, Value>

  /** The argument of the login action: a top-level `name` and the provider's `userdata`. */
  datatype Assertion = Assertion(name: Option<string>, userdata: Object)

  /** The fields of a User other than its id. */
  datatype Profile = Profile(name: Option<string>, email: Option<string>, avatar: Option<string>)

  /** Primary keys, generated by the store when a record is first saved. */
  type Id = nat

  datatype User = User(id: Id, profile: Profile)

  /** A stored Login: its own id, the id of its owning User, and the fields it was created from. */
  datatype Login = Login(id: Id, userId: Id, data: Object)

  /** A User document handed to a save: a new one without an id, or one read from the store. */
  datatype UserDoc = Unsaved(profile: Profile) | Saved(user: User)

  /** Rejections of the store: a primary-key lookup that found nothing, or any other failure. */
  datatype StoreError = DocumentNotFound(id: Id) | IoError(message: string)
}
