# Account resolver of seneca-user, in Dafny

This project models the account resolver of `seneca-user.js`. The `user/login` action takes a login assertion from a provider's login flow: a top-level `name`, plus the provider's `userdata` with `provider`, `id`, `emails`, `photos` and any other fields. From it the action derives the Login identifier `provider-id` and decides among three cases:

- A Login with that identifier exists. Its owner is returned.
- There is no such Login, but a User has the assertion's email. A new Login is linked to the first such User.
- Neither. A new User is created and a new Login is linked to it.

Linking sets the Login's owner and saves both records, the owner first. Any store failure becomes `{ success: false, err }`. The `user/get` action looks up a User by id.

Modules:

- `Wrappers` (`wrappers.dfy`): `Option` and `Result`.
- `Records` (`records.dfy`): the assertion, the `Profile` of a User, `User`, `Login`, unsaved and saved User documents, and store errors.
  - A provider profile is a flat object `map<string, Value>`. A `Value` is a string or a list of `{ value }` entries. An absent key stands for `undefined`.
- `Format` (`format.dfy`): `formatLoginData` and `formatUserData` as functions, the template-literal rendering of the identifier, and lemmas about the identifier.
- `RecordStore` (`store.dfy`): the thinky/RethinkDB store as a class `Store` with fields `users`, `logins` and `nextId`.
  - `getAll` on a secondary index is a filter over the stored records in store order. `get` is a lookup by primary key.
  - Saving inserts a new document under a fresh id, or replaces the record that has the document's id.
  - `Snapshot` is the store's contents as a value, and `WellFormed` is its invariant: ids are unique and below `nextId`.
- `Resolver` (`resolver.dfy`): the actions as methods on a `Store`.
  - `LinkUser` and `LoginAction` are each proved equal to a specification function over snapshots, `Link` and `Resolve`.
  - The lemmas about `Resolve` state what each case adds to the store, which invariants a login keeps, that a failure writes nothing beyond a partially committed User, and that logging in again returns the same User and writes nothing.

Each store call can fail. The failures are parameters (`Faults`, one optional message per call the login action may make), so every error path is modelled. The rejection with no value that the code uses for "not found" becomes an explicit empty lookup or a `Case`. A real store error is `IoError`; the store's own not-found rejection on `get` is `DocumentNotFound`.

Behaviour of the code that the model keeps:

- `user/get` on an unknown id. The code has no `catch`, so the action's promise is rejected with the store's not-found error (`seneca-user.js:100-104`). It does not reply with a failure object. `GetAction` returns `Err(DocumentNotFound(id))`.
- An existing Login whose User is missing. `User.get` rejects with a real error, and the action replies `{ success: false, err }`.
- What a new Login holds. It keeps every `userdata` field except `id`, plus `identifier` (`Object.assign`). It does not keep only provider and account fields.
- An empty email. `""` is falsy in `if (userData.email)`, so an empty email takes the "no email" path and creates a new User.
- Linking can commit partially. `saveAll` writes the owner first. If the Login write then fails, a newly created User stays in the store and the reply is a failure.
- A retry after such a failure can duplicate the User. If the assertion has no email, nothing finds the orphaned User again, so the retry creates a second User from the same provider account and links the Login to it (`RetryAfterLostLogin`). If it has an email, the email lookup adopts the orphan instead.

## Model

| member | source | states |
|---|---|---|
| `Format.Identifier` | seneca-user.js:41 | the key is the provider, then `-`, then the provider-local id, with exact positions |
| `Format.IdentifierInjective` | seneca-user.js:41 | for providers without `-`, equal identifiers iff equal provider and equal local id (both directions) |
| `Format.IdentifierAmbiguousWithDash` | seneca-user.js:41 | a `-` in the provider lets two accounts share an identifier (`a-b`,`c` vs `a`,`b-c`) |
| `Format.LoginData` | seneca-user.js:39-44 | keys are userdata's keys without `id` plus `identifier`; `identifier` is the derived key; every other field is copied unchanged |
| `Format.UserData` | seneca-user.js:46-55 | `name` comes from the top level; `email`/`avatar` are the first entry's `value` exactly when `emails`/`photos` is a non-empty list, otherwise absent |
| `Format.UserDataAgreesWithLoginData` | seneca-user.js:39-55 | the User's email and avatar are the first entries of the lists the Login record carries |
| `RecordStore.Filter` | seneca-user.js:67 | an index lookup returns only stored records that match, and every matching record |
| `RecordStore.FilterHead` | seneca-user.js:70 | `[0]` of a lookup is the first matching record in store order |
| `RecordStore.FilterAppend` | seneca-user.js:67 | a record added at the end shows up at the end of each lookup it matches |
| `RecordStore.IsFirstUnique` | seneca-user.js:82 | the first match is unique |
| `RecordStore.Fetched` | seneca-user.js:101-103 | `get` succeeds only with a stored user of that id; not-found only when no user has it; a store failure is passed on |
| `RecordStore.FetchedStored` | seneca-user.js:101-103 | with unique ids, `get` of a stored user's id returns exactly that user |
| `RecordStore.ReplaceStored` | seneca-user.js:35 | saving again a user read from the store leaves the users unchanged |
| `RecordStore.Store.GetAllLogins` | seneca-user.js:67 | the Logins whose `identifier` equals the key, or the store failure; nothing written |
| `RecordStore.Store.GetAllUsers` | seneca-user.js:79 | the Users whose `email` equals the key, or the store failure; nothing written |
| `RecordStore.Store.Get` | seneca-user.js:70 | the primary-key lookup `Fetched`; nothing written |
| `RecordStore.Store.SaveUser` | seneca-user.js:35 | on failure nothing changes; a new user is appended under a fresh id; a saved one replaces its record |
| `RecordStore.Store.SaveLogin` | seneca-user.js:35 | on failure nothing changes; otherwise exactly one Login owned by the given user is appended under a fresh id |
| `Resolver.Decide` | seneca-user.js:67-93 | Known = the first Login with the identifier; otherwise no Login has it; ByEmail = email set and the first User with it; Fresh = no email or no User with it |
| `Resolver.FindOwner` | seneca-user.js:78-90 | with no Login for the identifier: the email lookup's failure, the first User with the email, or a new User from the assertion |
| `Resolver.Link` | seneca-user.js:33-37 | a failed write adds no Login; a success appends exactly one Login, owned by the returned User; a saved owner is returned as given, a new one is appended under the next id |
| `Resolver.LinkUser` | seneca-user.js:33-37 | reply and new store are exactly `Link`: owner saved first, then the Login with `userId` = owner's id; a failure at either write stops there |
| `Resolver.LoginAction` | seneca-user.js:62-98 | reply and new store are exactly `Resolve` of the old store; the store stays well formed |
| `Resolver.LinkedLoginIsKnown` | seneca-user.js:67-70 | once a Login from the assertion is stored, the next decision finds that Login |
| `Resolver.LinkKeepsWellFormed` | seneca-user.js:33-37 | linking keeps ids unique and below the next id |
| `Resolver.ResolveKeepsWellFormed` | seneca-user.js:62-98 | a login keeps ids unique and below the next id |
| `Resolver.ResolveKnown` | seneca-user.js:67-70 | a Login with the identifier exists: the reply is the lookup of the first such Login's owner, and the store is unchanged (no profile refresh) |
| `Resolver.ResolveByEmail` | seneca-user.js:75-83 | no such Login and `u` is the first User with the email: success with `u`, users unchanged, exactly one new Login with `userId == u.id` |
| `Resolver.ResolveFresh` | seneca-user.js:86-93 | no such Login and no email or no User with it: success with one new User from `formatUserData` and exactly one new Login owned by it |
| `Resolver.ResolveFailure` | seneca-user.js:96-97 | a failure writes nothing except a new User whose Login write failed; without store failures, the only failure is not-found for a Login whose User is missing |
| `Resolver.ResolveReportsStoreFailures` | seneca-user.js:62-98 | a store failure at each reachable step (Login lookup, owner lookup, email lookup, User save, Login save) is the reply `Failure(IoError(msg))`, with the exact store left behind |
| `Resolver.ResolveWritesAtMostOneLogin` | seneca-user.js:62-98 | a failed login adds no Login; otherwise at most one Login is appended, built from the assertion and owned by the returned User |
| `Resolver.LoginLinksIdentity` | seneca-user.js:62-98 | after a successful login the store holds a Login with the assertion's identifier owned by the returned User |
| `Resolver.RetryAfterLostLogin` | seneca-user.js:33-37 | without an email, a failed Login write followed by a retry leaves two Users built from one provider account |
| `Resolver.OwnedLoginSucceeds` | seneca-user.js:70 | when every Login's owner is stored, a login without store failures succeeds |
| `Resolver.LinkKeepsOwned` | seneca-user.js:33-37 | linking to a stored or new User keeps every Login owned |
| `Resolver.ResolveKeepsOwned` | seneca-user.js:62-98 | a login keeps every Login owned by a stored User |
| `Resolver.LinkKeepsUnique` | seneca-user.js:33-37 | linking a Login with a new identifier keeps identifiers unique |
| `Resolver.ResolveKeepsUnique` | seneca-user.js:67-75 | run sequentially, logins never create two Logins with the same identifier |
| `Resolver.LinkThenKnown` | seneca-user.js:33-37 | after a successful link, logging in with the assertion again gives the same reply and writes nothing |
| `Resolver.ResolveIdempotent` | seneca-user.js:62-98 | after a successful login, the same assertion again returns the same User and writes nothing |
| `Resolver.GetAction` | seneca-user.js:100-104 | the stored user with that id, or the store's rejection; the store is not modified |
| `Resolver.LoginTwice` | seneca-user.js:62-98 | two logins in a row: the first is `Resolve` of the initial store; after a first success the second returns the same User and the store stays as the first login left it; the store stays well formed |
| `Resolver.SameEmailTwoProviders` | seneca-user.js:62-98 | empty store, `github`/`42` with email: User Ada and Login `github-42`; then `twitter`/`99` with that email: a second Login `twitter-99` under the same User |

## Left out

- The thinky model schemas, index creation and `hasMany`/`belongsTo` declarations (`seneca-user.js:5-31`). The store is an in-memory class, and the relation is the `Login.userId` foreign key.
- Seneca action registration and the koa exports (`seneca-user.js:57-58`, `106-110`). These are service-bus and HTTP glue, and `seneca-user-koa` is not part of this model.
- Promise chaining and `_.curry`. Each action is a sequential method, and the store's rejections are explicit results.
- Concurrent logins. The code has no lock, so two simultaneous logins for a new identity can both create records. The model runs one action at a time, and `ResolveKeepsUnique` holds only for sequential runs.
- Generated UUIDs. Ids are natural numbers from a counter in the store, which only keeps the property that a new id is fresh.
- Result order of RethinkDB `getAll`. The server does not specify it; the model returns matches in insertion order, so "first match" means first stored.
- Type checks by the thinky schema. Fields declared `type.string()` are not checked against the values saved into them.
- A missing `userdata`. Reading `obj.userdata.provider` would throw before the promise chain starts; the model's assertion always carries `userdata`.
- `userdata` values other than strings and lists of `{ value }` entries, such as numbers and nested objects. Their template-literal rendering is not modelled.
- A `userId` key inside `userdata`. It is copied into the Login's fields, but the owner is the `Login.userId` field that linking sets.
- Saving a "saved" User whose id is not in the store. `Replace` then writes nothing, and the real store's behaviour in that case is not modelled. The login action only saves Users it has just read.
- `test/index.test.js`. It tests the koa layer through stubs, not the resolver.
