/** The user collection: the record shape and the `findOne` lookup. */
module CredentialStore {
  import opened Wrappers

  /** The store-assigned identifier of a record. */
  type UserId = nat

  /** The role a record receives when none is given. */
  const DEFAULT_ROLE: string := "user"

  /** One document of the user collection. `passwordHash` is the stored
      password field, which the application fills with a digest. */
  datatype User = User(id: UserId, username: string, passwordHash: string, role: string)

  /** The schema marks both `username` and `password` as required; for a
      string path that rejects the empty string. */
  predicate Storable(u: User): (ok: bool)
    ensures ok <==> |u.username| > 0 && |u.passwordHash| > 0
  {
    u.username != "" && u.passwordHash != ""
  }

  /** The store gives every record its own identifier. */
  predicate DistinctIds(users: seq<User>)
  {
    forall i, j :: 0 <= i < j < |users| ==> users[i].id != users[j].id
  }

  /** An identifier above every identifier in the collection, from which the
      model hands out new ones. */
  function NextFreeId(users: seq<User>): (n: UserId)
    ensures forall i :: 0 <= i < |users| ==> users[i].id < n
    decreases |users|
  {
    if users == [] then 0
    else
      var rest := NextFreeId(users[1..]);
      if users[0].id < rest then rest else users[0].id + 1
  }

  /** `findOne({ username })`: some record whose username is exactly the one
      asked for, or nothing when there is none. The scan returns the first
      match, but the contract promises only a match, since which duplicate
      the store returns is not defined. */
  function FindOne(users: seq<User>, username: string): (r: Option<User>)
    ensures r.Some? ==> r.value in users && r.value.username == username
    ensures r.None? ==> forall u :: u in users ==> u.username != username
    decreases |users|
  {
    if users == [] then None
    else if users[0].username == username then Some(users[0])
    else FindOne(users[1..], username)
  }

  /** An edit made to a record's role outside the application (an
      administrator updating the database by hand). Every record keeps its
      identifier, name and digest; only the record with `id` changes role. */
  function SetRole(users: seq<User>, id: UserId, role: string): (r: seq<User>)
    ensures |r| == |users|
    ensures forall i :: 0 <= i < |users| ==>
      r[i].id == users[i].id && r[i].username == users[i].username &&
      r[i].passwordHash == users[i].passwordHash
    ensures forall i :: 0 <= i < |users| ==>
      r[i].role == (if users[i].id == id then role else users[i].role)
    decreases |users|
  {
    if users == [] then []
    else
      var head := if users[0].id == id then users[0].(role := role) else users[0];
      [head] + SetRole(users[1..], id, role)
  }

  /** A record just appended under a name nobody else holds is the one the
      lookup finds. */
  lemma FindOneAfterAppend(users: seq<User>, u: User)
    requires forall v :: v in users ==> v.username != u.username
    ensures FindOne(users + [u], u.username) == Some(u)
  {
  }

  /** Editing a role in the store does not change which record the lookup
      finds: the same record comes back, carrying its new role if it was
      the one edited. */
  lemma {:induction false} FindOneAfterSetRole(users: seq<User>, id: UserId, role: string, username: string)
    ensures FindOne(SetRole(users, id, role), username) ==
      match FindOne(users, username)
      case None => None
      case Some(u) => Some(if u.id == id then u.(role := role) else u)
    decreases |users|
  {
    if users != [] {
      var edited := SetRole(users, id, role);
      assert edited[1..] == SetRole(users[1..], id, role);
      FindOneAfterSetRole(users[1..], id, role, username);
    }
  }
}
