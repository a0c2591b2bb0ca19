/**
 * The two database records, their column defaults, and the dictionaries their
 * `to_dict` methods build. A dictionary value is an integer, a string or null.
 * Timestamps are carried as the ISO-8601 text `isoformat` gives them.
 */
module Models {
  import opened Wrappers

  /** The statuses a store record is documented to take. */
  datatype StoreStatus = Initialized | Provisioning | Ready | Failed | Deleted

  function StatusName(s: StoreStatus): string {
    match s
    case Initialized => "initialized"
    case Provisioning => "provisioning"
    case Ready => "ready"
    case Failed => "failed"
    case Deleted => "deleted"
  }

  /** Reads a status back from its column text; anything else is not a status. */
  function StatusFromName(n: string): (s: Option<StoreStatus>)
    ensures s.Some? ==> StatusName(s.value) == n
  {
    if n == "initialized" then Some(Initialized)
    else if n == "provisioning" then Some(Provisioning)
    else if n == "ready" then Some(Ready)
    else if n == "failed" then Some(Failed)
    else if n == "deleted" then Some(Deleted)
    else None
  }

  /** Every status is stored under its own name, and no two statuses share one. */
  lemma StatusNameRoundTrip(s: StoreStatus)
    ensures StatusFromName(StatusName(s)) == Some(s)
  {
  }

  datatype User = User(id: int, username: string, passwordHash: string, maxStores: int, maxStorageGi: int)

  const DefaultMaxStores: int := 3
  const DefaultMaxStorageGi: int := 10

  /** A user row as inserted: the quotas take their column defaults when not given. */
  function NewUser(id: int, username: string, passwordHash: string,
                   maxStores: Option<int>, maxStorageGi: Option<int>): (u: User)
    ensures u.id == id && u.username == username && u.passwordHash == passwordHash
    ensures u.maxStores == (if maxStores.Some? then maxStores.value else 3)
    ensures u.maxStorageGi == (if maxStorageGi.Some? then maxStorageGi.value else 10)
  {
    User(id, username, passwordHash, maxStores.GetOr(DefaultMaxStores), maxStorageGi.GetOr(DefaultMaxStorageGi))
  }

  datatype Store = Store(id: string, userId: int, name: Option<string>, storageSizeGi: int,
                         status: StoreStatus, createdAt: Option<string>)

  const DefaultStorageSizeGi: int := 2

  /** A store row as inserted: size 2 Gi unless given, status `initialized`, created at the insertion time. */
  function NewStore(id: string, userId: int, name: Option<string>, storageSizeGi: Option<int>, now: string): (s: Store)
    ensures s.id == id && s.userId == userId && s.name == name
    ensures s.storageSizeGi == (if storageSizeGi.Some? then storageSizeGi.value else 2)
    ensures s.status == Initialized && s.createdAt == Some(now)
  {
    Store(id, userId, name, storageSizeGi.GetOr(DefaultStorageSizeGi), Initialized, Some(now))
  }

  datatype Value = IntValue(i: int) | StrValue(s: string) | NullValue

  type Dict = map<string, Value>

  const UserDictKeys: set<string> := {"id", "username", "max_stores", "max_storage_gi"}

  /** The public view of a user: exactly four fields, and never the password hash. */
  function UserToDict(u: User): (d: Dict)
    ensures d.Keys == UserDictKeys
  {
    map["id" := IntValue(u.id), "username" := StrValue(u.username),
        "max_stores" := IntValue(u.maxStores), "max_storage_gi" := IntValue(u.maxStorageGi)]
  }

  /** Reads a user back from its public view; the hash comes from elsewhere. */
  function UserFromDict(d: Dict, passwordHash: string): Option<User> {
    if && "id" in d && d["id"].IntValue?
       && "username" in d && d["username"].StrValue?
       && "max_stores" in d && d["max_stores"].IntValue?
       && "max_storage_gi" in d && d["max_storage_gi"].IntValue?
    then Some(User(d["id"].i, d["username"].s, passwordHash, d["max_stores"].i, d["max_storage_gi"].i))
    else None
  }

  /** The public view keeps everything about a user except the password hash. */
  lemma UserDictRoundTrip(u: User)
    ensures UserFromDict(UserToDict(u), u.passwordHash) == Some(u)
  {
  }

  /** Users that differ only in their password hash have the same public view. */
  lemma UserDictHidesPassword(u: User, otherHash: string)
    ensures UserToDict(u.(passwordHash := otherHash)) == UserToDict(u)
  {
  }

  const StoreDictKeys: set<string> := {"id", "user_id", "name", "storage_size_gi", "status", "created_at"}

  function OptionalText(t: Option<string>): Value {
    if t.Some? then StrValue(t.value) else NullValue
  }

  /** The view of a store: every column, with the creation time as text when set and null otherwise. */
  function StoreToDict(s: Store): (d: Dict)
    ensures d.Keys == StoreDictKeys
    ensures d["created_at"] == (if s.createdAt.Some? then StrValue(s.createdAt.value) else NullValue)
  {
    map["id" := StrValue(s.id), "user_id" := IntValue(s.userId), "name" := OptionalText(s.name),
        "storage_size_gi" := IntValue(s.storageSizeGi), "status" := StrValue(StatusName(s.status)),
        "created_at" := OptionalText(s.createdAt)]
  }

  function TextFromValue(v: Value): Option<Option<string>> {
    match v
    case StrValue(t) => Some(Some(t))
    case NullValue => Some(None)
    case IntValue(_) => None
  }

  /** Reads a store back from its view; keys other than the six columns are ignored. */
  function StoreFromDict(d: Dict): Option<Store> {
    if && "id" in d && d["id"].StrValue?
       && "user_id" in d && d["user_id"].IntValue?
       && "name" in d && TextFromValue(d["name"]).Some?
       && "storage_size_gi" in d && d["storage_size_gi"].IntValue?
       && "status" in d && d["status"].StrValue? && StatusFromName(d["status"].s).Some?
       && "created_at" in d && TextFromValue(d["created_at"]).Some?
    then Some(Store(d["id"].s, d["user_id"].i, TextFromValue(d["name"]).value, d["storage_size_gi"].i,
                    StatusFromName(d["status"].s).value, TextFromValue(d["created_at"]).value))
    else None
  }

  /** The view of a store loses nothing, even with an extra key added beside the columns. */
  lemma StoreDictRoundTrip(s: Store, extra: string, v: Value)
    requires extra !in StoreDictKeys
    ensures StoreFromDict(StoreToDict(s)) == Some(s)
    ensures StoreFromDict(StoreToDict(s)[extra := v]) == Some(s)
  {
    StatusNameRoundTrip(s.status);
  }
}
