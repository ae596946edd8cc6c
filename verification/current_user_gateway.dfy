/**
  The persisted "current user" of the payment SDK. The identity lives under one key of the
  application's key-value preferences: the key is absent for an anonymous user and holds the
  user name for an authorized one. The preferences are modelled as a map from keys to string
  values, and the getter and setter as pure functions over it: reading is a function of the
  store alone, so it cannot change the store, and each write is one atomic map update.
*/
module CurrentUserGateway {

  /** The user identity the rest of the SDK sees. */
  datatype CurrentUser = Anonymous | Authorized(userName: string)

  /** The preferences file: key to stored string value. */
  type Store = map<string, string>

  /** The one key the gateway reads and writes. */
  const CurrentUserNameKey: string := "current_user_name"

  /** The `currentUser` getter. */
  function ReadCurrentUser(store: Store): (user: CurrentUser)
    ensures user == Anonymous <==> CurrentUserNameKey !in store
    ensures CurrentUserNameKey in store ==> user == Authorized(store[CurrentUserNameKey])
  {
    if CurrentUserNameKey in store then Authorized(store[CurrentUserNameKey]) else Anonymous
  }

  /**
    The `currentUser` setter: the store after the edit. Reading it back yields exactly the
    user written, and no key other than the user-name key gains, loses or changes a value.
  */
  function WriteCurrentUser(store: Store, user: CurrentUser): (store': Store)
    ensures ReadCurrentUser(store') == user
    ensures forall k :: k != CurrentUserNameKey ==> (k in store' <==> k in store)
    ensures forall k :: k != CurrentUserNameKey && k in store ==> store'[k] == store[k]
  {
    match user
    case Anonymous => store - {CurrentUserNameKey}
    case Authorized(name) => store[CurrentUserNameKey := name]
  }

  /** Writing back the user just read leaves the store exactly as it was. */
  lemma WriteWhatWasRead(store: Store)
    ensures WriteCurrentUser(store, ReadCurrentUser(store)) == store
  {
  }

  /** Of two successive writes only the last one is visible in the store. */
  lemma LastWriteWins(store: Store, first: CurrentUser, second: CurrentUser)
    ensures WriteCurrentUser(WriteCurrentUser(store, first), second) == WriteCurrentUser(store, second)
  {
  }

  /** Setting the same user twice is the same as setting it once. */
  lemma WriteIdempotent(store: Store, user: CurrentUser)
    ensures WriteCurrentUser(WriteCurrentUser(store, user), user) == WriteCurrentUser(store, user)
  {
  }
}
