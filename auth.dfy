/**
 * The session store of `services/AuthContext.tsx`: the signed-in `user` and
 * `userId`, the `isAuthReady` flag, and the two effects that load the
 * session from and save it to the device's key-value storage.
 */
module Auth {

  import opened Js

  datatype User = User(fullName: string)

  /**
   * `JSON.stringify` and `JSON.parse` of the stored user, taken as given
   * functions; `parse` answers None where the real parser throws.
   */
  datatype UserJson = UserJson(stringify: User -> string, parse: string -> Option<User>)

  const USER_KEY := "user"
  const USER_ID_KEY := "userId"
  const NO_PROVIDER := "useAuth must be used within an AuthProvider"

  /** `AsyncStorage` as a plain map from keys to stored strings. */
  class Storage {
    var entries: map<string, string>

    constructor (initial: map<string, string>)
      ensures entries == initial
    {
      entries := initial;
    }
  }

  function Lookup(entries: map<string, string>, key: string): Option<string>
  {
    if key in entries then Some(entries[key]) else None
  }

  /** The first write of `saveAuthData`: the user is stored when present and removed otherwise. */
  function SaveUser(entries: map<string, string>, user: Option<User>, json: UserJson): (r: map<string, string>)
    ensures user.Some? ==> Lookup(r, USER_KEY) == Some(json.stringify(user.value))
    ensures user.None? ==> Lookup(r, USER_KEY) == None
    ensures forall k :: k != USER_KEY ==> Lookup(r, k) == Lookup(entries, k)
  {
    if user.Some? then entries[USER_KEY := json.stringify(user.value)] else entries - {USER_KEY}
  }

  /** The second write: the id is stored only when truthy, so a 0 or NaN id is removed like a null one. */
  function SaveUserId(entries: map<string, string>, userId: Option<Num>): (r: map<string, string>)
    ensures Lookup(r, USER_ID_KEY).Some? <==> NumTruthy(userId)
    ensures NumTruthy(userId) ==> ParseInt(Lookup(r, USER_ID_KEY).value) == userId.value
    ensures forall k :: k != USER_ID_KEY ==> Lookup(r, k) == Lookup(entries, k)
  {
    if NumTruthy(userId) then
      ParseIntOfIntToString(userId.value.n);
      entries[USER_ID_KEY := IntToString(userId.value.n)]
    else entries - {USER_ID_KEY}
  }

  /**
   * The storage after `saveAuthData`. `failAt` is the index of the write
   * that throws, if one does: the catch only logs, so that write and the
   * ones after it are simply not done.
   */
  function SavedEntries(entries: map<string, string>, user: Option<User>, userId: Option<Num>,
                        json: UserJson, failAt: Option<nat>): (r: map<string, string>)
    ensures forall k :: k != USER_KEY && k != USER_ID_KEY ==> Lookup(r, k) == Lookup(entries, k)
  {
    if failAt == Some(0) then entries
    else
      var afterUser := SaveUser(entries, user, json);
      if failAt == Some(1) then afterUser else SaveUserId(afterUser, userId)
  }

  /** The in-memory session fields. */
  datatype SessionFields = SessionFields(user: Option<User>, userId: Option<Num>)

  /**
   * What `loadAuthData` leaves in memory. A failed read restores nothing; a
   * truthy stored user is parsed first, and a parse that throws stops the
   * load before the id is looked at; otherwise each field is set only when
   * its stored string is truthy.
   */
  function Loaded(entries: map<string, string>, readFails: bool, json: UserJson, current: SessionFields): (r: SessionFields)
    ensures readFails ==> r == current
    ensures !StrTruthy(Lookup(entries, USER_KEY)) ==> r.user == current.user
    ensures !StrTruthy(Lookup(entries, USER_ID_KEY)) ==> r.userId == current.userId
  {
    var storedUser := Lookup(entries, USER_KEY);
    var storedUserId := Lookup(entries, USER_ID_KEY);
    if readFails then current
    else if StrTruthy(storedUser) && json.parse(storedUser.value).None? then current
    else
      SessionFields(
        if StrTruthy(storedUser) then json.parse(storedUser.value) else current.user,
        if StrTruthy(storedUserId) then Some(ParseInt(storedUserId.value)) else current.userId)
  }

  predicate RoundTrips(json: UserJson, u: User)
  {
    json.parse(json.stringify(u)) == Some(u) && json.stringify(u) != ""
  }

  /**
   * A session saved without failure is restored by the next load, whatever
   * the memory held before — provided the JSON codec round-trips the user
   * and the id is truthy.
   */
  lemma SaveThenLoad(entries: map<string, string>, u: User, id: int, json: UserJson, before: SessionFields)
    requires RoundTrips(json, u) && id != 0
    ensures Loaded(SavedEntries(entries, Some(u), Some(Int(id)), json, None), false, json, before)
         == SessionFields(Some(u), Some(Int(id)))
  {
    var saved := SavedEntries(entries, Some(u), Some(Int(id)), json, None);
    assert Lookup(saved, USER_KEY) == Some(json.stringify(u));
    assert Lookup(saved, USER_ID_KEY) == Some(IntToString(id));
    ParseIntOfIntToString(id);
    assert IntToString(id) != "" by {
      assert ParseInt(IntToString(id)) != NaN;
    }
  }

  /** An id of 0 is not persisted: the stored id is removed and the next load keeps whatever id memory held. */
  lemma ZeroIdIsNotPersisted(entries: map<string, string>, user: Option<User>, json: UserJson, before: SessionFields)
    ensures USER_ID_KEY !in SavedEntries(entries, user, Some(Int(0)), json, None)
    ensures Loaded(SavedEntries(entries, user, Some(Int(0)), json, None), false, json, before).userId == before.userId
  {
  }

  /** After logout the save effect removes both keys and keeps every other entry. */
  lemma LoggedOutSaveClearsSession(entries: map<string, string>, json: UserJson)
    ensures SavedEntries(entries, None, None, json, None) == entries - {USER_KEY, USER_ID_KEY}
  {
  }

  /** A corrupt stored user throws before the id is restored: neither field changes, even with a valid stored id. */
  lemma CorruptUserRestoresNothing(entries: map<string, string>, json: UserJson, before: SessionFields)
    requires StrTruthy(Lookup(entries, USER_KEY)) && json.parse(entries[USER_KEY]).None?
    ensures Loaded(entries, false, json, before) == before
  {
  }

  /** The provider's state: `user`, `userId` and `isAuthReady`. */
  class AuthState {
    var user: Option<User>
    var userId: Option<Num>
    var isAuthReady: bool

    constructor ()
      ensures user == None && userId == None && !isAuthReady
    {
      user, userId, isAuthReady := None, None, false;
    }

    function Fields(): SessionFields
      reads this
    {
      SessionFields(user, userId)
    }

    /** `login(newUser, newUserId)`: sets both fields; readiness is untouched. */
    method Login(newUser: User, newUserId: Num)
      modifies this
      ensures user == Some(newUser) && userId == Some(newUserId)
      ensures isAuthReady == old(isAuthReady)
    {
      user := Some(newUser);
      userId := Some(newUserId);
    }

    /** `logout()`: clears both fields; readiness is untouched. */
    method Logout()
      modifies this
      ensures user == None && userId == None
      ensures isAuthReady == old(isAuthReady)
    {
      user := None;
      userId := None;
    }

    /**
     * The mount effect `loadAuthData`: both keys are read, the session is
     * restored as `Loaded` says, and `isAuthReady` becomes true on every path.
     * `readFails` says whether reading the storage throws.
     */
    method LoadAuthData(storage: Storage, readFails: bool, json: UserJson)
      modifies this
      ensures Fields() == Loaded(storage.entries, readFails, json, old(Fields()))
      ensures isAuthReady
    {
      if !readFails {
        var storedUser := Lookup(storage.entries, USER_KEY);
        var storedUserId := Lookup(storage.entries, USER_ID_KEY);
        if StrTruthy(storedUser) {
          var parsed := json.parse(storedUser.value);
          if parsed.None? {
            isAuthReady := true;
            return;
          }
          user := parsed;
        }
        if StrTruthy(storedUserId) {
          userId := Some(ParseInt(storedUserId.value));
        }
      }
      isAuthReady := true;
    }

    /**
     * The effect `saveAuthData` that runs after every change of `user` or
     * `userId`; only the storage changes, whichever write fails.
     */
    method SaveAuthData(storage: Storage, json: UserJson, failAt: Option<nat>)
      modifies storage
      ensures storage.entries == SavedEntries(old(storage.entries), user, userId, json, failAt)
    {
      if failAt == Some(0) {
        return;
      }
      if user.Some? {
        storage.entries := storage.entries[USER_KEY := json.stringify(user.value)];
      } else {
        storage.entries := storage.entries - {USER_KEY};
      }
      ghost var afterUser := storage.entries;
      assert afterUser == SaveUser(old(storage.entries), user, json);
      if failAt == Some(1) {
        return;
      }
      if NumTruthy(userId) {
        storage.entries := storage.entries[USER_ID_KEY := IntToString(userId.value.n)];
      } else {
        storage.entries := storage.entries - {USER_ID_KEY};
      }
      assert storage.entries == SaveUserId(afterUser, userId);
    }
  }

  /** `useAuth()`: the enclosing provider's state, or an error when there is none. */
  function UseAuth(context: Option<AuthState>): (r: Outcome<AuthState>)
    ensures context.Some? ==> r == Ok(context.value)
    ensures context.None? ==> r == Fail(NO_PROVIDER)
  {
    if context.Some? then Ok(context.value) else Fail(NO_PROVIDER)
  }
}
