/**
 * The user store of services/authService.ts: a dictionary of profiles by
 * username and a session slot holding the logged-in name. The browser's
 * local storage, which holds both, becomes the two fields of `AuthStore`;
 * the functions below state what each operation answers and leaves behind.
 */
module Auth {
  import opened Types

  /** What a new account starts with: 1000 coins, no claimed missions, no buffs. */
  const DEFAULT_USER_STATE: UserState := UserState(1000, [], Buffs(false, false))

  const MSG_NO_SUCH_USER: string := "用户不存在"
  const MSG_WRONG_PASSWORD: string := "密码错误"
  const MSG_LOGGED_IN: string := "登录成功"
  const MSG_NAME_TAKEN: string := "用户名已存在"
  const MSG_REGISTERED: string := "注册成功！欢迎加入"

  /** The `{ success, msg, user? }` answer of login and register. */
  datatype AuthResult = AuthResult(success: bool, msg: string, user: Option<UserProfile>)

  /** The profile `register` creates at clock reading `now`. */
  function NewUser(username: string, password: string, now: int): (p: UserProfile)
    ensures p.username == username && p.password == password && p.createdAt == now
    ensures p.state.coins == 1000 && p.state.claimedMissionIds == []
    ensures !p.state.activeBuffs.guaranteedRare && !p.state.activeBuffs.pityBooster
    ensures p.history == [] && p.pityCounter == 0 && p.bio == None && p.avatarSeed == None
  {
    UserProfile(username, password, now, DEFAULT_USER_STATE, [], 0, None, None)
  }

  /**
   * The names every JavaScript object answers to through Object.prototype.
   * The profile dictionary is a plain object, so `db[name]` is truthy for
   * each of these even when no account of that name was ever stored.
   */
  const INHERITED: set<string> := {
    "constructor", "__defineGetter__", "__defineSetter__", "hasOwnProperty",
    "__lookupGetter__", "__lookupSetter__", "isPrototypeOf", "propertyIsEnumerable",
    "toString", "valueOf", "__proto__", "toLocaleString"}

  /** Whether `db[username]` is truthy: a stored account or an inherited member. */
  predicate Occupied(db: map<string, UserProfile>, username: string)
  {
    username in db || username in INHERITED
  }

  /**
   * The answer of `login`: it succeeds exactly for a stored name with the
   * matching password. An inherited name has no `password` field, so it is
   * refused as a wrong password rather than as an unknown user.
   */
  function LoginAnswer(db: map<string, UserProfile>, username: string, password: string): (res: AuthResult)
    ensures res.success <==> username in db && db[username].password == password
    ensures !Occupied(db, username) ==> res == AuthResult(false, MSG_NO_SUCH_USER, None)
    ensures username !in db && username in INHERITED ==> res == AuthResult(false, MSG_WRONG_PASSWORD, None)
    ensures username in db && db[username].password != password ==> res == AuthResult(false, MSG_WRONG_PASSWORD, None)
    ensures res.success ==> res == AuthResult(true, MSG_LOGGED_IN, Some(db[username]))
  {
    if !Occupied(db, username) then AuthResult(false, MSG_NO_SUCH_USER, None)
    else if username !in db || db[username].password != password then AuthResult(false, MSG_WRONG_PASSWORD, None)
    else AuthResult(true, MSG_LOGGED_IN, Some(db[username]))
  }

  /** The answer of `register`: it fails exactly when the name is stored or inherited. */
  function RegisterAnswer(db: map<string, UserProfile>, username: string, password: string, now: int): (res: AuthResult)
    ensures res.success <==> username !in db && username !in INHERITED
    ensures Occupied(db, username) ==> res == AuthResult(false, MSG_NAME_TAKEN, None)
    ensures res.success ==> res == AuthResult(true, MSG_REGISTERED, Some(NewUser(username, password, now)))
  {
    if Occupied(db, username) then AuthResult(false, MSG_NAME_TAKEN, None)
    else AuthResult(true, MSG_REGISTERED, Some(NewUser(username, password, now)))
  }

  /**
   * The answer of `getCurrentUser`: nothing without a session, with an empty
   * session name (falsy) or with a name the store does not hold; the stored
   * profile otherwise.
   */
  function CurrentUser(db: map<string, UserProfile>, session: Option<string>): (u: Option<UserProfile>)
    ensures u.Some? <==> session.Some? && session.value != "" && session.value in db
    ensures u.Some? ==> u.value == db[session.value]
  {
    match session
    case None => None
    case Some(name) => if name == "" || name !in db then None else Some(db[name])
  }

  /** A `Partial<UserProfile>`: the fields present in a save request. */
  datatype ProfilePatch = ProfilePatch(
    username: Option<string>, password: Option<string>, createdAt: Option<int>,
    state: Option<UserState>, history: Option<seq<HistoryItem>>, pityCounter: Option<int>,
    bio: Option<string>, avatarSeed: Option<string>)

  /** `{ ...p, ...data }`: a field present in the patch overrides, every other field is kept. */
  function Merge(p: UserProfile, data: ProfilePatch): (q: UserProfile)
    ensures q.username == if data.username.Some? then data.username.value else p.username
    ensures q.password == if data.password.Some? then data.password.value else p.password
    ensures q.createdAt == if data.createdAt.Some? then data.createdAt.value else p.createdAt
    ensures q.state == if data.state.Some? then data.state.value else p.state
    ensures q.history == if data.history.Some? then data.history.value else p.history
    ensures q.pityCounter == if data.pityCounter.Some? then data.pityCounter.value else p.pityCounter
    ensures q.bio == if data.bio.Some? then data.bio else p.bio
    ensures q.avatarSeed == if data.avatarSeed.Some? then data.avatarSeed else p.avatarSeed
  {
    UserProfile(
      Override(p.username, data.username), Override(p.password, data.password),
      Override(p.createdAt, data.createdAt), Override(p.state, data.state),
      Override(p.history, data.history), Override(p.pityCounter, data.pityCounter),
      if data.bio.Some? then data.bio else p.bio,
      if data.avatarSeed.Some? then data.avatarSeed else p.avatarSeed)
  }

  /** One spread field: the patch's value if present, the old one otherwise. */
  function Override<T>(current: T, patch: Option<T>): T
  {
    match patch
    case None => current
    case Some(v) => v
  }

  /** The store after `saveUserData`: only a known user's entry changes, to the merged profile. */
  function Saved(db: map<string, UserProfile>, username: string, data: ProfilePatch): (db': map<string, UserProfile>)
    ensures db'.Keys == db.Keys
    ensures username !in db ==> db' == db
    ensures username in db ==> db'[username] == Merge(db[username], data)
    ensures forall n :: n in db && n != username ==> db'[n] == db[n]
  {
    if username in db then db[username := Merge(db[username], data)] else db
  }

  /** A freshly registered user can log in with the password they chose and gets their new profile. */
  lemma RegisterThenLogin(db: map<string, UserProfile>, username: string, password: string, now: int)
    requires RegisterAnswer(db, username, password, now).success
    ensures LoginAnswer(db[username := NewUser(username, password, now)], username, password)
            == AuthResult(true, MSG_LOGGED_IN, RegisterAnswer(db, username, password, now).user)
  {
  }

  /**
   * Register refuses every inherited name, so a store that starts without
   * one never gains one, and neither login nor register puts one in the
   * session.
   */
  lemma InheritedNeverStored(db: map<string, UserProfile>, username: string, password: string, now: int)
    requires db.Keys !! INHERITED
    ensures RegisterAnswer(db, username, password, now).success ==>
              username !in INHERITED && db[username := NewUser(username, password, now)].Keys !! INHERITED
    ensures LoginAnswer(db, username, password).success ==> username !in INHERITED
  {
  }

  /** A save request without fields changes nothing. */
  lemma SaveEmptyPatch(db: map<string, UserProfile>, username: string)
    ensures Saved(db, username, ProfilePatch(None, None, None, None, None, None, None, None)) == db
  {
    if username in db {
      var p := db[username];
      assert Merge(p, ProfilePatch(None, None, None, None, None, None, None, None)) == p;
    }
  }

  /**
   * An account registered under the empty name is stored and its name put in
   * the session, yet it is never the current user, because an empty session
   * name counts as no session.
   */
  lemma EmptyNameNeverCurrent(db: map<string, UserProfile>, password: string, now: int)
    requires "" !in db
    ensures RegisterAnswer(db, "", password, now).success
    ensures CurrentUser(db["" := NewUser("", password, now)], Some("")) == None
  {
  }

  /** The browser storage behind the service: the profile dictionary and the session name. */
  class AuthStore {
    var db: map<string, UserProfile>
    var session: Option<string>

    constructor (db: map<string, UserProfile>, session: Option<string>)
      ensures this.db == db && this.session == session
    {
      this.db := db;
      this.session := session;
    }

    /** `login`: on success the session becomes the name; the store itself never changes. */
    method Login(username: string, password: string) returns (res: AuthResult)
      modifies this`session
      ensures res == LoginAnswer(db, username, password)
      ensures session == if res.success then Some(username) else old(session)
    {
      if username !in db {
        if username in INHERITED {
          return AuthResult(false, MSG_WRONG_PASSWORD, None);
        }
        return AuthResult(false, MSG_NO_SUCH_USER, None);
      }
      var user := db[username];
      if user.password != password {
        return AuthResult(false, MSG_WRONG_PASSWORD, None);
      }
      session := Some(username);
      return AuthResult(true, MSG_LOGGED_IN, Some(user));
    }

    /**
     * `register`: a taken or inherited name changes nothing; otherwise the new profile is
     * stored under the name and the session becomes that name.
     */
    method Register(username: string, password: string, now: int) returns (res: AuthResult)
      modifies this
      ensures res == RegisterAnswer(old(db), username, password, now)
      ensures !res.success ==> db == old(db) && session == old(session)
      ensures res.success ==> db == old(db)[username := NewUser(username, password, now)] && session == Some(username)
    {
      if username in db || username in INHERITED {
        return AuthResult(false, MSG_NAME_TAKEN, None);
      }
      var newUser := NewUser(username, password, now);
      db := db[username := newUser];
      session := Some(username);
      return AuthResult(true, MSG_REGISTERED, Some(newUser));
    }

    /** `logout`: the session is cleared and the store kept. */
    method Logout()
      modifies this`session
      ensures session == None
    {
      session := None;
    }

    /** `getCurrentUser` */
    method GetCurrentUser() returns (u: Option<UserProfile>)
      ensures u == CurrentUser(db, session)
    {
      match session {
        case None => return None;
        case Some(name) =>
          if name == "" {
            return None;
          }
          if name in db {
            return Some(db[name]);
          }
          return None;
      }
    }

    /** `saveUserData`: an unknown name changes nothing; a known one gets the merged profile. */
    method SaveUserData(username: string, data: ProfilePatch)
      modifies this`db
      ensures db == Saved(old(db), username, data)
    {
      if username in db {
        db := db[username := Merge(db[username], data)];
      }
    }
  }
}
