/**
 * The browser session (`AuthProvider`): the token and the user in memory,
 * and their copies in `localStorage`, modelled as a map from key to string.
 * `JSON.stringify` of the user is passed in as text; `JSON.parse` of the
 * stored text is passed in as its outcome.
 */
module Auth {
  import opened Wrappers
  import opened Http
  import opened Text

  const TokenKey := "authToken"
  const UserKey := "authUser"

  /** The user the front end keeps. */
  datatype User = User(id: string, email: string, name: string, role: string)

  /** The profile `/auth/profile` answers; a missing field is the empty string. */
  datatype Profile = Profile(sub: string, mongoId: string, email: string, name: string, role: string)

  /** The outcome of `JSON.parse` on the stored user: a value (possibly `null`), or a syntax error. */
  datatype Parsed = ParsedUser(user: Option<User>) | Corrupt

  /** The user `login` builds: id from `sub`, else `_id`; name, else the e-mail. */
  function UserOf(p: Profile): (u: User)
    ensures p.sub != "" ==> u.id == p.sub
    ensures p.sub == "" ==> u.id == p.mongoId
    ensures p.name != "" ==> u.name == p.name
    ensures p.name == "" ==> u.name == p.email
    ensures u.email == p.email && u.role == p.role
  {
    User(if p.sub != "" then p.sub else p.mongoId, p.email,
         if p.name != "" then p.name else p.email, p.role)
  }

  /** `!!token && !!user`. */
  predicate Authenticated(token: Option<string>, user: Option<User>) {
    Truthy(token) && user.Some?
  }

  /** A stored entry is truthy: present and not empty. */
  predicate StoredTruthy(storage: map<string, string>, key: string) {
    key in storage && storage[key] != ""
  }

  class Session {
    var user: Option<User>
    var token: Option<string>
    var storage: map<string, string>

    constructor (storage: map<string, string>)
      ensures user == None && token == None && this.storage == storage
    {
      user := None;
      token := None;
      this.storage := storage;
    }

    /** `isAuthenticated`. */
    function IsAuthenticated(): (b: bool)
      reads this
      ensures b <==> token.Some? && token.value != "" && user.Some?
    {
      Authenticated(token, user)
    }

    /**
     * The mount effect: only when both stored entries are truthy, the token is
     * taken back and the parsed user is installed; when the stored user does
     * not parse, the token has already been taken back, no user is installed
     * and both entries are removed.
     */
    method Restore(parsed: Parsed)
      modifies this
      ensures !(StoredTruthy(old(storage), TokenKey) && StoredTruthy(old(storage), UserKey)) ==>
        user == old(user) && token == old(token) && storage == old(storage)
      ensures StoredTruthy(old(storage), TokenKey) && StoredTruthy(old(storage), UserKey) ==>
        token == Some(old(storage)[TokenKey])
      ensures StoredTruthy(old(storage), TokenKey) && StoredTruthy(old(storage), UserKey) && parsed.ParsedUser? ==>
        user == parsed.user && storage == old(storage)
      ensures StoredTruthy(old(storage), TokenKey) && StoredTruthy(old(storage), UserKey) && parsed.Corrupt? ==>
        user == old(user) && storage == old(storage) - {TokenKey, UserKey}
    {
      if StoredTruthy(storage, TokenKey) && StoredTruthy(storage, UserKey) {
        token := Some(storage[TokenKey]);
        match parsed {
          case ParsedUser(u) => user := u;
          case Corrupt =>
            storage := storage - {TokenKey};
            storage := storage - {UserKey};
        }
      }
    }

    /**
     * `login(newToken)`: the token is set and stored before the profile is
     * fetched; a profile answer installs and stores the user built from it
     * (`serialized` is its `JSON.stringify`); a failed fetch changes nothing more.
     */
    method Login(newToken: string, profile: Response<Profile>, serialized: string)
      modifies this
      ensures token == Some(newToken)
      ensures profile.Ok? ==> user == Some(UserOf(profile.data))
      ensures profile.Ok? ==> storage == old(storage)[TokenKey := newToken][UserKey := serialized]
      ensures profile.Failed? ==> user == old(user) && storage == old(storage)[TokenKey := newToken]
      ensures profile.Ok? ==> (IsAuthenticated() <==> newToken != "")
      ensures profile.Failed? ==> (IsAuthenticated() <==> newToken != "" && old(user).Some?)
    {
      token := Some(newToken);
      storage := storage[TokenKey := newToken];
      match profile {
        case Ok(p) =>
          user := Some(UserOf(p));
          storage := storage[UserKey := serialized];
        case Failed(_) =>
      }
    }

    /** `logout`: both in memory and in storage, the token and the user are gone. */
    method Logout()
      modifies this
      ensures token == None && user == None
      ensures storage == old(storage) - {TokenKey, UserKey}
      ensures !IsAuthenticated()
    {
      token := None;
      user := None;
      storage := storage - {TokenKey};
      storage := storage - {UserKey};
    }
  }
}
