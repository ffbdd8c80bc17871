/**
 * The session store: a private preferences file named "ApexCityPrefs" that
 * keeps the authentication token, the signed-in user's profile and two flags.
 * Absent keys read as their defaults: null for strings, false for
 * "isLoggedIn", true for "isFirstLaunch".
 */
module Session {
  import opened Wrappers

  const PrefsName := "ApexCityPrefs"
  const KeyToken := "token"
  const KeyUserId := "userId"
  const KeyUserName := "userName"
  const KeyUserEmail := "userEmail"
  const KeyUserRole := "userRole"
  const KeyIsFirstLaunch := "isFirstLaunch"
  const KeyIsLoggedIn := "isLoggedIn"

  /** A stored preference: a string or a boolean. */
  datatype Value = Str(s: string) | Flag(b: bool)

  /** Each key the app writes always holds the same kind of value: the five
      profile keys strings, the two flags booleans. */
  ghost predicate WellTyped(m: map<string, Value>) {
    && (forall k :: k in m && k in {KeyToken, KeyUserId, KeyUserName, KeyUserEmail, KeyUserRole} ==> m[k].Str?)
    && (forall k :: k in m && k in {KeyIsFirstLaunch, KeyIsLoggedIn} ==> m[k].Flag?)
  }

  /** The store after a successful sign-in with the given profile. */
  function AfterSignIn(m: map<string, Value>, token: string, id: string, name: string, email: string, role: string): map<string, Value>
  {
    m[KeyToken := Str(token)][KeyUserId := Str(id)][KeyUserName := Str(name)]
     [KeyUserEmail := Str(email)][KeyUserRole := Str(role)][KeyIsLoggedIn := Flag(true)]
  }

  class SessionManager {
    /** The preferences file's contents. */
    var prefs: map<string, Value>

    ghost predicate Valid()
      reads this
    {
      WellTyped(prefs)
    }

    /** Opens the preferences file with whatever it already holds. */
    constructor (stored: map<string, Value>)
      requires WellTyped(stored)
      ensures Valid() && prefs == stored
    {
      prefs := stored;
    }

    /** `prefs.getString(key, null)` for one of the string keys. */
    function StringAt(key: string): (r: Option<string>)
      reads this
      requires Valid()
      requires key in {KeyToken, KeyUserId, KeyUserName, KeyUserEmail, KeyUserRole}
      ensures r.None? <==> key !in prefs
      ensures r.Some? ==> prefs[key] == Str(r.value)
    {
      if key in prefs then Some(prefs[key].s) else None
    }

    function GetAuthToken(): (r: Option<string>)
      reads this
      requires Valid()
      ensures r.None? <==> KeyToken !in prefs
      ensures r.Some? ==> prefs[KeyToken] == Str(r.value)
    {
      StringAt(KeyToken)
    }

    function GetUserId(): (r: Option<string>)
      reads this
      requires Valid()
      ensures r.None? <==> KeyUserId !in prefs
      ensures r.Some? ==> prefs[KeyUserId] == Str(r.value)
    {
      StringAt(KeyUserId)
    }

    function GetUserName(): (r: Option<string>)
      reads this
      requires Valid()
      ensures r.None? <==> KeyUserName !in prefs
      ensures r.Some? ==> prefs[KeyUserName] == Str(r.value)
    {
      StringAt(KeyUserName)
    }

    function GetUserEmail(): (r: Option<string>)
      reads this
      requires Valid()
      ensures r.None? <==> KeyUserEmail !in prefs
      ensures r.Some? ==> prefs[KeyUserEmail] == Str(r.value)
    {
      StringAt(KeyUserEmail)
    }

    function GetUserRole(): (r: Option<string>)
      reads this
      requires Valid()
      ensures r.None? <==> KeyUserRole !in prefs
      ensures r.Some? ==> prefs[KeyUserRole] == Str(r.value)
    {
      StringAt(KeyUserRole)
    }

    /** `getBoolean("isLoggedIn", false)`. */
    function IsLoggedIn(): (r: bool)
      reads this
      requires Valid()
      ensures r <==> KeyIsLoggedIn in prefs && prefs[KeyIsLoggedIn] == Flag(true)
    {
      if KeyIsLoggedIn in prefs then prefs[KeyIsLoggedIn].b else false
    }

    /** `getBoolean("isFirstLaunch", true)`. */
    function IsFirstLaunch(): (r: bool)
      reads this
      requires Valid()
      ensures !r <==> KeyIsFirstLaunch in prefs && prefs[KeyIsFirstLaunch] == Flag(false)
    {
      if KeyIsFirstLaunch in prefs then prefs[KeyIsFirstLaunch].b else true
    }

    method SaveAuthToken(token: string)
      requires Valid()
      modifies this
      ensures Valid()
      ensures prefs == old(prefs)[KeyToken := Str(token)]
      ensures GetAuthToken() == Some(token)
      ensures forall k :: k != KeyToken ==> (k in prefs <==> k in old(prefs))
      ensures forall k :: k != KeyToken && k in prefs ==> prefs[k] == old(prefs)[k]
      ensures IsLoggedIn() == old(IsLoggedIn()) && IsFirstLaunch() == old(IsFirstLaunch())
    {
      prefs := prefs[KeyToken := Str(token)];
    }

    method SaveUserData(id: string, name: string, email: string, role: string)
      requires Valid()
      modifies this
      ensures Valid()
      ensures prefs == old(prefs)[KeyUserId := Str(id)][KeyUserName := Str(name)]
                                 [KeyUserEmail := Str(email)][KeyUserRole := Str(role)]
                                 [KeyIsLoggedIn := Flag(true)]
      ensures GetUserId() == Some(id) && GetUserName() == Some(name)
      ensures GetUserEmail() == Some(email) && GetUserRole() == Some(role)
      ensures IsLoggedIn()
      ensures GetAuthToken() == old(GetAuthToken()) && IsFirstLaunch() == old(IsFirstLaunch())
    {
      prefs := prefs[KeyUserId := Str(id)][KeyUserName := Str(name)]
                    [KeyUserEmail := Str(email)][KeyUserRole := Str(role)]
                    [KeyIsLoggedIn := Flag(true)];
    }

    method SetFirstLaunchCompleted()
      requires Valid()
      modifies this
      ensures Valid()
      ensures prefs == old(prefs)[KeyIsFirstLaunch := Flag(false)]
      ensures !IsFirstLaunch() && IsLoggedIn() == old(IsLoggedIn())
    {
      prefs := prefs[KeyIsFirstLaunch := Flag(false)];
    }

    /** Erases every key, so every getter is back at its default. */
    method ClearSession()
      requires Valid()
      modifies this
      ensures Valid() && prefs == map[]
      ensures GetAuthToken().None? && GetUserId().None? && GetUserName().None?
      ensures GetUserEmail().None? && GetUserRole().None?
      ensures !IsLoggedIn() && IsFirstLaunch()
    {
      prefs := map[];
    }
  }

  /** A store nobody has written to yet: not logged in, first launch, no
      profile. */
  lemma FreshStoreDefaults(s: SessionManager)
    requires s.Valid() && s.prefs == map[]
    ensures !s.IsLoggedIn() && s.IsFirstLaunch() && s.GetAuthToken().None? && s.GetUserId().None?
  {
  }

  /** Saving a token alone never signs the user in: from a store that is not
      signed in, the store with only the token added is still not signed in. */
  lemma TokenAloneDoesNotSignIn(m: map<string, Value>, token: string)
    requires KeyIsLoggedIn !in m || m[KeyIsLoggedIn] != Flag(true)
    ensures var m' := m[KeyToken := Str(token)];
            KeyIsLoggedIn !in m' || m'[KeyIsLoggedIn] != Flag(true)
  {
  }
}
