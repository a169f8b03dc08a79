/**
  The session state holder `useAuth` (src/hooks/useAuth.ts).

  The hook owns five cells (`user`, `profile`, `session`, `loading`,
  `error`) and touches the two browser storage areas when it signs out.
  The hosted auth service and the `profiles` table are not modelled: every
  call into them is an `Outcome` handed to the operation that awaited it.
  Each asynchronous handler is one atomic step; a handler that starts a
  profile fetch returns the id it fetches for, and the fetch's arrival is
  the separate step `ProfileFetchSettled`.

  The pure step functions on `AuthState` specify the methods of
  `AuthStore`; the lemmas at the end are stated about the step functions.
*/
module Auth {
  import opened Options

  datatype Role = UserRole | AdminRole

  /** An identity returned by the auth service; its email may be missing. */
  datatype User = User(id: string, email: Option<string>)

  /** A row of the `profiles` table, keyed by the identity's id. */
  datatype Profile = Profile(id: string, email: Option<string>, role: Role, createdAt: string)

  datatype Session = Session(accessToken: string, user: User)

  /** The derived view of a signed-in user that has a profile. */
  datatype AuthUser = AuthUser(user: User, profile: Profile, displayName: string, email: string)

  /** What a call into the auth service or the profile store came back with. */
  datatype Outcome<+T> = Succeeded(value: T) | Failed(message: string)

  datatype SignInData = SignInData(user: User, session: Session)
  datatype SignUpData = SignUpData(user: Option<User>, session: Option<Session>)

  /** A browser storage area (localStorage or sessionStorage). */
  type Storage = map<string, string>

  const ProfileLoadError := "Failed to load user profile"
  const AuthKeyPrefix := "supabase.auth."
  const AuthKeyMarker := "sb-"
  const DefaultDisplayName := "User"

  /** The hook's five cells together with the two storage areas. */
  datatype AuthState = AuthState(
    user: Option<User>,
    profile: Option<Profile>,
    session: Option<Session>,
    loading: bool,
    error: Option<string>,
    local: Storage,
    sessionStore: Storage)

  // ---------------------------------------------------------------------
  // Strings

  predicate StartsWith(s: string, prefix: string) {
    |prefix| <= |s| && s[..|prefix|] == prefix
  }

  /** Substring test, as JavaScript's `includes` performs it on the storage keys. */
  predicate Contains(s: string, part: string)
    decreases |s|
  {
    StartsWith(s, part) || (|s| > 0 && Contains(s[1..], part))
  }

  /** `Contains` holds exactly when `part` occurs at some position of `s`. */
  lemma {:induction false} ContainsIffOccurs(s: string, part: string)
    ensures Contains(s, part) <==> exists i :: 0 <= i <= |s| && StartsWith(s[i..], part)
    decreases |s|
  {
    assert s[0..] == s;
    if |s| > 0 {
      ContainsIffOccurs(s[1..], part);
      if Contains(s[1..], part) {
        var j :| 0 <= j <= |s[1..]| && StartsWith(s[1..][j..], part);
        assert s[1..][j..] == s[j + 1..];
      }
      if exists i :: 0 <= i <= |s| && StartsWith(s[i..], part) {
        var i :| 0 <= i <= |s| && StartsWith(s[i..], part);
        if i > 0 {
          assert s[1..][i - 1..] == s[i..];
        }
      }
    }
  }

  /** The first piece of splitting an email at '@': the text before the
      first '@', or the whole email when it has none. */
  function LocalPart(email: string): (r: string)
    ensures r <= email
    ensures '@' !in r
    ensures |r| < |email| ==> email[|r|] == '@'
  {
    if email == [] || email[0] == '@' then [] else [email[0]] + LocalPart(email[1..])
  }

  /** The three facts `LocalPart` promises determine its result. */
  lemma LocalPartIsUnique(email: string, t: string)
    requires t <= email && '@' !in t
    requires |t| < |email| ==> email[|t|] == '@'
    ensures t == LocalPart(email)
  {
  }

  /** The display name the hook derives: the email's local part, falling
      back to "User" when that is empty or the email is missing. */
  function DisplayName(email: Option<string>): (r: string)
    ensures r != ""
    ensures email.Some? && LocalPart(email.value) != "" ==> r == LocalPart(email.value)
    ensures (email.None? || LocalPart(email.value) == "") ==> r == DefaultDisplayName
  {
    match email
    case Some(e) => if LocalPart(e) != "" then LocalPart(e) else DefaultDisplayName
    case None => DefaultDisplayName
  }

  /** The `authUser` value the hook returns: present only with both cells. */
  function DeriveAuthUser(user: Option<User>, profile: Option<Profile>): (r: Option<AuthUser>)
    ensures r.Some? <==> user.Some? && profile.Some?
    ensures r.Some? ==> r.value.user == user.value && r.value.profile == profile.value
    ensures r.Some? ==> r.value.displayName == DisplayName(user.value.email) && r.value.displayName != ""
    ensures r.Some? ==> r.value.email == (if user.value.email.Some? then user.value.email.value else "")
  {
    if user.Some? && profile.Some? then
      var u := user.value;
      Some(AuthUser(u, profile.value, DisplayName(u.email), if u.email.Some? then u.email.value else ""))
    else
      None
  }

  function AuthUserOf(s: AuthState): Option<AuthUser> {
    DeriveAuthUser(s.user, s.profile)
  }

  // ---------------------------------------------------------------------
  // Storage purge

  /** Keys the sign-out purge removes. */
  predicate IsAuthKey(key: string)
    ensures IsAuthKey(key) <==>
              StartsWith(key, AuthKeyPrefix) ||
              exists i :: 0 <= i <= |key| && StartsWith(key[i..], AuthKeyMarker)
  {
    ContainsIffOccurs(key, AuthKeyMarker);
    StartsWith(key, AuthKeyPrefix) || Contains(key, AuthKeyMarker)
  }

  /** `after` holds exactly the entries of `before` whose key is not an auth key. */
  ghost predicate IsPurgeOf(after: Storage, before: Storage) {
    && (forall k :: k in after <==> k in before && !IsAuthKey(k))
    && (forall k :: k in after ==> after[k] == before[k])
  }

  function WithoutAuthKeys(store: Storage): (r: Storage)
    ensures IsPurgeOf(r, store)
  {
    map k | k in store && !IsAuthKey(k) :: store[k]
  }

  /** One storage area's purge: every key is visited and auth keys are removed. */
  method PurgeAuthKeys(store: Storage) returns (kept: Storage)
    ensures IsPurgeOf(kept, store)
    ensures kept == WithoutAuthKeys(store)
  {
    kept := store;
    var pending := store.Keys;
    while pending != {}
      invariant pending <= store.Keys
      invariant forall k :: k in kept <==> k in store && (k in pending || !IsAuthKey(k))
      invariant forall k :: k in kept ==> kept[k] == store[k]
      decreases |pending|
    {
      var key :| key in pending;
      if IsAuthKey(key) {
        kept := kept - {key};
      }
      pending := pending - {key};
    }
  }

  /** Purging twice removes nothing more. */
  lemma PurgeIsIdempotent(store: Storage)
    ensures WithoutAuthKeys(WithoutAuthKeys(store)) == WithoutAuthKeys(store)
  {
  }

  // ---------------------------------------------------------------------
  // Transitions of the state holder

  function Initial(local: Storage, sessionStore: Storage): (s: AuthState)
    ensures s.user.None? && s.profile.None? && s.session.None? && s.error.None?
    ensures s.loading
    ensures AuthUserOf(s).None?
    ensures s.local == local && s.sessionStore == sessionStore
  {
    AuthState(None, None, None, true, None, local, sessionStore)
  }

  /** The identity a session carries (`session?.user ?? null`). */
  function UserOf(session: Option<Session>): Option<User> {
    if session.Some? then Some(session.value.user) else None
  }

  /** The identity whose profile a handler goes on to fetch, if any. */
  function FetchTarget(session: Option<Session>): (r: Option<string>)
    ensures r.Some? <==> session.Some?
    ensures r.Some? ==> r.value == session.value.user.id
  {
    if session.Some? then Some(session.value.user.id) else None
  }

  /** `signIn` or `signUp` once the service has answered: the error is
      cleared on entry, the failure message stored on failure, and
      `loading` ends false; identity cells are not written. */
  function CredentialCallSettled<T>(s: AuthState, outcome: Outcome<T>): (r: AuthState)
    ensures !r.loading
    ensures outcome.Failed? ==> r.error == Some(outcome.message)
    ensures outcome.Succeeded? ==> r.error.None?
    ensures r.user == s.user && r.profile == s.profile && r.session == s.session
    ensures r.local == s.local && r.sessionStore == s.sessionStore
    ensures AuthUserOf(r) == AuthUserOf(s)
  {
    var entered := s.(error := None, loading := true);
    match outcome
    case Succeeded(_) => entered.(loading := false)
    case Failed(message) => entered.(error := Some(message), loading := false)
  }

  /** `signOut`: error cleared, both storage areas purged, identity cells
      cleared; the remote sign-out's failure is swallowed, so it has no say. */
  function SignOutStep(s: AuthState): (r: AuthState)
    ensures r.user.None? && r.profile.None? && r.session.None? && r.error.None?
    ensures AuthUserOf(r).None?
    ensures r.loading == s.loading
    ensures IsPurgeOf(r.local, s.local) && IsPurgeOf(r.sessionStore, s.sessionStore)
  {
    var cleaned := s.(error := None, local := WithoutAuthKeys(s.local),
                      sessionStore := WithoutAuthKeys(s.sessionStore));
    cleaned.(user := None, profile := None, session := None)
  }

  /** The `onAuthStateChange` handler's synchronous part. */
  function AuthEventStep(s: AuthState, session: Option<Session>): (r: AuthState)
    ensures r.session == session && r.user == UserOf(session)
    ensures session.None? ==> r.profile.None? && !r.loading && AuthUserOf(r).None?
    ensures session.Some? ==> r.profile == s.profile && r.loading == s.loading
    ensures s.profile.None? ==> AuthUserOf(r).None?
    ensures r.error == s.error && r.local == s.local && r.sessionStore == s.sessionStore
  {
    var r := s.(session := session, user := UserOf(session));
    if session.Some? then r else r.(profile := None, loading := false)
  }

  /** The startup `getSession` handler's synchronous part; unlike an auth
      event without a session, it leaves `profile` as it was. */
  function RestoreStep(s: AuthState, stored: Option<Session>): (r: AuthState)
    ensures r.session == stored && r.user == UserOf(stored)
    ensures stored.None? ==> !r.loading
    ensures stored.Some? ==> r.loading == s.loading
    ensures r.profile == s.profile && r.error == s.error
    ensures r.local == s.local && r.sessionStore == s.sessionStore
  {
    var r := s.(session := stored, user := UserOf(stored));
    if stored.Some? then r else r.(loading := false)
  }

  /** Arrival of a scheduled profile fetch (both the auth-event and the
      restore path): the profile is set on success; on failure only the
      error is set and an earlier profile stays; `loading` ends false. */
  function ProfileFetchStep(s: AuthState, outcome: Outcome<Profile>): (r: AuthState)
    ensures !r.loading
    ensures r.user == s.user && r.session == s.session
    ensures outcome.Succeeded? ==> r.profile == Some(outcome.value) && r.error == s.error
    ensures outcome.Failed? ==> r.profile == s.profile && r.error == Some(ProfileLoadError)
    ensures r.local == s.local && r.sessionStore == s.sessionStore
  {
    match outcome
    case Succeeded(p) => s.(profile := Some(p), loading := false)
    case Failed(_) => s.(error := Some(ProfileLoadError), loading := false)
  }

  // ---------------------------------------------------------------------
  // The state holder

  class AuthStore {
    var user: Option<User>
    var profile: Option<Profile>
    var session: Option<Session>
    var loading: bool
    var error: Option<string>
    var localStorage: Storage
    var sessionStorage: Storage

    function State(): AuthState
      reads this
    {
      AuthState(user, profile, session, loading, error, localStorage, sessionStorage)
    }

    constructor (local: Storage, sessionStore: Storage)
      ensures State() == Initial(local, sessionStore)
    {
      user, profile, session := None, None, None;
      loading, error := true, None;
      localStorage, sessionStorage := local, sessionStore;
    }

    /** The `authUser` the hook returns. */
    function CurrentAuthUser(): (r: Option<AuthUser>)
      reads this
      ensures r.Some? <==> user.Some? && profile.Some?
      ensures r == AuthUserOf(State())
    {
      DeriveAuthUser(user, profile)
    }

    /** `signIn`, given what the password sign-in call answered; the
        answer is returned on success and re-raised on failure. */
    method SignIn(outcome: Outcome<SignInData>) returns (result: Outcome<SignInData>)
      modifies this
      ensures result == outcome
      ensures State() == CredentialCallSettled(old(State()), outcome)
    {
      error := None;
      loading := true;
      result := outcome;
      if outcome.Failed? {
        error := Some(outcome.message);
      }
      loading := false;
    }

    /** `signUp`, given what the sign-up call answered. */
    method SignUp(outcome: Outcome<SignUpData>) returns (result: Outcome<SignUpData>)
      modifies this
      ensures result == outcome
      ensures State() == CredentialCallSettled(old(State()), outcome)
    {
      error := None;
      loading := true;
      result := outcome;
      if outcome.Failed? {
        error := Some(outcome.message);
      }
      loading := false;
    }

    /** `cleanupAuthState`: purge auth keys from both storage areas. */
    method CleanupAuthState()
      modifies this
      ensures State() == old(State()).(local := WithoutAuthKeys(old(localStorage)),
                                       sessionStore := WithoutAuthKeys(old(sessionStorage)))
    {
      localStorage := PurgeAuthKeys(localStorage);
      sessionStorage := PurgeAuthKeys(sessionStorage);
    }

    /** `signOut`; `remoteSignOutFailed` says whether the global sign-out
        call threw, which the hook logs and otherwise ignores. */
    method SignOut(remoteSignOutFailed: bool)
      modifies this
      ensures State() == SignOutStep(old(State()))
    {
      error := None;
      CleanupAuthState();
      user := None;
      profile := None;
      session := None;
    }

    /** The auth-change listener; returns the id whose profile it fetches. */
    method OnAuthStateChange(newSession: Option<Session>) returns (fetchFor: Option<string>)
      modifies this
      ensures State() == AuthEventStep(old(State()), newSession)
      ensures fetchFor == FetchTarget(newSession)
    {
      session := newSession;
      user := UserOf(newSession);
      if newSession.Some? {
        fetchFor := Some(newSession.value.user.id);
      } else {
        fetchFor := None;
        profile := None;
        loading := false;
      }
    }

    /** The startup restore; returns the id whose profile it fetches. */
    method RestoreSession(stored: Option<Session>) returns (fetchFor: Option<string>)
      modifies this
      ensures State() == RestoreStep(old(State()), stored)
      ensures fetchFor == FetchTarget(stored)
    {
      session := stored;
      user := UserOf(stored);
      if stored.Some? {
        fetchFor := Some(stored.value.user.id);
      } else {
        fetchFor := None;
        loading := false;
      }
    }

    /** A scheduled profile fetch completes. */
    method ProfileFetchSettled(outcome: Outcome<Profile>)
      modifies this
      ensures State() == ProfileFetchStep(old(State()), outcome)
    {
      if outcome.Succeeded? {
        profile := Some(outcome.value);
      } else {
        error := Some(ProfileLoadError);
      }
      loading := false;
    }
  }

  // ---------------------------------------------------------------------
  // Properties of the lifecycle

  /** Signing out twice ends in the same state as signing out once. */
  lemma SignOutIsIdempotent(s: AuthState)
    ensures SignOutStep(SignOutStep(s)) == SignOutStep(s)
  {
    PurgeIsIdempotent(s.local);
    PurgeIsIdempotent(s.sessionStore);
  }

  /** A successful sign-in followed by the service's event never jumps
      straight to an authenticated user: the identity is set first, and
      `authUser` appears only once the profile fetch succeeds. */
  lemma SignInReachesAuthUserOnlyThroughProfile(s: AuthState, data: SignInData, p: Profile)
    requires AuthUserOf(s).None? && s.profile.None?
    ensures var afterCall := CredentialCallSettled(s, Succeeded(data));
            var afterEvent := AuthEventStep(afterCall, Some(data.session));
            var afterFetch := ProfileFetchStep(afterEvent, Succeeded(p));
            && AuthUserOf(afterCall).None?
            && afterEvent.user == Some(data.session.user) && AuthUserOf(afterEvent).None?
            && AuthUserOf(afterFetch) == DeriveAuthUser(Some(data.session.user), Some(p))
            && AuthUserOf(afterFetch).Some?
  {
  }

  /** Restoring a stored session and loading its profile yields the same
      signed-in user, with the stored identity and the profile's role. */
  lemma RestoreReproducesAuthUser(local: Storage, sessionStore: Storage, stored: Session, p: Profile)
    requires p.id == stored.user.id
    ensures var r := ProfileFetchStep(RestoreStep(Initial(local, sessionStore), Some(stored)), Succeeded(p));
            && AuthUserOf(r).Some?
            && AuthUserOf(r).value.user.id == stored.user.id
            && AuthUserOf(r).value.profile.role == p.role
            && !r.loading && r.error.None?
  {
  }

  /** As written, a failed profile fetch does not clear a profile loaded
      earlier, so a signed-in user stays signed in with an error set. */
  lemma FetchFailureKeepsEarlierProfile(s: AuthState, message: string)
    requires AuthUserOf(s).Some?
    ensures var r := ProfileFetchStep(s, Failed(message));
            AuthUserOf(r) == AuthUserOf(s) && r.error == Some(ProfileLoadError)
  {
  }

  /** As written, an auth event for a different identity keeps the profile
      loaded for the previous one until the new fetch settles. */
  lemma EventPairsNewIdentityWithHeldProfile(s: AuthState, next: Session)
    requires s.profile.Some?
    ensures var r := AuthEventStep(s, Some(next));
            AuthUserOf(r).Some? && AuthUserOf(r).value.user == next.user
            && AuthUserOf(r).value.profile == s.profile.value
  {
  }
}
