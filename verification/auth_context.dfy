/**
 * The session context (src/contexts/AuthContext.tsx): the signed-in user,
 * their profile row, the session and the loading flag, and the handlers
 * that change them. The identity provider and the profile queries are
 * outcomes passed in; each handler runs as one step.
 */
module AuthContext {
  import opened Wrappers
  import opened Schema
  import opened Store

  datatype User = User(id: string, email: string)

  datatype Session = Session(user: User, accessToken: string)

  /** What the identity provider's `signUp` gave back. */
  datatype SignUpOutcome =
    | ProviderRejected(user: Option<User>, message: string)
    | ProviderAccepted(user: Option<User>)
    | ProviderThrew(message: string)

  /** The `{ data, error }` that `signUp` returns, reduced to the user in `data`. */
  datatype SignUpResponse = SignUpResponse(user: Option<User>, error: Option<string>)

  /** The form data `signUp` receives. */
  datatype SignUpData = SignUpData(fullName: string, role: AccountRole, graduationYear: Option<int>, phone: Option<string>)

  class AuthProvider {
    var user: Option<User>
    var profile: Option<Profile>
    var session: Option<Session>
    var loading: bool

    /** The user is always the session's user, and a profile is only held while someone is signed in. */
    predicate Valid()
      reads this
    {
      && user == (if session.Some? then Some(session.value.user) else None)
      && (profile.Some? ==> user.Some?)
    }

    /** Nothing known yet, and loading. */
    constructor()
      ensures Valid()
      ensures loading && user == None && profile == None && session == None
    {
      user := None;
      profile := None;
      session := None;
      loading := true;
    }

    /**
     * `getInitialSession`: a session found at start-up is adopted, with its
     * profile row when one is fetched; loading ends whatever the outcome.
     */
    method GetInitialSession(initial: Option<Session>, fetched: Option<Profile>)
      requires Valid()
      modifies this
      ensures Valid()
      ensures !loading
      ensures initial.None? ==> user == old(user) && session == old(session) && profile == old(profile)
      ensures initial.Some? ==> session == initial && user == Some(initial.value.user)
      ensures initial.Some? ==> profile == (if fetched.Some? then fetched else old(profile))
    {
      if initial.Some? {
        session := initial;
        user := Some(initial.value.user);
        if fetched.Some? {
          profile := fetched;
        }
      }
      loading := false;
    }

    /**
     * The `onAuthStateChange` listener. Without a session everything is
     * cleared. With one, session and user are replaced, and the profile only
     * when a row is fetched: a failed fetch keeps the previous profile, even
     * one that belonged to the previous user. Loading ends.
     */
    method OnAuthStateChange(newSession: Option<Session>, fetched: Option<Profile>)
      requires Valid()
      modifies this
      ensures Valid()
      ensures !loading
      ensures session == newSession
      ensures newSession.None? ==> user == None && profile == None
      ensures newSession.Some? ==> user == Some(newSession.value.user)
      ensures newSession.Some? ==> profile == (if fetched.Some? then fetched else old(profile))
    {
      session := newSession;
      user := if newSession.Some? then Some(newSession.value.user) else None;
      if newSession.Some? {
        if fetched.Some? {
          profile := fetched;
        }
      } else {
        profile := None;
      }
      loading := false;
    }

    /** `signOut`: on success the user, the profile and the session are cleared; a provider error changes nothing. */
    method SignOut(providerError: Option<string>) returns (error: Option<string>)
      requires Valid()
      modifies this
      ensures Valid()
      ensures error == providerError && loading == old(loading)
      ensures providerError.None? ==> user == None && profile == None && session == None
      ensures providerError.Some? ==> user == old(user) && profile == old(profile) && session == old(session)
    {
      if providerError.None? {
        user := None;
        profile := None;
        session := None;
      }
      return providerError;
    }

    /** `refreshProfile`: with someone signed in, a fetch without error that returns a row replaces the profile. */
    method RefreshProfile(fetchError: bool, fetched: Option<Profile>)
      requires Valid()
      modifies this
      ensures Valid()
      ensures user == old(user) && session == old(session) && loading == old(loading)
      ensures profile == (if old(user).Some? && !fetchError && fetched.Some? then fetched else old(profile))
    {
      if user.Some? {
        if !fetchError && fetched.Some? {
          profile := fetched;
        }
      }
    }

    /**
     * `signUp`: a provider error or an exception comes back with no insert.
     * When the provider returns a user, a bare profile row (no students or
     * parents row) is inserted into `db`; whether that insert succeeds does
     * not change what `signUp` returns. The context's own state is untouched.
     */
    method SignUp(db: Database, email: string, data: SignUpData, outcome: SignUpOutcome, now: string, insertFails: bool)
      returns (response: SignUpResponse)
      requires db.Valid()
      modifies db
      ensures db.Valid()
      ensures db.students == old(db.students) && db.parents == old(db.parents)
      ensures outcome.ProviderRejected? ==> response == SignUpResponse(outcome.user, Some(outcome.message))
      ensures outcome.ProviderThrew? ==> response == SignUpResponse(None, Some(outcome.message))
      ensures outcome.ProviderAccepted? ==> response == SignUpResponse(outcome.user, None)
      ensures !(outcome.ProviderAccepted? && outcome.user.Some?) ==> db.profiles == old(db.profiles)
      ensures outcome.ProviderAccepted? && outcome.user.Some? ==>
        var row := Profile(outcome.user.value.id, email, data.fullName, data.role, now, now);
        var refused := insertFails || row.id in old(db.profiles) || email in Emails(old(db.profiles));
        db.profiles == if refused then old(db.profiles) else old(db.profiles)[row.id := row]
    {
      match outcome {
        case ProviderThrew(message) =>
          return SignUpResponse(None, Some(message));
        case ProviderRejected(u, message) =>
          return SignUpResponse(u, Some(message));
        case ProviderAccepted(u) =>
          if u.Some? {
            var row := Profile(u.value.id, email, data.fullName, data.role, now, now);
            var _ := db.InsertProfile(row, insertFails);
          }
          return SignUpResponse(u, None);
      }
    }
  }
}
