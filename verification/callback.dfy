/**
 * The OAuth / e-mail confirmation landing page
 * (src/app/auth/callback/page.tsx): it reads the session and sends the user
 * to a dashboard or back to the login page. The session probe and the
 * profile query are outcomes passed in; the delays before navigating are
 * left out.
 */
module AuthCallback {
  import opened Wrappers
  import opened Login

  /** What `getSession` gave back. */
  datatype SessionResult =
    | SessionError
    | NoSession
    | HasSession(metadataRole: Option<string>)
    | SessionThrew

  const AuthErrorLogin := "/auth/login?message=Auth error"
  const LoginPage := "/auth/login"

  /**
   * The callback's rule for the parent dashboard: a returned profile row
   * whose role is "parent", or, only when the lookup threw, metadata role
   * "parent". A lookup that returns no row keeps the default.
   */
  predicate CallbackChoosesParent(lookup: ProfileLookup, metadataRole: Option<string>) {
    || lookup == Returned(Some("parent"))
    || (lookup.Threw? && metadataRole == Some("parent"))
  }

  /**
   * `handleAuthCallback`: the page it navigates to and the error it shows.
   * With a session the target starts at the student dashboard and is
   * overwritten by the branches that choose a role.
   */
  method HandleAuthCallback(session: SessionResult, lookup: ProfileLookup) returns (target: string, error: Option<string>)
    ensures session.SessionError? ==>
      target == AuthErrorLogin && error == Some("Authentication failed. Please try logging in again.")
    ensures session.NoSession? ==> target == LoginPage && error == Some("No authentication session found.")
    ensures session.SessionThrew? ==> target == LoginPage && error == Some("An unexpected error occurred.")
    ensures session.HasSession? ==> error == None && target in {StudentDashboard, ParentDashboard}
    ensures session.HasSession? ==>
      (target == ParentDashboard <==> CallbackChoosesParent(lookup, session.metadataRole))
  {
    match session {
      case SessionError =>
        return AuthErrorLogin, Some("Authentication failed. Please try logging in again.");
      case NoSession =>
        return LoginPage, Some("No authentication session found.");
      case SessionThrew =>
        return LoginPage, Some("An unexpected error occurred.");
      case HasSession(metadataRole) =>
        var redirectPath := StudentDashboard;
        match lookup {
          case Returned(row) =>
            if row.Some? {
              if row.value == "parent" {
                redirectPath := ParentDashboard;
              } else if row.value == "student" {
                redirectPath := StudentDashboard;
              }
            }
          case Threw =>
            if metadataRole == Some("parent") {
              redirectPath := ParentDashboard;
            }
        }
        return redirectPath, None;
    }
  }

  /**
   * The two pages disagree when the profile row is missing or has an empty
   * role: the sign-in form then follows the metadata role, the callback
   * keeps the student dashboard.
   */
  lemma LoginAndCallbackDisagree(lookup: ProfileLookup)
    requires lookup == Returned(None) || lookup == Returned(Some(""))
    ensures LoginRedirect(lookup, Some("parent")) == ParentDashboard
    ensures !CallbackChoosesParent(lookup, Some("parent"))
  {
  }

  /** With a returned profile role that is not empty, the two pages agree. */
  lemma LoginAndCallbackAgree(role: string, metadataRole: Option<string>)
    requires role != ""
    ensures LoginRedirect(Returned(Some(role)), metadataRole) == ParentDashboard
            <==> CallbackChoosesParent(Returned(Some(role)), metadataRole)
  {
  }
}
