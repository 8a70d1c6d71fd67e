/**
 * The sign-in form's submit handler (src/app/auth/login/page.tsx): after a
 * successful sign-in it reads the user's role and picks a dashboard. The
 * identity provider and the profile query are outcomes passed in.
 */
module Login {
  import opened Wrappers

  const StudentDashboard := "/dashboard/student"
  const ParentDashboard := "/dashboard/parent"

  /**
   * The profile query `select('role') ... .single()`: it threw, or it
   * returned the row's role (`None` when no row came back).
   */
  datatype ProfileLookup = Threw | Returned(role: Option<string>)

  /** What `signIn` gave back: a provider error, a result with or without user and session, or an exception. */
  datatype SignInResult = ProviderError(message: string) | SignedIn(hasUser: bool, hasSession: bool) | SignInThrew

  /** The visible effect of one submit: the error shown and the page navigated to. */
  datatype LoginOutcome = LoginOutcome(error: Option<string>, redirect: Option<string>)

  const UnexpectedError := "An unexpected error occurred. Please try again."

  /** `profileData?.role || user_metadata?.role`: the profile's role when non-empty, else the metadata role. */
  function EffectiveRole(profileRole: Option<string>, metadataRole: Option<string>): (role: Option<string>)
    ensures profileRole.Some? && profileRole.value != "" ==> role == profileRole
    ensures (profileRole.None? || profileRole.value == "") ==> role == metadataRole
  {
    if profileRole.Some? && profileRole.value != "" then profileRole else metadataRole
  }

  /**
   * The dashboard chosen after sign-in. One of the two dashboards in every
   * case; the parent dashboard exactly when the effective role is "parent"
   * or, after a failed lookup, the metadata role is.
   */
  function LoginRedirect(lookup: ProfileLookup, metadataRole: Option<string>): (path: string)
    ensures path == StudentDashboard || path == ParentDashboard
    ensures lookup.Returned? ==> (path == ParentDashboard <==> EffectiveRole(lookup.role, metadataRole) == Some("parent"))
    ensures lookup.Threw? ==> (path == ParentDashboard <==> metadataRole == Some("parent"))
  {
    match lookup
    case Returned(profileRole) =>
      var role := EffectiveRole(profileRole, metadataRole);
      if role == Some("student") then StudentDashboard
      else if role == Some("parent") then ParentDashboard
      else StudentDashboard
    case Threw =>
      if metadataRole == Some("parent") then ParentDashboard else StudentDashboard
  }

  /** A non-empty profile role decides alone: the metadata role is then ignored. */
  lemma ProfileRoleWins(role: string, m1: Option<string>, m2: Option<string>)
    requires role != ""
    ensures LoginRedirect(Returned(Some(role)), m1) == LoginRedirect(Returned(Some(role)), m2)
  {
  }

  /** Without a profile role (no row, or an empty role) the metadata role decides. */
  lemma MetadataWhenNoProfileRole(profileRole: Option<string>, metadataRole: Option<string>)
    requires profileRole.None? || profileRole == Some("")
    ensures LoginRedirect(Returned(profileRole), metadataRole)
            == if metadataRole == Some("parent") then ParentDashboard else StudentDashboard
  {
  }

  /** Teachers, admins, unknown roles and a missing role all land on the student dashboard. */
  lemma OtherRolesGoToStudent(lookup: ProfileLookup, metadataRole: Option<string>)
    requires lookup.Returned?
    requires EffectiveRole(lookup.role, metadataRole) != Some("parent")
    ensures LoginRedirect(lookup, metadataRole) == StudentDashboard
  {
  }

  /**
   * `handleSubmit`: a provider error is shown and nothing else happens; an
   * exception shows the generic message; a result without both a user and a
   * session does nothing; otherwise the role decides the dashboard.
   */
  function HandleSubmit(signIn: SignInResult, lookup: ProfileLookup, metadataRole: Option<string>): (out: LoginOutcome)
    ensures signIn.ProviderError? ==> out == LoginOutcome(Some(signIn.message), None)
    ensures signIn.SignInThrew? ==> out == LoginOutcome(Some(UnexpectedError), None)
    ensures signIn.SignedIn? && !(signIn.hasUser && signIn.hasSession) ==> out == LoginOutcome(None, None)
    ensures signIn.SignedIn? && signIn.hasUser && signIn.hasSession ==>
      out.error == None && out.redirect == Some(LoginRedirect(lookup, metadataRole))
    ensures out.redirect.Some? <==> signIn.SignedIn? && signIn.hasUser && signIn.hasSession
  {
    match signIn
    case ProviderError(message) => LoginOutcome(Some(message), None)
    case SignInThrew => LoginOutcome(Some(UnexpectedError), None)
    case SignedIn(hasUser, hasSession) =>
      if hasUser && hasSession then LoginOutcome(None, Some(LoginRedirect(lookup, metadataRole)))
      else LoginOutcome(None, None)
  }

  /** A redirect, when there is one, never carries an error and always goes to a dashboard. */
  lemma RedirectOnlyToDashboards(signIn: SignInResult, lookup: ProfileLookup, metadataRole: Option<string>)
    ensures var out := HandleSubmit(signIn, lookup, metadataRole);
      out.redirect.Some? ==> out.error == None && out.redirect.value in {StudentDashboard, ParentDashboard}
  {
  }
}
