/** `GuardBlock`: the decision, on each render, whether to show a loading
    message, redirect, or render the guarded children. `redirect` ends the
    render, so it is an outcome here rather than control flow. */
module GuardBlock {
  import opened Forms

  datatype Outcome =
    | ShowLoading          // "Loading..." while authentication is processed
    | ShowLoadingUser      // "Loading user..." while the user query runs
    | Redirect(path: string)
    | RenderChildren
    | Throws               // a TypeError ends the render

  const LoginPath := "/auth/login"
  const HomePath := "/"

  /** What the authentication context reports. */
  datatype AuthState = AuthState(isLoading: bool, isLoggedIn: bool)

  /** What the `['employee', 'me']` query reports: whether it is loading,
      whether it failed, and `data?.privileges` (None when the data or its
      privilege list is missing). */
  datatype UserQuery = UserQuery(isLoading: bool, failed: bool, privileges: Option<seq<string>>)

  /** The query runs only once authentication has loaded and the user is
      logged in. */
  function QueryEnabled(auth: AuthState): (enabled: bool)
    ensures enabled <==> !auth.isLoading && auth.isLoggedIn
  {
    !auth.isLoading && auth.isLoggedIn
  }

  /** `data?.privileges || []`. */
  function UserPrivileges(query: UserQuery): (privileges: seq<string>)
    ensures query.privileges.None? ==> privileges == []
    ensures query.privileges.Some? ==> privileges == query.privileges.value
  {
    match query.privileges
    case None => []
    case Some(p) => p
  }

  /** `required.every((p) => user.includes(p))`, element by element. */
  function HasPermissions(required: seq<string>, user: seq<string>): (ok: bool)
    ensures required == [] ==> ok
    ensures ok && required != [] ==> required[0] in user
  {
    if required == [] then true
    else required[0] in user && HasPermissions(required[1..], user)
  }

  /** `every`/`includes` is containment: every required privilege is one
      the user holds. */
  lemma {:induction false} HasPermissionsIffContained(required: seq<string>, user: seq<string>)
    ensures HasPermissions(required, user) <==> forall p :: p in required ==> p in user
  {
    if required != [] {
      HasPermissionsIffContained(required[1..], user);
      assert forall p :: p in required <==> p == required[0] || p in required[1..];
    }
  }

  /** The guard's decision chain, in the order the component tests it. */
  function Decide(required: seq<string>, auth: AuthState, query: UserQuery): (o: Outcome)
    ensures o != Throws
    ensures auth.isLoading ==> o == ShowLoading
    ensures !auth.isLoading && !auth.isLoggedIn ==> o == Redirect(LoginPath)
    ensures o == ShowLoadingUser <==> QueryEnabled(auth) && query.isLoading
    ensures QueryEnabled(auth) && !query.isLoading && query.failed ==> o == Redirect(LoginPath)
    ensures o == RenderChildren <==>
              QueryEnabled(auth) && !query.isLoading && !query.failed
              && forall p :: p in required ==> p in UserPrivileges(query)
    ensures o == Redirect(HomePath) <==>
              QueryEnabled(auth) && !query.isLoading && !query.failed
              && exists p :: p in required && p !in UserPrivileges(query)
  {
    HasPermissionsIffContained(required, UserPrivileges(query));
    if auth.isLoading then ShowLoading
    else if !auth.isLoggedIn then Redirect(LoginPath)
    else if query.isLoading then ShowLoadingUser
    else if query.failed then Redirect(LoginPath)
    else if !HasPermissions(required, UserPrivileges(query)) then Redirect(HomePath)
    else RenderChildren
  }

  /** Whenever the decision depends on the user query, the query is
      enabled. */
  lemma QueryConsultedOnlyWhenEnabled(required: seq<string>, auth: AuthState, query: UserQuery)
    requires Decide(required, auth, query) in {ShowLoadingUser, RenderChildren, Redirect(HomePath)}
    ensures QueryEnabled(auth)
  {
  }

  /** While the query is disabled the decision does not depend on it at
      all. */
  lemma QueryIgnoredWhenDisabled(required: seq<string>, auth: AuthState, q1: UserQuery, q2: UserQuery)
    requires !QueryEnabled(auth)
    ensures Decide(required, auth, q1) == Decide(required, auth, q2)
  {
  }

  /** No requirement: every authenticated, loaded user passes. */
  lemma EmptyRequirementPasses(auth: AuthState, query: UserQuery)
    requires QueryEnabled(auth) && !query.isLoading && !query.failed
    ensures Decide([], auth, query) == RenderChildren
  {
  }

  /** Missing user data counts as no privileges: any requirement sends the
      user to `/`. */
  lemma MissingDataRedirectsHome(required: seq<string>, auth: AuthState, query: UserQuery)
    requires QueryEnabled(auth) && !query.isLoading && !query.failed
    requires query.privileges.None? && required != []
    ensures Decide(required, auth, query) == Redirect(HomePath)
  {
    assert required[0] in required;
  }

  /** Granting the user more privileges, or requiring fewer, never turns
      rendering into a redirect to `/`. */
  lemma {:induction false} Monotone(required: seq<string>, required': seq<string>,
                                    auth: AuthState, query: UserQuery, more: seq<string>)
    requires Decide(required, auth, query) == RenderChildren
    requires forall p :: p in required' ==> p in required
    requires forall p :: p in UserPrivileges(query) ==> p in more
    ensures Decide(required', auth, query.(privileges := Some(more))) == RenderChildren
  {
  }

  /** The component as written when a page leaves out `requiredPrivileges`
      (`None`): the chain is the same, but `undefined.every` throws once the
      user has loaded. */
  function DecideAsWritten(required: Option<seq<string>>, auth: AuthState, query: UserQuery): (o: Outcome)
    ensures required.Some? ==> o == Decide(required.value, auth, query)
    ensures o == Throws <==>
              required.None? && QueryEnabled(auth) && !query.isLoading && !query.failed
    ensures required.None? && o != Throws ==> o == Decide([], auth, query)
  {
    if auth.isLoading then ShowLoading
    else if !auth.isLoggedIn then Redirect(LoginPath)
    else if query.isLoading then ShowLoadingUser
    else if query.failed then Redirect(LoginPath)
    else
      match required
      case None => Throws
      case Some(r) => Decide(r, auth, query)
  }

  /** The client pages pass no `requiredPrivileges`: a logged-in user whose
      data has loaded, whatever privileges they hold, gets a TypeError
      instead of the page. */
  lemma OmittedRequirementThrows(auth: AuthState, query: UserQuery)
    requires QueryEnabled(auth) && !query.isLoading && !query.failed
    ensures DecideAsWritten(None, auth, query) == Throws
    ensures Decide([], auth, query) == RenderChildren
  {
  }

  /** The guard as evidently intended for those pages: an omitted
      requirement is no requirement, so login alone admits the user. */
  function DecideOptional(required: Option<seq<string>>, auth: AuthState, query: UserQuery): (o: Outcome)
    ensures o != Throws
    ensures DecideAsWritten(required, auth, query) != Throws ==> o == DecideAsWritten(required, auth, query)
    ensures required.Some? ==> o == DecideAsWritten(required, auth, query)
    ensures required.None? && QueryEnabled(auth) && !query.isLoading && !query.failed ==> o == RenderChildren
    ensures required.None? ==> (o == RenderChildren <==> QueryEnabled(auth) && !query.isLoading && !query.failed)
  {
    match required
    case None => Decide([], auth, query)
    case Some(r) => Decide(r, auth, query)
  }
}
