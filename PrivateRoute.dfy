/**
 * The route guard: while the session is being restored it shows a
 * placeholder, without a token it redirects to the login page (replacing the
 * history entry), and otherwise it renders the page it wraps.
 */
module PrivateRoute {
  import opened Common

  datatype GuardOutcome =
    | Placeholder                        // the loading spinner
    | Redirect(to: string, replace: bool)  // <Navigate to=... replace />
    | Children                           // the wrapped page, unchanged

  const LoginPath: string := "/login"

  /** `PrivateRoute` for the session fields `loading` and `token`. */
  function Guard(loading: bool, token: Option<string>): (r: GuardOutcome)
    ensures r == Placeholder <==> loading
    ensures r.Redirect? <==> !loading && !Truthy(token)
    ensures r == Children <==> !loading && Truthy(token)
    ensures r.Redirect? ==> r.to == LoginPath && r.replace
  {
    if loading then Placeholder
    else if !Truthy(token) then Redirect(LoginPath, true)
    else Children
  }

  /** While the session loads, the guard never redirects, whatever the token. */
  lemma NoRedirectWhileLoading(token: Option<string>)
    ensures !Guard(true, token).Redirect?
  {
  }
}
