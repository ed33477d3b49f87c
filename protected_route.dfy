/**
 * The route guard (`ProtectedRoute.tsx`): which view a protected route shows,
 * from the path, the loading flag and whether a participant is signed in.
 */
module ProtectedRoute {
  import opened JsText

  /**
   * The test `/^\/admin(\/|$)/`: the path starts with `/admin` followed by a
   * `/` or by the end of the path.
   */
  function IsDash(pathname: string): (dash: bool)
    ensures dash <==> pathname == "/admin" || StartsWith(pathname, "/admin/")
  {
    StartsWith(pathname, "/admin") && (|pathname| == 6 || pathname[6] == '/')
  }

  /** A longer word that merely starts with `admin` is not the dashboard. */
  lemma AdminPrefixIsNotEnough()
    ensures !IsDash("/administrator") && IsDash("/admin") && IsDash("/admin/projects")
  {
    assert "/administrator"[6] == 'i';
    assert "/admin/projects"[..7] == "/admin/";
  }

  /** What the guard renders. */
  datatype View = LoadingView | NotFoundView | Children

  /**
   * The guard's decision: loading shows the loading view; outside the
   * dashboard a finished load without a participant shows "not found"; in
   * every other case the guarded page.
   */
  function Decide(pathname: string, isLoading: bool, hasParticipant: bool): (view: View)
    ensures isLoading <==> view == LoadingView
    ensures view == NotFoundView <==> !IsDash(pathname) && !isLoading && !hasParticipant
    ensures view == Children <==> !isLoading && (IsDash(pathname) || hasParticipant)
  {
    if !IsDash(pathname) then
      if isLoading then LoadingView
      else if !hasParticipant then NotFoundView
      else Children
    else
      if isLoading then LoadingView else Children
  }

  /** On a dashboard path the participant session makes no difference. */
  lemma DashIgnoresParticipant(pathname: string, isLoading: bool)
    requires IsDash(pathname)
    ensures Decide(pathname, isLoading, true) == Decide(pathname, isLoading, false)
  {
  }
}
