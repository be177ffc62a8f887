/** The route guard every page is wrapped in (src/components/Layout/MainLayout.tsx). */
module MainLayout {
  import opened Js

  /** What a page passes to the layout; `requireAuth` defaults to false and `allowedRoles` to []. */
  datatype LayoutProps = LayoutProps(requireAuth: bool, allowedRoles: seq<string>)

  const DefaultProps: LayoutProps := LayoutProps(false, [])

  /** The three things the layout can do. */
  datatype Route = RenderPage | RedirectToLogin | RedirectToUnauthorized

  /** An allow-list admits `role` when it lists it; the empty list places no restriction. */
  predicate Admits(allowedRoles: seq<string>, role: string)
  {
    allowedRoles == [] || role in allowedRoles
  }

  /** The guard's decision for a page, from the session's `isAuthenticated` and `userRole`. */
  function Guard(props: LayoutProps, isAuthenticated: bool, userRole: Option<string>): (r: Route)
    // A page that does not require authentication is always rendered.
    ensures !props.requireAuth ==> r == RenderPage
    // The login redirect is taken exactly for an anonymous user on a protected page, before
    // any role is looked at.
    ensures r == RedirectToLogin <==> props.requireAuth && !isAuthenticated
    // An empty allow-list, and a missing or empty role, never lead to the unauthorized page.
    ensures props.allowedRoles == [] ==> r != RedirectToUnauthorized
    ensures !Truthy(userRole) ==> r != RedirectToUnauthorized
    // The page is shown exactly when it is public, or the user is signed in and either has no
    // role to check or a role the allow-list admits.
    ensures r == RenderPage <==>
      !props.requireAuth || (isAuthenticated && (!Truthy(userRole) || Admits(props.allowedRoles, userRole.value)))
  {
    if props.requireAuth && !isAuthenticated then
      RedirectToLogin
    else if props.requireAuth && isAuthenticated && |props.allowedRoles| > 0 && Truthy(userRole)
            && userRole.value !in props.allowedRoles then
      RedirectToUnauthorized
    else
      RenderPage
  }
}
