/**
 * The role guards the pages run on load. The token comes from local
 * storage and its role from decoding it; both are inputs here.
 */
module Access {
  import opened Common

  /**
   * The usual guard: without a token go to the login page; with a token
   * whose role is not the page's role go to "/"; otherwise stay.
   */
  function GuardRedirect(token: Option<string>, role: Option<string>, loginPath: string,
                         requiredRole: string): (r: Option<string>)
    ensures r.None? <==> Present(token) && role == Some(requiredRole)
    ensures !Present(token) ==> r == Some(loginPath)
    ensures Present(token) && r.Some? ==> r.value == "/"
  {
    if !Present(token) then Some(loginPath)
    else if role != Some(requiredRole) then Some("/")
    else None
  }

  /** The router pushes a guard result produces. */
  function Pushes(redirect: Option<string>): (r: seq<Target>)
    ensures |r| <= 1
    ensures r == [] <==> redirect.None?
  {
    if redirect.None? then [] else [PathOnly(redirect.value)]
  }
}
