/** The hash routes of the web client (frontend/src/router.tsx, `getRoute`). */
module Router {

  /** `Route`: the four hash locations the client renders a page for. */
  type Route = h: string | h == "#/" || h == "#/about" || h == "#/buy" || h == "#/verify" witness "#/"

  /**
   * `getRoute`, with `window.location.hash` as the parameter: an empty hash
   * counts as "#/", the three page hashes are kept, and anything else is "#/".
   */
  function GetRoute(hash: string): (r: Route)
    ensures hash == "#/about" || hash == "#/buy" || hash == "#/verify" ==> r == hash
    ensures !(hash == "#/about" || hash == "#/buy" || hash == "#/verify") ==> r == "#/"
  {
    var h := if hash == "" then "#/" else hash;
    if h == "#/about" || h == "#/buy" || h == "#/verify" then h else "#/"
  }

  /** Every route maps to itself, so applying the mapping twice is applying it once. */
  lemma RouteIsFixedPoint(hash: string)
    ensures GetRoute(GetRoute(hash)) == GetRoute(hash)
    ensures forall r: Route :: GetRoute(r) == r
  {
  }
}
