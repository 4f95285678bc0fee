/** The navigation destinations of the app and their route strings. */
module Routes {
  import opened Wrappers

  datatype AppRoute = Login | SignUp | Home | Explore | Community | Profile | Details

  /** Every destination, in declaration order. */
  const AllRoutes: seq<AppRoute> := [Login, SignUp, Home, Explore, Community, Profile, Details]

  /** A non-empty word of lower-case ASCII letters. */
  predicate IsLowerWord(s: string) {
    |s| > 0 && forall i :: 0 <= i < |s| ==> 'a' <= s[i] <= 'z'
  }

  /** The route string a destination is registered under. */
  function Route(r: AppRoute): (s: string)
    ensures IsLowerWord(s)
  {
    match r
    case Login => "login"
    case SignUp => "signup"
    case Home => "home"
    case Explore => "explore"
    case Community => "community"
    case Profile => "profile"
    case Details => "details"
  }

  /** There are exactly seven destinations, each listed once. */
  lemma AllRoutesComplete(r: AppRoute)
    ensures |AllRoutes| == 7 && r in AllRoutes
    ensures forall i, j :: 0 <= i < j < |AllRoutes| ==> AllRoutes[i] != AllRoutes[j]
  {
  }

  /** Distinct destinations have distinct route strings. */
  lemma RouteInjective(a: AppRoute, b: AppRoute)
    ensures Route(a) == Route(b) ==> a == b
  {
  }

  /** A destination in `routes` registered under `s`, if there is one. */
  function FindRoute(s: string, routes: seq<AppRoute>): (r: Option<AppRoute>)
    ensures r.Some? ==> r.value in routes && Route(r.value) == s
    ensures r.None? ==> forall a :: a in routes ==> Route(a) != s
  {
    if routes == [] then None
    else if Route(routes[0]) == s then Some(routes[0])
    else FindRoute(s, routes[1..])
  }

  /** Navigating by route string: the destination registered under `s`, if any. */
  function FromRoute(s: string): (r: Option<AppRoute>)
    ensures r.Some? ==> Route(r.value) == s
    ensures r.None? <==> forall a :: Route(a) != s
  {
    AllRoutesComplete(Login);
    FindRoute(s, AllRoutes)
  }

  /** Looking a destination up by its own route string finds that destination. */
  lemma FromRouteRoundTrip(a: AppRoute)
    ensures FromRoute(Route(a)) == Some(a)
  {
    var r := FromRoute(Route(a));
    RouteInjective(a, r.value);
  }

  /** The three destinations the start decision uses. */
  lemma StartRouteStrings()
    ensures Route(Login) == "login" && Route(Home) == "home" && Route(Details) == "details"
  {
  }
}
