/** The application shell: when the profile-setup modal appears, and the route table. */
module App {
  import opened Domain
  import opened Queries

  /** `isAuthenticated && !profileLoading && isFetched && userProfile === null` */
  predicate ShowProfileSetup(isAuthenticated: bool, profileLoading: bool, isFetched: bool, userProfile: Option<Option<Profile>>) {
    isAuthenticated && !profileLoading && isFetched && userProfile == Some(None)
  }

  /** The layout's decision, computed from the signed-in identity, the actor and the query cache. */
  predicate LayoutShowsSetup(identity: Option<Principal>, env: Env, m: map<QueryKey, Entry>) {
    ShowProfileSetup(identity.Some?, CallerProfileLoading(env, m), CallerProfileFetched(env, m), CallerProfileData(m))
  }

  /**
   * The modal shows exactly when someone is signed in, the actor is ready,
   * and the cached read of their own profile has resolved to `null`.
   */
  lemma SetupShownIffResolvedToNull(identity: Option<Principal>, env: Env, m: map<QueryKey, Entry>)
    ensures LayoutShowsSetup(identity, env, m) <==>
      && identity.Some? && ActorReady(env)
      && CurrentUserProfileKey in m && m[CurrentUserProfileKey].status == Resolved(MaybeProfile(None))
  {
    if CurrentUserProfileKey in m && m[CurrentUserProfileKey].status.Resolved? {
      match m[CurrentUserProfileKey].status.data
      case MaybeProfile(p) =>
      case PostList(_) =>
      case ProfileList(_) =>
    }
  }

  /**
   * Once the caller's profile has been read, the modal shows exactly when
   * the backend answered that the caller has no profile; a failed read
   * never shows it.
   */
  lemma SetupShownIffBackendHasNoProfile(identity: Principal, env: Env, m: map<QueryKey, Entry>)
    requires ActorReady(env)
    requires CurrentUserProfileKey in m && m[CurrentUserProfileKey].status == Settle(QueryFn(CurrentUserProfileKey, env))
    ensures LayoutShowsSetup(Some(identity), env, m) <==> env.actor.value.getCallerUserProfile == Ok(None)
  {
    SetupShownIffResolvedToNull(Some(identity), env, m);
  }

  /** Before the first read, and after the cache is cleared, the modal is not shown. */
  lemma NoSetupOnEmptyCache(identity: Option<Principal>, env: Env)
    ensures !LayoutShowsSetup(identity, env, map[])
  {
    SetupShownIffResolvedToNull(identity, env, map[]);
  }

  // ─── Routes ───────────────────────────────────────────────────────────────

  /** One segment of a route path: literal text, or a `$name` parameter. */
  datatype Segment = Literal(text: string) | Param(name: string)

  datatype Page = FeedPage | DiscoverPage | ProfilePage

  /** A route either redirects before loading, or renders a page. */
  datatype Target = RedirectTo(to: seq<string>) | Renders(page: Page)

  datatype Route = Route(pattern: seq<Segment>, target: Target)

  /** The children of the root route, whose component is the layout. */
  const ChildRoutes: seq<Route> := [
    Route([], RedirectTo(["feed"])),
    Route([Literal("feed")], Renders(FeedPage)),
    Route([Literal("discover")], Renders(DiscoverPage)),
    Route([Literal("profile"), Param("id")], Renders(ProfilePage))
  ]

  /** The segments match one by one: literals exactly, parameters any non-empty segment. */
  predicate SegmentsFit(pattern: seq<Segment>, segments: seq<string>) {
    && |pattern| == |segments|
    && forall i | 0 <= i < |pattern| ::
         (pattern[i].Literal? ==> segments[i] == pattern[i].text) && (pattern[i].Param? ==> segments[i] != "")
  }

  /** Matches a path, given as its segments, against a pattern, collecting the parameters. */
  function Match(pattern: seq<Segment>, segments: seq<string>): (r: Option<map<string, string>>)
    ensures r.Some? <==> SegmentsFit(pattern, segments)
    ensures r.Some? ==> forall name | name in r.value :: exists i | 0 <= i < |pattern| :: pattern[i] == Param(name)
    ensures r.Some? ==> forall i | 0 <= i < |pattern| && pattern[i].Param? && (forall j | 0 <= j < i :: pattern[j] != pattern[i]) ::
      pattern[i].name in r.value && r.value[pattern[i].name] == segments[i]
  {
    if pattern == [] || segments == [] then
      if pattern == [] && segments == [] then Some(map[]) else None
    else
      var rest := Match(pattern[1..], segments[1..]);
      assert SegmentsFit(pattern, segments) <==>
        (match pattern[0]
         case Literal(t) => segments[0] == t
         case Param(_) => segments[0] != "") && SegmentsFit(pattern[1..], segments[1..]) by {
        if SegmentsFit(pattern[1..], segments[1..]) {
          forall i | 1 <= i < |pattern| ensures pattern[i] == pattern[1..][i - 1] && segments[i] == segments[1..][i - 1] { }
        }
      }
      if rest.None? then None
      else match pattern[0]
        case Literal(t) => if segments[0] == t then rest else None
        case Param(name) => if segments[0] != "" then Some(rest.value[name := segments[0]]) else None
  }

  datatype Resolution = Redirect(to: seq<string>) | Render(page: Page, params: map<string, string>) | NotFound

  /** The index of the first route whose pattern fits the path, or `|routes|` when none does. */
  function FirstFit(routes: seq<Route>, segments: seq<string>): (i: nat)
    ensures i <= |routes|
    ensures forall j | 0 <= j < i :: !SegmentsFit(routes[j].pattern, segments)
    ensures i < |routes| ==> SegmentsFit(routes[i].pattern, segments)
  {
    if routes == [] then 0
    else if Match(routes[0].pattern, segments).Some? then 0
    else
      var i := FirstFit(routes[1..], segments);
      assert forall j | 1 <= j <= i :: routes[j] == routes[1..][j - 1];
      1 + i
  }

  /** The first route whose pattern fits the path decides what happens. */
  function Resolve(routes: seq<Route>, segments: seq<string>): (r: Resolution)
    ensures r.NotFound? <==> forall i | 0 <= i < |routes| :: !SegmentsFit(routes[i].pattern, segments)
    ensures var i := FirstFit(routes, segments);
      && (r.Redirect? ==> routes[i].target == RedirectTo(r.to))
      && (r.Render? ==> routes[i].target.Renders? && r.page == routes[i].target.page
                        && Some(r.params) == Match(routes[i].pattern, segments))
  {
    var i := FirstFit(routes, segments);
    if i == |routes| then NotFound
    else match routes[i].target
      case RedirectTo(to) => Redirect(to)
      case Renders(page) => Render(page, Match(routes[i].pattern, segments).value)
  }

  /** `/` redirects to `/feed`; `/feed` and `/discover` render their pages. */
  lemma StaticRoutes()
    ensures Resolve(ChildRoutes, []) == Redirect(["feed"])
    ensures Resolve(ChildRoutes, ["feed"]) == Render(FeedPage, map[])
    ensures Resolve(ChildRoutes, ["discover"]) == Render(DiscoverPage, map[])
  {
    assert SegmentsFit(ChildRoutes[0].pattern, []);
    assert !SegmentsFit(ChildRoutes[0].pattern, ["feed"]) && SegmentsFit(ChildRoutes[1].pattern, ["feed"]);
    assert ["discover"][0] != ChildRoutes[1].pattern[0].text by { assert "discover"[0] != "feed"[0]; }
    assert !SegmentsFit(ChildRoutes[0].pattern, ["discover"]) && !SegmentsFit(ChildRoutes[1].pattern, ["discover"]);
    assert SegmentsFit(ChildRoutes[2].pattern, ["discover"]);
  }

  /** `/profile/<id>` renders the profile page with `id` as its parameter. */
  lemma ProfileRoute(id: string)
    requires id != ""
    ensures Resolve(ChildRoutes, ["profile", id]) == Render(ProfilePage, map["id" := id])
  {
    var path := ["profile", id];
    assert Match([Param("id")], [id]) == Some(map["id" := id]) by {
      assert Match([Param("id")][1..], [id][1..]) == Some(map[]);
    }
    assert Match(ChildRoutes[3].pattern, path) == Some(map["id" := id]) by {
      assert ChildRoutes[3].pattern[1..] == [Param("id")] && path[1..] == [id];
    }
    assert !SegmentsFit(ChildRoutes[0].pattern, path);
    assert !SegmentsFit(ChildRoutes[1].pattern, path);
    assert !SegmentsFit(ChildRoutes[2].pattern, path);
    assert FirstFit(ChildRoutes, path) == 3;
  }

  /**
   * No path fits two child routes, so taking the first fitting route agrees with
   * ranking the routes by specificity.
   */
  lemma RoutesDisjoint(segments: seq<string>, i: nat, j: nat)
    requires i < j < |ChildRoutes|
    ensures !(SegmentsFit(ChildRoutes[i].pattern, segments) && SegmentsFit(ChildRoutes[j].pattern, segments))
  {
    if i == 1 && j == 2 && SegmentsFit(ChildRoutes[1].pattern, segments) {
      assert segments[0] == "feed";
      assert "feed"[0] != "discover"[0];
      assert !SegmentsFit(ChildRoutes[2].pattern, segments);
    }
  }

  /** The only redirect lands on a page: no path redirects twice. */
  lemma RedirectLandsOnPage(segments: seq<string>)
    ensures Resolve(ChildRoutes, segments).Redirect? ==> Resolve(ChildRoutes, Resolve(ChildRoutes, segments).to).Render?
  {
    var r := Resolve(ChildRoutes, segments);
    if r.Redirect? {
      assert r.to == ["feed"];
      StaticRoutes();
    }
  }
}
