/** The navigation bar: login and logout, the mobile menu, and the link to the member's own profile. */
module NavBar {
  import opened Domain
  import opened Queries
  import App
  import Profiles = ProfilePage

  /** The observable steps of a login or logout, in the order they happen. */
  datatype Effect = LoginStarted | IdentityCleared | CacheCleared | NavigatedTo(path: string) | MenuClosed

  const LogoutTarget := "/feed"

  class Bar {
    /** The signed-in identity's principal, as the identity provider reports it. */
    var identity: Option<Principal>
    var mobileOpen: bool
    var effects: seq<Effect>

    constructor(identity: Option<Principal>)
      ensures this.identity == identity && !mobileOpen && effects == []
    {
      this.identity := identity;
      mobileOpen := false;
      effects := [];
    }

    /**
     * Logout: the identity is cleared first, then every cached query is
     * dropped, then the app goes to the feed, and the menu closes.
     */
    method Logout(client: QueryClient)
      modifies this, client
      ensures identity.None? && !mobileOpen
      ensures client.entries == map[]
      ensures effects == old(effects) + [IdentityCleared, CacheCleared, NavigatedTo(LogoutTarget), MenuClosed]
    {
      identity := None;
      effects := effects + [IdentityCleared];
      client.Clear();
      effects := effects + [CacheCleared];
      effects := effects + [NavigatedTo(LogoutTarget)];
      mobileOpen := false;
      effects := effects + [MenuClosed];
    }

    /** Login starts the identity provider's flow and closes the menu; the identity arrives later. */
    method Login()
      modifies this
      ensures identity == old(identity) && !mobileOpen
      ensures effects == old(effects) + [LoginStarted, MenuClosed]
    {
      effects := effects + [LoginStarted];
      mobileOpen := false;
      effects := effects + [MenuClosed];
    }

    /** The menu button flips the mobile menu. */
    method ToggleMenu()
      modifies this
      ensures mobileOpen == !old(mobileOpen)
      ensures identity == old(identity) && effects == old(effects)
    {
      mobileOpen := !mobileOpen;
    }

    /** Following a link inside the mobile menu closes it. */
    method FollowMobileLink()
      modifies this
      ensures !mobileOpen
      ensures identity == old(identity) && effects == old(effects)
    {
      mobileOpen := false;
    }
  }

  /** The own-profile link appears only for a signed-in identity with a non-empty principal text, and points to it. */
  function OwnProfileLink(identity: Option<Principal>): (id: Option<string>)
    ensures id.Some? <==> identity.Some? && identity.value.text != ""
    ensures id.Some? ==> id.value == identity.value.text
  {
    if identity.Some? && identity.value.text != "" then Some(identity.value.text) else None
  }

  /** `userProfile?.displayName ?? 'My Profile'` */
  function OwnProfileLabel(userProfile: Option<Option<Profile>>): (s: string)
    ensures userProfile.Some? && userProfile.value.Some? ==> s == userProfile.value.value.displayName
    ensures userProfile.None? || userProfile.value.None? ==> s == "My Profile"
  {
    match userProfile
    case Some(Some(p)) => p.displayName
    case _ => "My Profile"
  }

  /** The login button: 'Connecting...' and disabled while the login is in progress. */
  function LoginButtonLabel(isLoggingIn: bool): (s: string)
    ensures s == "Connecting..." <==> isLoggingIn
    ensures s == "Join the Tribe" <==> !isLoggingIn
  {
    if isLoggingIn then "Connecting..." else "Join the Tribe"
  }

  /** After logout the own-profile link is gone and its label falls back, since the cache is empty. */
  lemma LogoutHidesOwnProfile()
    ensures OwnProfileLink(None).None?
    ensures OwnProfileLabel(CallerProfileData(map[])) == "My Profile"
  {
  }

  /** The own-profile link opens the profile page, and that page recognises the visitor as its owner. */
  lemma OwnLinkOpensOwnProfile(identity: Option<Principal>)
    requires OwnProfileLink(identity).Some?
    ensures var id := OwnProfileLink(identity).value;
      && App.Resolve(App.ChildRoutes, ["profile", id]) == App.Render(App.ProfilePage, map["id" := id])
      && Profiles.IsOwnProfile(identity, id)
  {
    App.ProfileRoute(OwnProfileLink(identity).value);
  }
}
