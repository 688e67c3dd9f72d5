/**
 * The discovery page: the reader picks interests and, once signed in, sees
 * the profiles that share them.
 */
module DiscoverPage {
  import opened Domain
  import opened Text
  import opened Queries
  import opened InterestSelection

  /** The list handed to the lookup hook: the selection when signed in, `[]` otherwise. */
  function LookupArgument(isAuthenticated: bool, selected: seq<string>): (r: seq<string>)
    ensures !isAuthenticated ==> r == []
    ensures isAuthenticated ==> r == selected
  {
    if isAuthenticated then selected else []
  }

  /** Signed out, no lookup is ever enabled, whatever is selected. */
  lemma SignedOutNoLookup(selected: seq<string>, env: Env)
    ensures !Enabled(DiscoverKey(LookupArgument(false, selected)), env)
  {
  }

  /** Signed in with a ready actor, 'Clear all filters' shows exactly when the lookup runs. */
  lemma ClearAllShownIffLookupEnabled(selected: seq<string>, env: Env)
    requires ActorReady(env)
    ensures ShowsClearAll(selected) <==> Enabled(DiscoverKey(LookupArgument(true, selected)), env)
  {
  }

  // Each panel is shown under its own condition, as the page writes them.

  /** 'Clear all filters' */
  predicate ShowsClearAll(selected: seq<string>) {
    |selected| > 0
  }

  /** 'Login to Discover Devotees' */
  predicate ShowsLoginGate(isAuthenticated: bool) {
    !isAuthenticated
  }

  /** 'Select your spiritual interests' */
  predicate ShowsPrompt(isAuthenticated: bool, selected: seq<string>) {
    isAuthenticated && |selected| == 0
  }

  /** The loading skeletons. */
  predicate ShowsSkeletons(isAuthenticated: bool, selected: seq<string>, isLoading: bool) {
    isAuthenticated && |selected| > 0 && isLoading
  }

  /** 'No devotees found yet' (`profiles?.length === 0`). */
  predicate ShowsNoResults(isAuthenticated: bool, selected: seq<string>, isLoading: bool, profiles: Option<seq<Profile>>) {
    isAuthenticated && |selected| > 0 && !isLoading && profiles.Some? && |profiles.value| == 0
  }

  /** The result grid and its header. */
  predicate ShowsResults(isAuthenticated: bool, selected: seq<string>, isLoading: bool, profiles: Option<seq<Profile>>) {
    isAuthenticated && |selected| > 0 && !isLoading && profiles.Some? && |profiles.value| > 0
  }

  /** At most one of the page's panels is shown at a time. */
  lemma PanelsExclusive(isAuthenticated: bool, selected: seq<string>, isLoading: bool, profiles: Option<seq<Profile>>)
    ensures var shown := [
        ShowsLoginGate(isAuthenticated),
        ShowsPrompt(isAuthenticated, selected),
        ShowsSkeletons(isAuthenticated, selected, isLoading),
        ShowsNoResults(isAuthenticated, selected, isLoading, profiles),
        ShowsResults(isAuthenticated, selected, isLoading, profiles)];
      forall i, j | 0 <= i < j < |shown| :: !(shown[i] && shown[j])
  {
  }

  /** `{n} devotee found` / `{n} devotees found` */
  function ResultsHeader(n: nat): (s: string)
    ensures var k := |NatToString(n)|;
      && k < |s|
      && (forall i | 0 <= i < k :: '0' <= s[i] <= '9')
      && DigitsValue(s[..k]) == n
      && (s[k..] == " devotee found" <==> n == 1)
      && (s[k..] == " devotees found" <==> n != 1)
  {
    NatToStringRoundTrip(n);
    var digits := NatToString(n);
    var tail := if n == 1 then " devotee found" else " devotees found";
    assert |" devotee found"| != |" devotees found"|;
    var s := digits + tail;
    assert s[..|digits|] == digits;
    assert s[|digits|..] == tail;
    s
  }

  class Page {
    var selectedInterests: seq<string>

    constructor()
      ensures selectedInterests == [] && !ShowsClearAll(selectedInterests)
      ensures NoDuplicates(selectedInterests)
    {
      selectedInterests := [];
    }

    /** Clicking an interest tag. */
    method ToggleInterest(interest: string)
      requires NoDuplicates(selectedInterests)
      modifies this
      ensures selectedInterests == Toggle(old(selectedInterests), interest)
      ensures NoDuplicates(selectedInterests)
    {
      ToggleKeepsNoDuplicates(selectedInterests, interest);
      selectedInterests := Toggle(selectedInterests, interest);
    }

    /** 'Clear all filters' */
    method ClearAll()
      modifies this
      ensures selectedInterests == [] && !ShowsClearAll(selectedInterests)
      ensures NoDuplicates(selectedInterests)
    {
      selectedInterests := [];
    }
  }

  /** A page whose selection started empty and was only ever toggled holds no interest twice. */
  lemma PageSelectionNoDuplicates(clicks: seq<string>)
    ensures NoDuplicates(ToggleAll([], clicks))
  {
    ClicksNeverDuplicate([], clicks);
  }
}
