/** The summary card of a profile in the discovery results. */
module ProfileCard {
  import opened Domain
  import opened Text

  const MaxShown := 4

  /** `interests.slice(0, 4)` */
  function ShownInterests(interests: seq<string>): (r: seq<string>)
    ensures |r| == if |interests| <= MaxShown then |interests| else MaxShown
    ensures forall i | 0 <= i < |r| :: r[i] == interests[i]
  {
    if |interests| <= MaxShown then interests else interests[..MaxShown]
  }

  /** The N of '+N more', present only when interests are hidden. */
  function HiddenCount(interests: seq<string>): (n: Option<nat>)
    ensures n.Some? <==> |interests| > MaxShown
    ensures n.Some? ==> n.value > 0 && |ShownInterests(interests)| + n.value == |interests|
  {
    if |interests| > MaxShown then Some(|interests| - MaxShown) else None
  }

  /** `+{n} more` */
  function MoreText(n: nat): (s: string)
    ensures var k := |NatToString(n)|;
      && |s| == k + 6 && s[0] == '+' && s[k + 1..] == " more"
      && (forall i | 1 <= i < k + 1 :: '0' <= s[i] <= '9')
      && DigitsValue(s[1..k + 1]) == n
  {
    NatToStringRoundTrip(n);
    var s := "+" + NatToString(n) + " more";
    assert s[1..|NatToString(n)| + 1] == NatToString(n);
    s
  }

  /** What a card shows besides the name and join date. */
  datatype CardView = CardView(linkId: string, bio: Option<string>, shownInterests: seq<string>, hidden: Option<nat>)

  /**
   * The card links to `/profile/<principal>`, shows the bio only when it is
   * non-empty, and shows the first four interests followed by '+N more' for
   * the rest; a profile without interests has no interests block.
   */
  function View(p: Profile): (v: CardView)
    ensures v.linkId == p.id.text
    ensures v.bio.Some? <==> p.bio != ""
    ensures v.bio.Some? ==> v.bio.value == p.bio
    ensures v.shownInterests == [] <==> p.interests == []
    ensures |v.shownInterests| <= MaxShown && |v.shownInterests| <= |p.interests|
    ensures v.shownInterests + p.interests[|v.shownInterests|..] == p.interests
    ensures v.hidden.Some? <==> |p.interests| > MaxShown
    ensures |v.shownInterests| + (if v.hidden.Some? then v.hidden.value else 0) == |p.interests|
  {
    var shown := ShownInterests(p.interests);
    assert shown == p.interests[..|shown|];
    CardView(p.id.text, if p.bio == "" then None else Some(p.bio), shown, HiddenCount(p.interests))
  }
}
