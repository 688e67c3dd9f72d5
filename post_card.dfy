/** A post in the feed: author, relative time, content, and a collapsible list of replies. */
module PostCard {
  import opened Domain
  import opened Text
  import opened RelativeTime

  /** `length === 1 ? 'reply' : 'replies'` */
  function ReplyNoun(n: nat): (s: string)
    ensures s == "reply" <==> n == 1
    ensures s == "replies" <==> n != 1
  {
    if n == 1 then "reply" else "replies"
  }

  /** `{n} reply` / `{n} replies` on the toggle button. */
  function ReplyCountLabel(n: nat): (s: string)
    ensures var k := |NatToString(n)|;
      && k < |s|
      && (forall i | 0 <= i < k :: '0' <= s[i] <= '9')
      && DigitsValue(s[..k]) == n
      && (s[k..] == " reply" <==> n == 1)
      && (s[k..] == " replies" <==> n != 1)
  {
    NatToStringRoundTrip(n);
    var digits := NatToString(n);
    var tail := " " + ReplyNoun(n);
    assert |" reply"| != |" replies"|;
    var s := digits + tail;
    assert s[..|digits|] == digits;
    assert s[|digits|..] == tail;
    s
  }

  /**
   * The author's name: a skeleton (None) while the profile lookup loads,
   * then `profile?.displayName ?? 'Anonymous'`, where `data` is `undefined`
   * (None) or the profile-or-null.
   */
  function AuthorName(isLoading: bool, data: Option<Option<Profile>>): (s: Option<string>)
    ensures s.None? <==> isLoading
    ensures !isLoading && data.Some? && data.value.Some? ==> s == Some(data.value.value.displayName)
    ensures !isLoading && (data.None? || data.value.None?) ==> s == Some("Anonymous")
  {
    if isLoading then None
    else match data
      case Some(Some(p)) => Some(p.displayName)
      case _ => Some("Anonymous")
  }

  /** What a card derives from its post, at a given time. */
  datatype CardView = CardView(
    authorLinkId: string,
    time: TimeLabel,
    replyCount: string,
    replyAuthorIds: seq<string>,
    replyTimes: seq<TimeLabel>)

  /**
   * The card links the author's name to the author's profile, labels the
   * post with its relative time, counts its replies on the toggle button,
   * and gives every reply its author link and relative time, in order.
   */
  function View(post: Post, nowMs: int): (v: CardView)
    ensures v.authorLinkId == post.author.text
    ensures v.time == FormatTime(post.timestamp, nowMs)
    ensures var k := |NatToString(|post.replies|)|;
      && k < |v.replyCount|
      && (forall i | 0 <= i < k :: '0' <= v.replyCount[i] <= '9')
      && DigitsValue(v.replyCount[..k]) == |post.replies|
      && (v.replyCount[k..] == " reply" <==> |post.replies| == 1)
      && (v.replyCount[k..] == " replies" <==> |post.replies| != 1)
    ensures |v.replyAuthorIds| == |v.replyTimes| == |post.replies|
    ensures forall i | 0 <= i < |post.replies| ::
      v.replyAuthorIds[i] == post.replies[i].author.text && v.replyTimes[i] == FormatTime(post.replies[i].timestamp, nowMs)
  {
    CardView(
      post.author.text,
      FormatTime(post.timestamp, nowMs),
      ReplyCountLabel(|post.replies|),
      seq(|post.replies|, i requires 0 <= i < |post.replies| => post.replies[i].author.text),
      seq(|post.replies|, i requires 0 <= i < |post.replies| => FormatTime(post.replies[i].timestamp, nowMs)))
  }

  /** The reply form shows inside the expanded section, for a signed-in reader only. */
  predicate ShowsReplyForm(expanded: bool, isAuthenticated: bool) {
    expanded && isAuthenticated
  }

  /** 'Login to add a reply.' */
  predicate ShowsLoginHint(expanded: bool, isAuthenticated: bool) {
    expanded && !isAuthenticated
  }

  /** 'No replies yet. Be the first to respond!' */
  predicate ShowsNoRepliesYet(expanded: bool, post: Post) {
    expanded && |post.replies| == 0
  }

  /** A collapsed card shows neither the replies nor the reply form, and an expanded one shows exactly one of the form and the hint. */
  lemma ReplySectionGating(expanded: bool, isAuthenticated: bool, post: Post)
    ensures !expanded ==>
      !ShowsReplyForm(expanded, isAuthenticated) && !ShowsLoginHint(expanded, isAuthenticated) && !ShowsNoRepliesYet(expanded, post)
    ensures expanded ==> (ShowsReplyForm(expanded, isAuthenticated) != ShowsLoginHint(expanded, isAuthenticated))
  {
  }

  class Card {
    const post: Post
    var expanded: bool

    constructor(post: Post)
      ensures this.post == post && !expanded
    {
      this.post := post;
      expanded := false;
    }

    /** The reply button: `setExpanded(!expanded)`. */
    method ToggleReplies()
      modifies this
      ensures expanded == !old(expanded)
    {
      expanded := !expanded;
    }
  }
}
