/** A member's page: their profile and the posts they wrote, taken from the feed. */
module ProfilePage {
  import opened Domain
  import opened Text
  import opened Sequences
  import opened PostOrder
  import opened PostCard

  /** `posts.filter((p) => p.author.toString() === id)` */
  function PostsBy(posts: seq<Post>, id: string): (r: seq<Post>)
    ensures forall p | p in r :: p.author.text == id
    ensures Subsequence(r, posts)
    ensures forall p :: multiset(r)[p] == if p.author.text == id then multiset(posts)[p] else 0
  {
    if posts == [] then []
    else
      var rest := PostsBy(posts[1..], id);
      assert posts == [posts[0]] + posts[1..];
      if posts[0].author.text == id then [posts[0]] + rest else rest
  }

  /** `allPosts?.filter(...) ?? []`: `[]` while the feed is not loaded. */
  function UserPosts(allPosts: Option<seq<Post>>, id: string): (r: seq<Post>)
    ensures allPosts.None? ==> r == []
    ensures forall p | p in r :: p.author.text == id
    ensures allPosts.Some? ==> Subsequence(r, allPosts.value)
    ensures allPosts.Some? ==> forall p | p in allPosts.value && p.author.text == id :: p in r
    ensures allPosts.Some? ==> forall p :: multiset(r)[p] == if p.author.text == id then multiset(allPosts.value)[p] else 0
  {
    match allPosts
    case None => []
    case Some(posts) =>
      var r := PostsBy(posts, id);
      assert forall p | p in posts && p.author.text == id :: multiset(r)[p] > 0;
      r
  }

  /** A subsequence of a newest-first list is newest first. */
  lemma {:induction false} SubsequenceKeepsNewestFirst(r: seq<Post>, s: seq<Post>)
    requires Subsequence(r, s) && NewestFirst(s)
    ensures NewestFirst(r)
    decreases |s|
  {
    if r != [] && s != [] {
      if r[0] == s[0] {
        SubsequenceKeepsNewestFirst(r[1..], s[1..]);
        SubsequenceMembers(r[1..], s[1..]);
        forall j | 0 < j < |r| ensures r[0].timestamp >= r[j].timestamp {
          assert r[j] == r[1..][j - 1];
          assert r[j] in r[1..];
          var m :| 0 <= m < |s[1..]| && s[1..][m] == r[j];
          assert s[m + 1] == r[j];
        }
      } else {
        SubsequenceKeepsNewestFirst(r, s[1..]);
      }
    }
  }

  /** Since the feed is newest first, so is a member's list of posts. */
  lemma UserPostsNewestFirst(allPosts: seq<Post>, id: string)
    requires NewestFirst(allPosts)
    ensures NewestFirst(UserPosts(Some(allPosts), id))
  {
    SubsequenceKeepsNewestFirst(UserPosts(Some(allPosts), id), allPosts);
  }

  /** `identity?.getPrincipal().toString() === id`: the signed-in principal is the one the page shows. */
  predicate IsOwnProfile(identity: Option<Principal>, id: string)
    ensures IsOwnProfile(identity, id) <==> identity == Some(Principal(id))
  {
    identity.Some? && identity.value.text == id
  }

  datatype ProfileScreen = ProfileSkeleton | ProfileNotFound | ProfileShown(profile: Profile)

  /** Loading first, then 'Profile Not Found' for `undefined` or `null`, else the profile. */
  function Screen(profileLoading: bool, profile: Option<Option<Profile>>): (s: ProfileScreen)
    ensures profileLoading <==> s.ProfileSkeleton?
    ensures s.ProfileNotFound? <==> !profileLoading && (profile.None? || profile.value.None?)
    ensures s.ProfileShown? ==> profile == Some(Some(s.profile))
  {
    if profileLoading then ProfileSkeleton
    else match profile
      case Some(Some(p)) => ProfileShown(p)
      case _ => ProfileNotFound
  }

  /** `({userPosts.length})` in the posts header. */
  function PostCountLabel(userPosts: seq<Post>): (s: string)
    ensures |s| >= 3 && s[0] == '(' && s[|s| - 1] == ')'
    ensures (forall i | 1 <= i < |s| - 1 :: '0' <= s[i] <= '9') && DigitsValue(s[1..|s| - 1]) == |userPosts|
  {
    NatToStringRoundTrip(|userPosts|);
    var s := "(" + NatToString(|userPosts|) + ")";
    assert s[1..|s| - 1] == NatToString(|userPosts|);
    s
  }

  /** `· {n} reply` / `· {n} replies`, only when the post has replies. */
  function ReplySuffix(n: nat): (s: Option<string>)
    ensures s.None? <==> n == 0
    ensures s.Some? ==> var k := |NatToString(n)|;
      && 2 + k < |s.value|
      && s.value[..2] == "· "
      && (forall i | 2 <= i < 2 + k :: '0' <= s.value[i] <= '9')
      && DigitsValue(s.value[2..2 + k]) == n
      && (s.value[2 + k..] == " reply" <==> n == 1)
      && (s.value[2 + k..] == " replies" <==> n > 1)
  {
    if n == 0 then None
    else
      var k := |NatToString(n)|;
      var count := ReplyCountLabel(n);
      var s := "· " + count;
      assert s[..2] == "· ";
      assert s[2..2 + k] == count[..k];
      assert s[2 + k..] == count[k..];
      Some(s)
  }

  datatype PostsSection = PostsSkeleton | NoPosts(message: string) | PostList(posts: seq<Post>)

  /** The posts section: skeletons while loading, then a message for none, else the list. */
  function Section(postsLoading: bool, userPosts: seq<Post>, identity: Option<Principal>, id: string): (s: PostsSection)
    ensures postsLoading <==> s.PostsSkeleton?
    ensures s.NoPosts? ==>
      |userPosts| == 0 && s.message == (if IsOwnProfile(identity, id) then "You haven't posted anything yet." else "No posts yet.")
    ensures s.NoPosts? && identity.None? ==> s.message == "No posts yet."
    ensures s.PostList? ==> s.posts == userPosts && |userPosts| > 0
  {
    if postsLoading then PostsSkeleton
    else if |userPosts| == 0 then
      NoPosts(if IsOwnProfile(identity, id) then "You haven't posted anything yet." else "No posts yet.")
    else PostList(userPosts)
  }
}
