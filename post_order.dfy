/**
 * The order in which the feed is shown: `useGetAllPosts` copies the actor's
 * list and sorts it with a comparator on `timestamp`, newest first.
 */
module PostOrder {
  import opened Domain

  /** The comparator handed to `sort`: negative puts `a` first, positive puts `b` first, 0 on a tie. */
  function CompareNewestFirst(a: Post, b: Post): (c: int)
    ensures c < 0 <==> a.timestamp > b.timestamp
    ensures c > 0 <==> a.timestamp < b.timestamp
    ensures c == 0 <==> a.timestamp == b.timestamp
    ensures -1 <= c <= 1
  {
    if a.timestamp > b.timestamp then -1
    else if a.timestamp < b.timestamp then 1
    else 0
  }

  /** No post is placed after one that the comparator says must come later. */
  predicate NewestFirst(s: seq<Post>) {
    forall i, j | 0 <= i < j < |s| :: s[i].timestamp >= s[j].timestamp
  }

  /** Sorted means the comparator never asks for two posts of the list to be swapped. */
  lemma NewestFirstIffComparatorAgrees(s: seq<Post>)
    ensures NewestFirst(s) <==> forall i, j | 0 <= i < j < |s| :: CompareNewestFirst(s[i], s[j]) <= 0
  {
  }

  /** Places `p` into a sorted list, ahead of the posts it ties with. */
  function Insert(p: Post, s: seq<Post>): (r: seq<Post>)
    requires NewestFirst(s)
    ensures NewestFirst(r)
    ensures multiset(r) == multiset(s) + multiset{p}
    ensures |r| == |s| + 1
  {
    if s == [] || s[0].timestamp <= p.timestamp then
      [p] + s
    else
      var rest := Insert(p, s[1..]);
      assert s == [s[0]] + s[1..];
      assert forall k | 0 <= k < |rest| :: rest[k].timestamp <= s[0].timestamp by {
        forall k | 0 <= k < |rest| ensures rest[k].timestamp <= s[0].timestamp {
          assert rest[k] in multiset(rest);
          if rest[k] != p {
            assert rest[k] in multiset(s[1..]);
            var m :| 0 <= m < |s[1..]| && s[1..][m] == rest[k];
            assert s[m + 1] == rest[k];
          }
        }
      }
      [s[0]] + rest
  }

  /** `[...posts].sort(CompareNewestFirst)`: the same posts, newest first. */
  function SortNewestFirst(s: seq<Post>): (r: seq<Post>)
    ensures NewestFirst(r)
    ensures multiset(r) == multiset(s)
    ensures |r| == |s|
  {
    if s == [] then []
    else
      assert s == [s[0]] + s[1..];
      Insert(s[0], SortNewestFirst(s[1..]))
  }

  /** The head of a sorted list is at least as new as any post in it. */
  lemma HeadIsNewest(r: seq<Post>, x: Post)
    requires NewestFirst(r) && x in multiset(r)
    ensures r[0].timestamp >= x.timestamp
  {
    var i :| 0 <= i < |r| && r[i] == x;
  }

  /** Removing one post from a sorted list leaves it sorted. */
  lemma RemoveKeepsNewestFirst(r: seq<Post>, i: nat)
    requires NewestFirst(r) && i < |r|
    ensures NewestFirst(r[..i] + r[i + 1..])
  {
    var t := r[..i] + r[i + 1..];
    forall a, b | 0 <= a < b < |t| ensures t[a].timestamp >= t[b].timestamp {
      var a' := if a < i then a else a + 1;
      var b' := if b < i then b else b + 1;
      assert t[a] == r[a'] && t[b] == r[b'];
    }
  }

  /** Taking the same post out of two arrangements of one multiset leaves equal multisets. */
  lemma RemoveSameFromBoth(r: seq<Post>, r': seq<Post>, i: nat)
    requires multiset(r) == multiset(r') && r != [] && i < |r'| && r'[i] == r[0]
    ensures multiset(r[1..]) == multiset(r'[..i] + r'[i + 1..])
  {
    assert r' == r'[..i] + [r'[i]] + r'[i + 1..];
    assert r == [r[0]] + r[1..];
    calc {
      multiset(r[1..]) + multiset{r[0]};
      multiset(r);
      multiset(r');
      multiset(r'[..i]) + multiset{r'[i]} + multiset(r'[i + 1..]);
      multiset(r'[..i] + r'[i + 1..]) + multiset{r[0]};
    }
    var a, b := multiset(r[1..]), multiset(r'[..i] + r'[i + 1..]);
    assert a == (a + multiset{r[0]}) - multiset{r[0]};
    assert b == (b + multiset{r[0]}) - multiset{r[0]};
  }

  /** Two sorted arrangements of the same posts agree on their timestamps, position by position. */
  lemma {:induction false} SortedTimestampsUnique(r: seq<Post>, r': seq<Post>, k: nat)
    requires NewestFirst(r) && NewestFirst(r') && multiset(r) == multiset(r')
    requires k < |r|
    ensures |r'| == |r| && r[k].timestamp == r'[k].timestamp
  {
    assert |r| == |multiset(r)| == |r'|;
    assert r[0] in multiset(r');
    assert r'[0] in multiset(r);
    HeadIsNewest(r', r[0]);
    HeadIsNewest(r, r'[0]);
    if k > 0 {
      // take r[0] out of both sides; what is left is again one multiset, sorted twice
      var i :| 0 <= i < |r'| && r'[i] == r[0];
      var t := r'[..i] + r'[i + 1..];
      RemoveKeepsNewestFirst(r', i);
      RemoveSameFromBoth(r, r', i);
      SortedTimestampsUnique(r[1..], t, k - 1);
      if k - 1 < i {
        // positions k-1 .. i of r' all carry the newest timestamp
        assert t[k - 1] == r'[k - 1];
        assert r'[k - 1].timestamp >= r'[k].timestamp >= r'[i].timestamp;
      } else {
        assert t[k - 1] == r'[k];
      }
    }
  }

  /** Whatever order the actor returns, the sorted feed's timestamps are determined. */
  lemma SortDeterminesTimestamps(s: seq<Post>, r: seq<Post>, k: nat)
    requires NewestFirst(r) && multiset(r) == multiset(s) && k < |r|
    ensures k < |SortNewestFirst(s)| && SortNewestFirst(s)[k].timestamp == r[k].timestamp
  {
    SortedTimestampsUnique(r, SortNewestFirst(s), k);
  }

  /** Posts stamped 100, 300 and 200 come out as 300, 200, 100. */
  lemma ThreePostsExample(a: Post, b: Post, c: Post)
    requires a.timestamp == 100 && b.timestamp == 300 && c.timestamp == 200
    ensures SortNewestFirst([a, b, c]) == [b, c, a]
  {
    SortTwo(b, c);
    InsertBehindTwo(a, b, c);
    assert [a, b, c][1..] == [b, c];
  }

  lemma SortTwo(b: Post, c: Post)
    requires b.timestamp > c.timestamp
    ensures SortNewestFirst([b, c]) == [b, c]
  {
    assert [c][1..] == [];
    assert SortNewestFirst([c]) == [c];
    assert [b, c][1..] == [c];
  }

  lemma InsertBehindTwo(p: Post, b: Post, c: Post)
    requires b.timestamp > c.timestamp > p.timestamp
    ensures NewestFirst([b, c]) && Insert(p, [b, c]) == [b, c, p]
  {
    assert [c][1..] == [];
    assert Insert(p, [c]) == [c, p];
    assert [b, c][1..] == [c];
  }
}
