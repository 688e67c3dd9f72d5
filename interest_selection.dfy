/**
 * The interest picker shared by the discovery page and the profile set-up
 * dialog: clicking an interest removes it if it is selected and appends it
 * otherwise.
 */
module InterestSelection {
  import opened Sequences

  /** `prev.filter((i) => i !== x)` */
  function Without(s: seq<string>, x: string): (r: seq<string>)
    ensures x !in r
    ensures Subsequence(r, s)
    ensures multiset(r) == multiset(s)[x := 0]
    ensures x !in s ==> r == s
  {
    if s == [] then []
    else
      var rest := Without(s[1..], x);
      assert s == [s[0]] + s[1..];
      if s[0] == x then rest
      else [s[0]] + rest
  }

  /** `prev.includes(x) ? prev.filter((i) => i !== x) : [...prev, x]` */
  function Toggle(s: seq<string>, x: string): (r: seq<string>)
    ensures x in s ==> x !in r && Subsequence(r, s) && multiset(r) == multiset(s)[x := 0]
    ensures x !in s ==> r == s + [x]
  {
    if x in s then Without(s, x) else s + [x]
  }

  /** Toggling an absent interest twice gives back the original selection. */
  lemma {:induction false} ToggleTwiceRestores(s: seq<string>, x: string)
    requires x !in s
    ensures Toggle(Toggle(s, x), x) == s
  {
    WithoutAppended(s, x);
  }

  lemma {:induction false} WithoutAppended(s: seq<string>, x: string)
    requires x !in s
    ensures Without(s + [x], x) == s
  {
    if s != [] {
      assert (s + [x])[1..] == s[1..] + [x];
      WithoutAppended(s[1..], x);
    }
  }

  /** No interest is selected twice. */
  predicate NoDuplicates(s: seq<string>) {
    forall i, j | 0 <= i < j < |s| :: s[i] != s[j]
  }

  /** A subsequence of a list without duplicates has none either. */
  lemma {:induction false} SubsequenceNoDuplicates(r: seq<string>, s: seq<string>)
    requires Subsequence(r, s) && NoDuplicates(s)
    ensures NoDuplicates(r)
    decreases |s|
  {
    if r != [] && s != [] {
      if r[0] == s[0] {
        SubsequenceNoDuplicates(r[1..], s[1..]);
        SubsequenceMembers(r[1..], s[1..]);
        assert s[0] !in s[1..];
        forall j | 0 < j < |r| ensures r[0] != r[j] {
          assert r[j] == r[1..][j - 1];
        }
      } else {
        SubsequenceNoDuplicates(r, s[1..]);
      }
    }
  }

  /** Toggling keeps a selection free of duplicates. */
  lemma ToggleKeepsNoDuplicates(s: seq<string>, x: string)
    requires NoDuplicates(s)
    ensures NoDuplicates(Toggle(s, x))
  {
    if x in s {
      SubsequenceNoDuplicates(Toggle(s, x), s);
    }
  }

  /** The selection after clicking `clicks` in order, starting from `s`. */
  function ToggleAll(s: seq<string>, clicks: seq<string>): seq<string>
    decreases |clicks|
  {
    if clicks == [] then s else ToggleAll(Toggle(s, clicks[0]), clicks[1..])
  }

  /** From a selection without duplicates, no sequence of clicks selects an interest twice. */
  lemma {:induction false} ClicksNeverDuplicate(s: seq<string>, clicks: seq<string>)
    requires NoDuplicates(s)
    ensures NoDuplicates(ToggleAll(s, clicks))
    decreases |clicks|
  {
    if clicks != [] {
      ToggleKeepsNoDuplicates(s, clicks[0]);
      ClicksNeverDuplicate(Toggle(s, clicks[0]), clicks[1..]);
    }
  }
}
