# Tribes Of Rudra web client — a Dafny model of its data layer and forms

The client is a React single-page app for a small community site: members
post messages, reply to posts, set up a profile with spiritual interests,
and find other members who share them. It talks to a remote backend actor
through react-query hooks.

This project models, in Dafny:

- **the data-sync layer** (`useQueries.ts`): the query keys, the `enabled`
  condition of every read, the query functions (the newest-first sort of the
  feed, the short-circuits to `[]`, `null` for any failed profile lookup, the
  'Actor not available' error), the mutation functions, the families each
  mutation's `onSuccess` invalidates, and a query cache (`QueryClient`)
  whose reads, invalidations, mutations and `clear` are methods over a map
  of entries;
- **the pure helpers of the views**: the author filter of the profile page,
  the interest toggle, the relative-time buckets of `formatTime`, the
  truncation of a card's interests to four plus '+N more', the
  profile-setup gate of the layout, and the route table;
- **the submit state machines** of the post composer, the reply form and
  the profile set-up dialog, as classes whose fields are the component's
  state and whose `Submit` methods call the cache's `Mutate`;
- **the navigation bar's** ordered logout effects and its mobile menu.

The remote backend is a datatype of answers (`Domain.Backend`): each field
is what one remote call returns, `Ok` or a thrown value. `Principal.fromText`
is a partial function carried in `Queries.Env`. The clock is a parameter
(`nowMs`). Strings are `seq<char>`; `trim` is JavaScript's, with its
whitespace set spelled out in `Text.IsWhitespace`.

Without an actor the feed read gives `[]`, but a failing `getAllPosts` call
rejects the query (useQueries.ts:84-85); the feed page shows that rejection
as 'Failed to load posts' (FeedPage.tsx:223-226), not as an empty feed.

The two `formatTime` functions (PostCard.tsx:29-40 and ProfilePage.tsx:16-25)
are the same function and are modelled once, as `RelativeTime.FormatTime`.

## Model

| member | source | states |
|---|---|---|
| Domain.ReportedMessage | frontend/src/components/CreatePostForm.tsx:19-21 | a caught `Error` is reported by its own message, any other thrown value by the form's fallback text |
| Text.Trim | frontend/src/components/CreatePostForm.tsx:14-16 | the result is the input with leading and trailing JavaScript whitespace removed: only whitespace lies outside it and it neither starts nor ends with whitespace |
| Text.TrimUnique | frontend/src/components/CreatePostForm.tsx:14-16 | any string cut out that way is `Trim`'s result, so `Trim` is the one trim |
| Text.BlankIffAllWhitespace | frontend/src/components/CreatePostForm.tsx:14 | `!s.trim()` holds exactly when every character of `s` is whitespace |
| Text.TrimIdempotent | frontend/src/components/ProfileSetupModal.tsx:55-56 | trimming an already trimmed value changes nothing |
| Text.NatToStringRoundTrip | frontend/src/pages/DiscoverPage.tsx:139 | the decimal rendering of a count reads back as that count |
| PostOrder.CompareNewestFirst | frontend/src/hooks/useQueries.ts:86-90 | the comparator is negative exactly when the first post is newer, positive exactly when older, zero on equal timestamps |
| PostOrder.NewestFirstIffComparatorAgrees | frontend/src/hooks/useQueries.ts:86-90 | a list is newest first exactly when the comparator never puts a later element before an earlier one |
| PostOrder.Insert | frontend/src/hooks/useQueries.ts:86-90 | inserting into a newest-first list keeps it newest first and adds exactly that post |
| PostOrder.SortNewestFirst | frontend/src/hooks/useQueries.ts:86-90 | the sorted feed is newest first and a permutation of the posts the backend returned |
| PostOrder.SortedTimestampsUnique | frontend/src/hooks/useQueries.ts:86-90 | two newest-first permutations of the same posts have the same timestamp at every position |
| PostOrder.SortDeterminesTimestamps | frontend/src/hooks/useQueries.ts:86-90 | any correct sort agrees with this one on the timestamp at every position, so only ties can differ |
| PostOrder.ThreePostsExample | frontend/src/hooks/useQueries.ts:86-90 | posts stamped 100, 300, 200 come out as 300, 200, 100 |
| Queries.Enabled | frontend/src/hooks/useQueries.ts:41 | every read needs a ready actor; the profile read also a non-empty id, the discover read a non-empty interest list (lines 17, 41, 92, 137) |
| Queries.AllPostsFn | frontend/src/hooks/useQueries.ts:83-91 | no actor gives `[]`; a failed call's error is passed through; otherwise the result is the backend's posts, newest first, as a permutation |
| Queries.CallerProfileFn | frontend/src/hooks/useQueries.ts:13-16 | no actor throws 'Actor not available'; otherwise the backend's answer unchanged |
| Queries.ProfileFn | frontend/src/hooks/useQueries.ts:33-40 | the lookup never fails; a profile is returned only when the actor and id exist, the id parses, and the backend returned that profile; every successful backend answer is returned as is |
| Queries.DiscoverFn | frontend/src/hooks/useQueries.ts:133-136 | an empty interest list or a missing actor gives `[]`, otherwise the backend's answer |
| Queries.NoCallNoDependence | frontend/src/hooks/useQueries.ts:34 | a query function that returns before calling the actor gives the same result whatever the backend would answer |
| Queries.ProfileReadNeverErrors | frontend/src/hooks/useQueries.ts:35-39 | the profile read always resolves, to a profile or `null` |
| Queries.EnabledDiscoverCallsActor | frontend/src/hooks/useQueries.ts:134-137 | an enabled discover read never takes the `[]` short-circuit: it always asks the backend |
| Queries.MarkStale | frontend/src/hooks/useQueries.ts:70-71 | invalidation keeps every key and status and marks stale exactly the entries whose first key element is a named family |
| Queries.MarkStaleIdempotent | frontend/src/hooks/useQueries.ts:70-71 | invalidating twice is invalidating once; invalidating no family changes nothing |
| Queries.InvalidatedEntriesRefetch | frontend/src/hooks/useQueries.ts:105-107 | after an invalidation the next enabled read of a matched entry runs its query function again |
| Queries.MutationFn | frontend/src/hooks/useQueries.ts:50-53 | without an actor every mutation throws 'Actor not available'; with one, it makes its remote call |
| Queries.InvalidatesExactlyAffected | frontend/src/hooks/useQueries.ts:45-124 | creating a profile invalidates only the caller's profile, updating one also every profile-by-id entry, creating a post or a reply only the feed; discover results never |
| Queries.AfterMutation | frontend/src/hooks/useQueries.ts:54-56 | a successful mutation leaves exactly the entries it affects stale, a failed one leaves the cache as it was |
| Queries.QueryClient.InvalidateQueries | frontend/src/hooks/useQueries.ts:71 | the cache becomes `MarkStale` of the old cache |
| Queries.QueryClient.Clear | frontend/src/components/NavBar.tsx:21 | the cache is empty afterwards |
| Queries.QueryClient.BeginFetch | frontend/src/hooks/useQueries.ts:92 | a fetch starts exactly when the query is enabled and its entry is missing or stale; only that entry changes, to pending |
| Queries.QueryClient.CompleteFetch | frontend/src/hooks/useQueries.ts:81-93 | a settled result is stored only in an entry still waiting for it |
| Queries.QueryClient.Read | frontend/src/hooks/useQueries.ts:81-93 | a read runs exactly when enabled and needed, stores the query function's settled result and touches no other entry |
| Queries.QueryClient.Mutate | frontend/src/hooks/useQueries.ts:100-108 | the result is the mutation function's, and the cache becomes `AfterMutation` of the old one |
| Queries.CallerProfileData | frontend/src/hooks/useQueries.ts:21-25 | `data` is defined exactly when the caller's profile read has resolved, and is then the resolved profile or `null` |
| Queries.CallerProfilePending | frontend/src/hooks/useQueries.ts:23 | while the caller's first profile read is in flight, `isLoading` holds, `isFetched` does not, and `data` is undefined (`CallerProfileLoading`, `CallerProfileFetched`) |
| Queries.CallerProfileSettled | frontend/src/hooks/useQueries.ts:24 | once the read has settled with a ready actor, `isFetched` holds and `isLoading` does not, and `data` is defined exactly when the backend answered, as that answer |
| InterestSelection.Without | frontend/src/components/ProfileSetupModal.tsx:42 | the filter removes every occurrence of the interest, keeps the others in order and with their counts, and changes nothing when it is absent |
| InterestSelection.Toggle | frontend/src/pages/DiscoverPage.tsx:36-40 | a selected interest is removed, an unselected one appended at the end |
| InterestSelection.ToggleTwiceRestores | frontend/src/pages/DiscoverPage.tsx:36-40 | selecting then deselecting an interest restores the selection |
| InterestSelection.ToggleKeepsNoDuplicates | frontend/src/pages/DiscoverPage.tsx:36-40 | toggling never puts an interest into the selection twice |
| InterestSelection.ClicksNeverDuplicate | frontend/src/pages/DiscoverPage.tsx:36-40 | any sequence of clicks from a duplicate-free selection keeps it duplicate-free |
| RelativeTime.WholeUnits | frontend/src/components/PostCard.tsx:36-38 | `Math.floor(diff / unit)`: the largest whole number of units not above the elapsed time |
| RelativeTime.FormatTime | frontend/src/components/PostCard.tsx:29-40 | each bucket is chosen exactly on its range of elapsed time; minutes are 1..59, hours 1..23, days 1..6, each the floor of the elapsed time; older posts keep their date |
| RelativeTime.FutureIsJustNow | frontend/src/components/PostCard.tsx:35 | a timestamp later than the clock shows 'just now' |
| RelativeTime.LabelTextReadsBack | frontend/src/components/PostCard.tsx:36-38 | the number in 'Nm ago', 'Nh ago', 'Nd ago' reads back as the bucket's count, followed by the unit suffix |
| CreatePostForm.Payload | frontend/src/components/CreatePostForm.tsx:14-16 | whitespace-only content sends nothing; otherwise the trimmed, non-blank content is sent |
| CreatePostForm.EnabledIffSubmitSends | frontend/src/components/CreatePostForm.tsx:44 | with no post in flight the button is enabled exactly when a submit would send |
| CreatePostForm.Form.Edit | frontend/src/components/CreatePostForm.tsx:30 | the text area holds the typed value |
| CreatePostForm.Form.Submit | frontend/src/components/CreatePostForm.tsx:12-23 | blank content changes nothing; otherwise the trimmed content is posted, the cache updated by the mutation's outcome, the content cleared and success shown only on success, and the error reported with the content kept on failure |
| CreatePostForm.Form.KeyDown | frontend/src/components/CreatePostForm.tsx:33-36 | Ctrl/Meta+Enter runs the submit; any other key changes nothing |
| ReplyForm.Payload | frontend/src/components/ReplyForm.tsx:18-20 | whitespace-only content sends nothing; otherwise a reply to this post with the trimmed content |
| ReplyForm.EnabledIffSubmitSends | frontend/src/components/ReplyForm.tsx:41 | with no reply in flight the button is enabled exactly when a submit would send |
| ReplyForm.Form.Edit | frontend/src/components/ReplyForm.tsx:34 | the text area holds the typed value |
| ReplyForm.Form.Submit | frontend/src/components/ReplyForm.tsx:16-27 | as the post composer, with `addReply` on this post and its own fallback message |
| ProfileSetupModal.Payload | frontend/src/components/ProfileSetupModal.tsx:48-58 | a blank display name sends nothing; otherwise a new profile with trimmed name and bio and the selected interests |
| ProfileSetupModal.BlankNameIsReportedNotDisabled | frontend/src/components/ProfileSetupModal.tsx:136 | the join button is disabled only while the creation is in flight, so a blank name reaches the submit, which sends nothing (`SubmitDisabled`) |
| ProfileSetupModal.Modal.EditDisplayName | frontend/src/components/ProfileSetupModal.tsx:93-96 | typing a non-blank name clears the name error; a blank one keeps it |
| ProfileSetupModal.Modal.EditBio | frontend/src/components/ProfileSetupModal.tsx:110 | the bio holds the typed value |
| ProfileSetupModal.Modal.ToggleInterest | frontend/src/components/ProfileSetupModal.tsx:40-44 | the selection becomes its toggle by the clicked interest, and a selection without duplicates keeps none; the other fields are unchanged |
| ProfileSetupModal.JoiningRereadsOwnProfile | frontend/src/hooks/useQueries.ts:54-56 | once a profile has been created, the next read of the caller's profile goes to the backend again, so the set-up gate is decided afresh |
| ProfileSetupModal.Modal.Submit | frontend/src/components/ProfileSetupModal.tsx:46-65 | a blank name sets 'Display name is required.' and calls nothing; otherwise the error is cleared, the profile created, and on success the app moves to the feed, on failure the error is reported; the fields are kept either way |
| DiscoverPage.LookupArgument | frontend/src/pages/DiscoverPage.tsx:32-34 | signed out, the lookup is asked for no interests |
| DiscoverPage.SignedOutNoLookup | frontend/src/pages/DiscoverPage.tsx:32-34 | signed out, the discover read is never enabled |
| DiscoverPage.ClearAllShownIffLookupEnabled | frontend/src/pages/DiscoverPage.tsx:73 | signed in with a ready actor, 'Clear all filters' shows exactly when the discover lookup is enabled (`ShowsClearAll`) |
| DiscoverPage.PanelsExclusive | frontend/src/pages/DiscoverPage.tsx:84-148 | the login gate, the prompt, the skeletons, 'No devotees found yet' and the results never show together |
| DiscoverPage.ResultsHeader | frontend/src/pages/DiscoverPage.tsx:139 | the header starts with the count and says 'devotee found' exactly when there is one |
| DiscoverPage.Page.ToggleInterest | frontend/src/pages/DiscoverPage.tsx:36-40 | the selection becomes its toggle by the clicked interest, and a selection without duplicates keeps none |
| DiscoverPage.Page.ClearAll | frontend/src/pages/DiscoverPage.tsx:75 | the selection is empty (so without duplicates), and the clear-all button disappears |
| DiscoverPage.PageSelectionNoDuplicates | frontend/src/pages/DiscoverPage.tsx:36-40 | the page's selection never holds an interest twice |
| PostCard.ReplyNoun | frontend/src/components/PostCard.tsx:83 | 'reply' exactly for one reply, 'replies' otherwise |
| PostCard.ReplyCountLabel | frontend/src/components/PostCard.tsx:83 | the label's number reads back as the reply count and its noun is singular exactly for one |
| PostCard.AuthorName | frontend/src/components/PostCard.tsx:15-26 | a skeleton while the author's profile loads, then the display name, or 'Anonymous' when there is no profile |
| PostCard.View | frontend/src/components/PostCard.tsx:42-117 | the author link is the author's principal, the time label is `FormatTime` of the post, the toggle's count reads back as the number of replies with the right noun, and every reply gets its own author link and time label, in order |
| PostCard.ReplySectionGating | frontend/src/components/PostCard.tsx:89-112 | a collapsed card shows no replies and no reply form; an expanded one shows exactly one of the reply form and the login hint |
| PostCard.Card.ToggleReplies | frontend/src/components/PostCard.tsx:79 | the reply section flips between collapsed and expanded |
| ProfilePage.PostsBy | frontend/src/pages/ProfilePage.tsx:33 | the filter keeps exactly the posts by that principal, in feed order and with their multiplicities |
| ProfilePage.UserPosts | frontend/src/pages/ProfilePage.tsx:33 | `[]` until the feed is loaded; then every post by the member and only those, each as often as in the feed, in feed order |
| ProfilePage.UserPostsNewestFirst | frontend/src/pages/ProfilePage.tsx:33 | since the feed is newest first, so is the member's list |
| ProfilePage.IsOwnProfile | frontend/src/pages/ProfilePage.tsx:34 | the page is the visitor's own exactly when the signed-in principal is the page's principal |
| ProfilePage.Screen | frontend/src/pages/ProfilePage.tsx:36-61 | loading shows skeletons; then 'Profile Not Found' for a missing or `null` profile, else the profile |
| ProfilePage.PostCountLabel | frontend/src/pages/ProfilePage.tsx:119 | the parenthesised number reads back as the number of the member's posts |
| ProfilePage.ReplySuffix | frontend/src/pages/ProfilePage.tsx:146-148 | no suffix for a post without replies; otherwise '· N reply' exactly for one and '· N replies' for more, the number reading back as the count |
| ProfilePage.Section | frontend/src/pages/ProfilePage.tsx:123-153 | skeletons while the feed loads; then, for no posts, the own-profile message exactly on the member's own page (a signed-out visitor always gets 'No posts yet.'), else the member's posts |
| ProfileCard.ShownInterests | frontend/src/components/ProfileCard.tsx:49 | the first four interests, or all when there are fewer |
| ProfileCard.HiddenCount | frontend/src/components/ProfileCard.tsx:52-54 | '+N more' appears exactly beyond four interests, and N plus the shown ones is the total |
| ProfileCard.MoreText | frontend/src/components/ProfileCard.tsx:53 | the text is '+', the count (reading back), then ' more' |
| ProfileCard.View | frontend/src/components/ProfileCard.tsx:11-56 | the card links to the profile's principal, shows the bio only when non-empty, and shows a prefix of at most four interests, the rest counted in '+N more' |
| App.SetupShownIffResolvedToNull | frontend/src/App.tsx:17 | the set-up modal shows exactly when someone is signed in, the actor is ready and the caller's profile read has resolved to `null` |
| App.SetupShownIffBackendHasNoProfile | frontend/src/App.tsx:15-17 | once the caller's profile has been read, the modal shows exactly when the backend answered that there is no profile; a failed read never shows it |
| App.NoSetupOnEmptyCache | frontend/src/App.tsx:17 | before the first read, and after the cache is cleared, the modal does not show |
| App.Match | frontend/src/App.tsx:56-60 | a path fits a pattern exactly when the lengths agree, literals match and parameters are non-empty; every bound name is a parameter of the pattern, and each parameter is bound to its own segment of the path |
| App.FirstFit | frontend/src/App.tsx:62 | the index of the first child route that fits the path, or none |
| App.Resolve | frontend/src/App.tsx:62 | a path is not found exactly when no route fits; otherwise the first fitting route's redirect or page decides |
| App.RoutesDisjoint | frontend/src/App.tsx:62 | no path fits two child routes, so the first fitting route is also the only one, and the router's ranking by specificity picks the same route |
| App.StaticRoutes | frontend/src/App.tsx:36-54 | `/` redirects to `/feed`; `/feed` and `/discover` render their pages |
| App.ProfileRoute | frontend/src/App.tsx:56-60 | `/profile/<id>` renders the profile page with that id |
| App.RedirectLandsOnPage | frontend/src/App.tsx:39-41 | following the redirect always lands on a rendered page |
| NavBar.Bar.Logout | frontend/src/components/NavBar.tsx:19-24 | the identity is cleared, then the cache, then the app goes to the feed, then the menu closes |
| NavBar.Bar.Login | frontend/src/components/NavBar.tsx:26-29 | the login flow starts and the menu closes; the identity is unchanged until the provider reports one |
| NavBar.Bar.ToggleMenu | frontend/src/components/NavBar.tsx:111 | the mobile menu flips and nothing else changes |
| NavBar.Bar.FollowMobileLink | frontend/src/components/NavBar.tsx:125 | following a mobile link closes the menu |
| NavBar.OwnProfileLink | frontend/src/components/NavBar.tsx:70-73 | the own-profile link exists exactly for a signed-in identity with non-empty principal text, and points at it |
| NavBar.OwnLinkOpensOwnProfile | frontend/src/components/NavBar.tsx:70-73 | the own-profile link resolves to the profile page for that principal, and the page recognises the visitor as its owner |
| NavBar.OwnProfileLabel | frontend/src/components/NavBar.tsx:78 | the caller's display name, or 'My Profile' when there is no profile |
| NavBar.LoginButtonLabel | frontend/src/components/NavBar.tsx:103 | 'Connecting...' exactly while logging in, 'Join the Tribe' otherwise |
| NavBar.LogoutHidesOwnProfile | frontend/src/components/NavBar.tsx:19-24 | after logout the own-profile link is gone and its label falls back |

## Left out

- Remote calls: what the backend does with a write, and its answers, are not modelled; each call's answer is a field of `Domain.Backend`.
- react-query internals: retries (the caller-profile read has `retry: false`, the others retry), background refetching, window-focus refetches, garbage collection and deduplication of concurrent fetches are not modelled.
- Queries.QueryClient.BeginFetch: a refetch of a stale entry replaces it with a pending one, whereas react-query keeps the old data visible while refetching.
- Queries.CallerProfilePending: holds for the first read only. During a refetch, such as the one after a successful join (useQueries.ts:54-56), react-query reports `isFetched` true, `isLoading` false and the previous `data` (`null`); the set-up modal (App.tsx:17) therefore stays shown until the refetch settles, whereas the model hides it from `BeginFetch` on.
- ProfilePage.Screen, PostCard.AuthorName: `isLoading` is an input, not derived from the cache. The profile read (useQueries.ts:31-42) has no `actorFetching` term, so while the actor is being created it is disabled with `isLoading` false and `data` undefined: the page shows 'Profile Not Found' and the card 'Anonymous' until the actor is ready.
- Concurrency: every `await` is modelled as completing before the next event, so a second submit while a mutation is in flight, or an edit typed during one, is not modelled.
- `Principal.fromText`: modelled as an abstract partial function; its parsing rules are not modelled.
- Time: the clock is a parameter; JavaScript's floating-point division is modelled by exact real arithmetic, so rounding at bucket boundaries is not modelled.
- Dates: the locale-formatted dates (`toLocaleDateString`) of old posts, join dates and profile pages are not modelled; `RelativeTime.OnDate` keeps the millisecond value.
- PostOrder.SortNewestFirst: `Array.prototype.sort` is stable, so posts with equal timestamps keep the backend's order; the model states only the timestamp order and the permutation, not the order among ties.
- Routing: tanstack's path parsing (splitting into segments, trailing slashes, URL decoding) is not modelled; paths are given as segment lists.
- The profile page's bio and interest blocks (ProfilePage.tsx:96-109) are not modelled: the bio shows only when non-empty and the interests only when there are some, as on the card, but the page lists every interest, untruncated.
- `useActor` and `useInternetIdentity` are not part of this model; the actor, `isFetching`, the identity and `isLoggingIn` are inputs.
- Presentation: JSX layout, CSS, icons, toast texts on success, the static interest lists and the footer are not modelled; a toast is recorded as success or its error message.
- FeedPage.tsx, Footer.tsx and InterestTag.tsx are not part of this model.
