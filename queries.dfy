/**
 * The client's data-synchronisation layer (`useQueries.ts`): the query keys,
 * the conditions under which each read may run, the query functions that
 * talk to the remote actor, the mutations, and the shared query cache that
 * the mutations invalidate.
 */
module Queries {
  import opened Domain
  import opened PostOrder

  /** The cache keys the hooks use: `['posts']`, `['currentUserProfile']`, `['profile', id]`, `['discover', interests]`. */
  datatype QueryKey =
    | PostsKey
    | CurrentUserProfileKey
    | ProfileKey(profileId: Option<string>)
    | DiscoverKey(interests: seq<string>)

  /** The first element of a key array; a one-element filter such as `['profile']` matches a key by it. */
  function Family(k: QueryKey): string {
    match k
    case PostsKey => "posts"
    case CurrentUserProfileKey => "currentUserProfile"
    case ProfileKey(_) => "profile"
    case DiscoverKey(_) => "discover"
  }

  /**
   * What the hooks read from their surroundings: the actor handle (absent
   * until it is created), whether it is still being created, and
   * `Principal.fromText`, which fails on text it cannot parse.
   */
  datatype Env = Env(actor: Option<Backend>, actorFetching: bool, parsePrincipal: string -> Option<Principal>)

  predicate ActorReady(env: Env) {
    env.actor.Some? && !env.actorFetching
  }

  /** `!!s` for an optional string: present and non-empty. */
  predicate Truthy(s: Option<string>) {
    s.Some? && s.value != ""
  }

  /** The `enabled` option of each query. */
  predicate Enabled(k: QueryKey, env: Env)
    ensures Enabled(k, env) ==> ActorReady(env)
    ensures Enabled(k, env) && k.ProfileKey? ==> Truthy(k.profileId)
    ensures Enabled(k, env) && k.DiscoverKey? ==> |k.interests| > 0
  {
    match k
    case PostsKey => ActorReady(env)
    case CurrentUserProfileKey => ActorReady(env)
    case ProfileKey(id) => ActorReady(env) && Truthy(id)
    case DiscoverKey(interests) => ActorReady(env) && |interests| > 0
  }

  // ─── Query functions ──────────────────────────────────────────────────────

  /** `useGetAllPosts`: no actor gives `[]`; otherwise the actor's posts, newest first, or its error. */
  function AllPostsFn(actor: Option<Backend>): (r: Outcome<seq<Post>>)
    ensures actor.None? ==> r == Ok([])
    ensures actor.Some? && actor.value.getAllPosts.Err? ==> r == actor.value.getAllPosts
    ensures actor.Some? && actor.value.getAllPosts.Ok? ==>
              && r.Ok?
              && NewestFirst(r.value)
              && multiset(r.value) == multiset(actor.value.getAllPosts.value)
  {
    match actor
    case None => Ok([])
    case Some(b) =>
      match b.getAllPosts
      case Ok(posts) => Ok(SortNewestFirst(posts))
      case Err(e) => Err(e)
  }

  /** `useGetCallerUserProfile`: throws 'Actor not available' without an actor. */
  function CallerProfileFn(actor: Option<Backend>): (r: Outcome<Option<Profile>>)
    ensures actor.None? ==> r == Err(ErrorObject("Actor not available"))
    ensures actor.Some? ==> r == actor.value.getCallerUserProfile
  {
    match actor
    case None => Err(ErrorObject("Actor not available"))
    case Some(b) => b.getCallerUserProfile
  }

  /**
   * `useGetProfile`: never fails. A missing actor or id, an id that does not
   * parse, and a failed call all give `null`.
   */
  function ProfileFn(env: Env, profileId: Option<string>): (r: Outcome<Option<Profile>>)
    ensures r.Ok?
    ensures r.value.Some? ==>
              && env.actor.Some? && Truthy(profileId)
              && env.parsePrincipal(profileId.value).Some?
              && env.actor.value.getProfile(env.parsePrincipal(profileId.value).value) == Ok(r.value)
    ensures env.actor.Some? && Truthy(profileId) && env.parsePrincipal(profileId.value).Some?
              && env.actor.value.getProfile(env.parsePrincipal(profileId.value).value).Ok? ==>
              r == env.actor.value.getProfile(env.parsePrincipal(profileId.value).value)
  {
    if env.actor.None? || !Truthy(profileId) then Ok(None)
    else
      match env.parsePrincipal(profileId.value)
      case None => Ok(None)
      case Some(p) =>
        match env.actor.value.getProfile(p)
        case Ok(found) => Ok(found)
        case Err(_) => Ok(None)
  }

  /** `useFindProfilesByInterests`: an empty list, or no actor, gives `[]`. */
  function DiscoverFn(actor: Option<Backend>, interests: seq<string>): (r: Outcome<seq<Profile>>)
    ensures |interests| == 0 ==> r == Ok([])
    ensures actor.None? ==> r == Ok([])
    ensures actor.Some? && |interests| > 0 ==> r == actor.value.findProfilesByInterests(interests)
  {
    if actor.None? || |interests| == 0 then Ok([])
    else actor.value.findProfilesByInterests(interests)
  }

  /** What a query caches. */
  datatype QueryData =
    | PostList(posts: seq<Post>)
    | MaybeProfile(profile: Option<Profile>)
    | ProfileList(profiles: seq<Profile>)

  function MapOutcome<T>(r: Outcome<T>, wrap: T -> QueryData): Outcome<QueryData> {
    match r
    case Ok(v) => Ok(wrap(v))
    case Err(e) => Err(e)
  }

  /** The query function behind each key. */
  function QueryFn(k: QueryKey, env: Env): Outcome<QueryData> {
    match k
    case PostsKey => MapOutcome(AllPostsFn(env.actor), (ps: seq<Post>) => PostList(ps))
    case CurrentUserProfileKey => MapOutcome(CallerProfileFn(env.actor), (p: Option<Profile>) => MaybeProfile(p))
    case ProfileKey(id) => MapOutcome(ProfileFn(env, id), (p: Option<Profile>) => MaybeProfile(p))
    case DiscoverKey(interests) => MapOutcome(DiscoverFn(env.actor, interests), (ps: seq<Profile>) => ProfileList(ps))
  }

  /** Whether the query function of `k` reaches the actor at all. */
  predicate CallsActor(k: QueryKey, env: Env) {
    match k
    case PostsKey => env.actor.Some?
    case CurrentUserProfileKey => env.actor.Some?
    case ProfileKey(id) => env.actor.Some? && Truthy(id) && env.parsePrincipal(id.value).Some?
    case DiscoverKey(interests) => env.actor.Some? && |interests| > 0
  }

  /**
   * A query function that does not reach the actor cannot depend on it: two
   * backends that answer differently give the same result.
   */
  lemma NoCallNoDependence(k: QueryKey, env: Env, b1: Backend, b2: Backend)
    requires !CallsActor(k, env.(actor := Some(b1)))
    ensures !CallsActor(k, env.(actor := Some(b2)))
    ensures QueryFn(k, env.(actor := Some(b1))) == QueryFn(k, env.(actor := Some(b2)))
  {
  }

  /** The profile lookup is the only read whose query function swallows every failure. */
  lemma ProfileReadNeverErrors(id: Option<string>, env: Env)
    ensures QueryFn(ProfileKey(id), env).Ok?
    ensures QueryFn(ProfileKey(id), env).value.MaybeProfile?
  {
  }

  /** An enabled discover read always reaches the actor; a disabled one never runs. */
  lemma EnabledDiscoverCallsActor(interests: seq<string>, env: Env)
    requires Enabled(DiscoverKey(interests), env)
    ensures CallsActor(DiscoverKey(interests), env)
    ensures QueryFn(DiscoverKey(interests), env) == MapOutcome(env.actor.value.findProfilesByInterests(interests), (ps: seq<Profile>) => ProfileList(ps))
  {
  }

  // ─── Cache ────────────────────────────────────────────────────────────────

  datatype Status = Pending | Resolved(data: QueryData) | Errored(error: Thrown)

  /** A cached query: its state and whether it has been invalidated since it last settled. */
  datatype Entry = Entry(status: Status, stale: bool)

  function Settle(r: Outcome<QueryData>): (s: Status)
    ensures r.Ok? <==> s.Resolved?
    ensures r.Ok? ==> s.data == r.value
    ensures r.Err? ==> s == Errored(r.thrown)
  {
    match r
    case Ok(v) => Resolved(v)
    case Err(e) => Errored(e)
  }

  /** Reads are pull-based: a read runs its query function only for a missing or stale entry. */
  predicate NeedsFetch(m: map<QueryKey, Entry>, k: QueryKey) {
    k !in m || m[k].stale
  }

  /** `invalidateQueries` with one-element key filters: every entry of a named family becomes stale. */
  function MarkStale(m: map<QueryKey, Entry>, families: set<string>): (m': map<QueryKey, Entry>)
    ensures m'.Keys == m.Keys
    ensures forall k | k in m :: m'[k].status == m[k].status
    ensures forall k | k in m :: m'[k].stale == (m[k].stale || Family(k) in families)
  {
    map k | k in m :: if Family(k) in families then m[k].(stale := true) else m[k]
  }

  /** Invalidating twice is invalidating once; invalidating nothing changes nothing. */
  lemma MarkStaleIdempotent(m: map<QueryKey, Entry>, families: set<string>)
    ensures MarkStale(MarkStale(m, families), families) == MarkStale(m, families)
    ensures MarkStale(m, {}) == m
  {
    var once := MarkStale(m, families);
    var twice := MarkStale(once, families);
    assert forall k | k in twice :: twice[k] == once[k];
    var none := MarkStale(m, {});
    assert forall k | k in none :: none[k] == m[k];
  }

  /** After an invalidation, the next read of any entry it matched runs the query function again. */
  lemma InvalidatedEntriesRefetch(m: map<QueryKey, Entry>, families: set<string>, k: QueryKey, env: Env)
    requires k in m && Family(k) in families && Enabled(k, env)
    ensures NeedsFetch(MarkStale(m, families), k)
  {
  }

  // ─── Mutations ────────────────────────────────────────────────────────────

  datatype Mutation =
    | CreateProfile(displayName: string, bio: string, interests: seq<string>)
    | UpdateProfile(displayName: string, bio: string, interests: seq<string>)
    | CreatePost(content: string)
    | AddReply(postId: int, content: string)

  /** The remote call a mutation makes. */
  function RemoteWrite(mut: Mutation, b: Backend): Outcome<()> {
    match mut
    case CreateProfile(n, bio, interests) => b.createProfile(n, bio, interests)
    case UpdateProfile(n, bio, interests) => b.updateProfile(n, bio, interests)
    case CreatePost(content) => b.createPost(content)
    case AddReply(postId, content) => b.addReply(postId, content)
  }

  /** Every `mutationFn`: fails with 'Actor not available' and makes no call without an actor. */
  function MutationFn(mut: Mutation, actor: Option<Backend>): (r: Outcome<()>)
    ensures actor.None? ==> r == Err(ErrorObject("Actor not available"))
    ensures actor.Some? ==> r == RemoteWrite(mut, actor.value)
  {
    match actor
    case None => Err(ErrorObject("Actor not available"))
    case Some(b) => RemoteWrite(mut, b)
  }

  /** The key filters each `onSuccess` handler invalidates. */
  function Invalidates(mut: Mutation): set<string> {
    match mut
    case CreateProfile(_, _, _) => {"currentUserProfile"}
    case UpdateProfile(_, _, _) => {"currentUserProfile", "profile"}
    case CreatePost(_) => {"posts"}
    case AddReply(_, _) => {"posts"}
  }

  /** The entries a successful mutation makes out of date, stated key by key. */
  predicate Affects(mut: Mutation, k: QueryKey) {
    match mut
    case CreateProfile(_, _, _) => k == CurrentUserProfileKey
    case UpdateProfile(_, _, _) => k == CurrentUserProfileKey || k.ProfileKey?
    case CreatePost(_) => k == PostsKey
    case AddReply(_, _) => k == PostsKey
  }

  /**
   * The filters of each handler match exactly the keys it affects: creating
   * a profile touches only the caller's profile, updating one also every
   * profile-by-id entry, and creating a post or a reply only the feed.
   * Discovery results are never invalidated.
   */
  lemma InvalidatesExactlyAffected(mut: Mutation, k: QueryKey)
    ensures Family(k) in Invalidates(mut) <==> Affects(mut, k)
  {
  }

  /** What a settled mutation leaves in the cache: on success its keys are stale, on failure nothing changes. */
  function AfterMutation(m: map<QueryKey, Entry>, mut: Mutation, r: Outcome<()>): (m': map<QueryKey, Entry>)
    ensures m'.Keys == m.Keys
    ensures forall k | k in m :: m'[k].status == m[k].status
    ensures forall k | k in m :: m'[k].stale == (m[k].stale || (r.Ok? && Affects(mut, k)))
  {
    if r.Ok? then
      assert forall k :: Family(k) in Invalidates(mut) <==> Affects(mut, k) by {
        forall k ensures Family(k) in Invalidates(mut) <==> Affects(mut, k) {
          InvalidatesExactlyAffected(mut, k);
        }
      }
      MarkStale(m, Invalidates(mut))
    else m
  }

  /** The shared `QueryClient`: one cache entry per key that has been read. */
  class QueryClient {
    var entries: map<QueryKey, Entry>

    constructor()
      ensures entries == map[]
    {
      entries := map[];
    }

    /** `invalidateQueries({ queryKey: [family] })` for each family. */
    method InvalidateQueries(families: set<string>)
      modifies this
      ensures entries == MarkStale(old(entries), families)
    {
      entries := MarkStale(entries, families);
    }

    /** `clear()`: every entry is dropped. */
    method Clear()
      modifies this
      ensures entries == map[]
    {
      entries := map[];
    }

    /** A read request: an enabled query whose entry is missing or stale starts fetching. */
    method BeginFetch(k: QueryKey, env: Env) returns (started: bool)
      modifies this
      ensures started == (Enabled(k, env) && NeedsFetch(old(entries), k))
      ensures entries == if started then old(entries)[k := Entry(Pending, false)] else old(entries)
    {
      started := Enabled(k, env) && NeedsFetch(entries, k);
      if started {
        entries := entries[k := Entry(Pending, false)];
      }
    }

    /** A fetch settles; its result is kept only if the entry is still waiting for it. */
    method CompleteFetch(k: QueryKey, result: Outcome<QueryData>)
      modifies this
      ensures entries == if k in old(entries) && old(entries)[k].status.Pending?
                         then old(entries)[k := Entry(Settle(result), false)]
                         else old(entries)
    {
      if k in entries && entries[k].status.Pending? {
        entries := entries[k := Entry(Settle(result), false)];
      }
    }

    /** A read that runs to completion; no other entry is touched. */
    method Read(k: QueryKey, env: Env) returns (ran: bool)
      modifies this
      ensures ran == (Enabled(k, env) && NeedsFetch(old(entries), k))
      ensures entries == if ran then old(entries)[k := Entry(Settle(QueryFn(k, env)), false)] else old(entries)
    {
      ran := BeginFetch(k, env);
      if ran {
        CompleteFetch(k, QueryFn(k, env));
      }
    }

    /** `mutateAsync`: run the mutation, then on success its `onSuccess` invalidation. */
    method Mutate(mut: Mutation, actor: Option<Backend>) returns (r: Outcome<()>)
      modifies this
      ensures r == MutationFn(mut, actor)
      ensures entries == AfterMutation(old(entries), mut, r)
    {
      r := MutationFn(mut, actor);
      if r.Ok? {
        InvalidateQueries(Invalidates(mut));
      }
    }
  }

  // ─── The caller's own profile, as `useGetCallerUserProfile` reports it ────

  /** `data`: the cached profile-or-null once resolved, `undefined` (None) otherwise. */
  function CallerProfileData(m: map<QueryKey, Entry>): (d: Option<Option<Profile>>)
    ensures d.Some? <==>
      && CurrentUserProfileKey in m && m[CurrentUserProfileKey].status.Resolved?
      && m[CurrentUserProfileKey].status.data.MaybeProfile?
    ensures d.Some? ==> m[CurrentUserProfileKey].status == Resolved(MaybeProfile(d.value))
  {
    if CurrentUserProfileKey in m then
      match m[CurrentUserProfileKey].status
      case Resolved(MaybeProfile(p)) => Some(p)
      case _ => None
    else None
  }

  /** `isLoading: actorFetching || query.isLoading` */
  predicate CallerProfileLoading(env: Env, m: map<QueryKey, Entry>) {
    env.actorFetching || (CurrentUserProfileKey in m && m[CurrentUserProfileKey].status.Pending?)
  }

  /** `isFetched: !!actor && query.isFetched` */
  predicate CallerProfileFetched(env: Env, m: map<QueryKey, Entry>) {
    env.actor.Some? && CurrentUserProfileKey in m && !m[CurrentUserProfileKey].status.Pending?
  }

  /** While the caller's profile read is in flight it reports loading, not fetched, and no data. */
  lemma CallerProfilePending(env: Env, m: map<QueryKey, Entry>)
    requires CurrentUserProfileKey in m && m[CurrentUserProfileKey].status.Pending?
    ensures CallerProfileLoading(env, m) && !CallerProfileFetched(env, m) && CallerProfileData(m).None?
  {
  }

  /**
   * Once the read has settled with a ready actor, it reports fetched and not
   * loading, and `data` is defined exactly when the backend answered, as that answer.
   */
  lemma CallerProfileSettled(env: Env, m: map<QueryKey, Entry>)
    requires ActorReady(env)
    requires CurrentUserProfileKey in m && m[CurrentUserProfileKey].status == Settle(QueryFn(CurrentUserProfileKey, env))
    ensures CallerProfileFetched(env, m) && !CallerProfileLoading(env, m)
    ensures CallerProfileData(m).Some? <==> env.actor.value.getCallerUserProfile.Ok?
    ensures CallerProfileData(m).Some? ==> CallerProfileData(m).value == env.actor.value.getCallerUserProfile.value
  {
  }
}
