/**
 * The thread hooks: optimistic mutations (mute, change default view, hide,
 * mark as read) and the decisions of the single-thread query.
 *
 * The query cache is a `QueryClient` object holding the cached thread data
 * (by thread id), the board activity entries (by board and thread id), the
 * set of invalidated query keys and the log of optimistic patches applied.
 * The patch helpers `setThread*InCache` and lookups `getThread*InCache` of
 * src/lib/api/cache/thread.ts are not part of this model: each patch is given
 * the effect its name and arguments imply (set one flag, or clear the
 * activity counters, of the matching thread wherever it is cached, and
 * nothing else). Toasts and network requests are recorded in an `Effects`
 * object; the network's answer is an input.
 */
module ThreadHooks {
  import opened Wrappers
  import opened Js
  import opened ServerUtils

  const THREAD_QUERY_KEY := "threadData"
  const ALL_BOARDS_KEY := "allBoardsData"

  /** A thread within a board's cached activity. */
  datatype ThreadKey = ThreadKey(boardId: string, threadId: string)

  /** A thread as a board's activity feed caches it: its starter post and its flags and counters. */
  datatype ThreadSummary = ThreadSummary(
    threadId: string,
    starter: Post,
    isNew: bool,
    newPostsAmount: int,
    newCommentsAmount: int,
    muted: bool,
    hidden: bool,
    defaultView: string)

  /** One call of a `setThread*InCache` helper, with the arguments the hook passes it. */
  datatype CachePatch =
    | SetMuted(boardId: string, threadId: string, mute: bool)
    | SetDefaultView(boardId: string, categoryFilter: Option<string>, threadId: string, view: string)
    | SetHidden(boardId: string, threadId: string, hidden: bool)
    | SetActivityCleared(boardId: string, threadId: string, activityOnly: Option<bool>)
  {
    function Key(): ThreadKey {
      ThreadKey(boardId, threadId)
    }
  }

  // ---------------------------------------------------------------------------
  // What a patch does to one cached thread

  function ClearPostActivity(p: Post): Post {
    p.(isNew := false, newPostsAmount := 0, newCommentsAmount := 0)
  }

  function PatchSummary(p: CachePatch, s: ThreadSummary): ThreadSummary {
    match p
    case SetMuted(_, _, mute) => s.(muted := mute)
    case SetDefaultView(_, _, _, view) => s.(defaultView := view)
    case SetHidden(_, _, hidden) => s.(hidden := hidden)
    case SetActivityCleared(_, _, _) =>
      s.(isNew := false, newPostsAmount := 0, newCommentsAmount := 0, starter := ClearPostActivity(s.starter))
  }

  function PatchThread(p: CachePatch, t: Thread): Thread {
    match p
    case SetMuted(_, _, mute) => t.(muted := mute)
    case SetDefaultView(_, _, _, view) => t.(defaultView := view)
    case SetHidden(_, _, hidden) => t.(hidden := hidden)
    case SetActivityCleared(_, _, _) =>
      var posts := if |t.posts| == 0 then t.posts else t.posts[0 := ClearPostActivity(t.posts[0])];
      t.(isNew := false, newPostsAmount := 0, newCommentsAmount := 0, posts := posts)
  }

  /** The patch on the board activity entries: only the target thread of the target board changes. */
  function PatchActivity(p: CachePatch, activity: map<ThreadKey, ThreadSummary>): (r: map<ThreadKey, ThreadSummary>)
    ensures r.Keys == activity.Keys
    ensures forall k | k in activity && k != p.Key() :: r[k] == activity[k]
    ensures p.Key() in activity ==> r[p.Key()] == PatchSummary(p, activity[p.Key()])
    ensures p.Key() in activity ==>
      var s := r[p.Key()];
      && s.threadId == activity[p.Key()].threadId
      && (p.SetMuted? ==> s.muted == p.mute)
      && (p.SetHidden? ==> s.hidden == p.hidden)
      && (p.SetDefaultView? ==> s.defaultView == p.view)
      && (p.SetActivityCleared? ==>
            && !s.isNew && s.newPostsAmount == 0 && s.newCommentsAmount == 0
            && !s.starter.isNew && s.starter.newPostsAmount == 0 && s.starter.newCommentsAmount == 0)
  {
    if p.Key() in activity then activity[p.Key() := PatchSummary(p, activity[p.Key()])] else activity
  }

  /** The patch on the cached thread data: only the target thread changes. */
  function PatchThreads(p: CachePatch, threads: map<string, Thread>): (r: map<string, Thread>)
    ensures r.Keys == threads.Keys
    ensures forall id | id in threads && id != p.threadId :: r[id] == threads[id]
    ensures p.threadId in threads ==> r[p.threadId] == PatchThread(p, threads[p.threadId])
    ensures p.threadId in threads ==>
      var t := r[p.threadId];
      && |t.posts| == |threads[p.threadId].posts|
      && (p.SetMuted? ==> t.muted == p.mute)
      && (p.SetHidden? ==> t.hidden == p.hidden)
      && (p.SetDefaultView? ==> t.defaultView == p.view)
      && (p.SetActivityCleared? ==>
            && !t.isNew && t.newPostsAmount == 0 && t.newCommentsAmount == 0
            && (|t.posts| > 0 ==> !t.posts[0].isNew && t.posts[0].newPostsAmount == 0 && t.posts[0].newCommentsAmount == 0))
  {
    if p.threadId in threads then threads[p.threadId := PatchThread(p, threads[p.threadId])] else threads
  }

  /** Patches applied one after the other. */
  function PatchAllActivity(ps: seq<CachePatch>, activity: map<ThreadKey, ThreadSummary>): map<ThreadKey, ThreadSummary> {
    if |ps| == 0 then activity else PatchAllActivity(ps[1..], PatchActivity(ps[0], activity))
  }

  function PatchAllThreads(ps: seq<CachePatch>, threads: map<string, Thread>): map<string, Thread> {
    if |ps| == 0 then threads else PatchAllThreads(ps[1..], PatchThreads(ps[0], threads))
  }

  /** Clearing a thread's activity twice is the same as clearing it once. */
  lemma ActivityClearedIdempotent(
    b: string, t: string, activityOnly: Option<bool>,
    activity: map<ThreadKey, ThreadSummary>, threads: map<string, Thread>)
    ensures var p := SetActivityCleared(b, t, activityOnly);
      && PatchActivity(p, PatchActivity(p, activity)) == PatchActivity(p, activity)
      && PatchThreads(p, PatchThreads(p, threads)) == PatchThreads(p, threads)
  {
    var p := SetActivityCleared(b, t, activityOnly);
    if t in threads {
      var once := PatchThread(p, threads[t]);
      if |once.posts| > 0 {
        assert once.posts[0 := ClearPostActivity(once.posts[0])] == once.posts;
      }
    }
  }

  /** Muting (or unmuting) and then restoring the old flag gives back the same cache. */
  lemma MuteRoundTrip(
    b: string, t: string, mute: bool,
    activity: map<ThreadKey, ThreadSummary>, threads: map<string, Thread>, was: bool)
    requires ThreadKey(b, t) in activity ==> activity[ThreadKey(b, t)].muted == was
    requires t in threads ==> threads[t].muted == was
    ensures PatchActivity(SetMuted(b, t, was), PatchActivity(SetMuted(b, t, mute), activity)) == activity
    ensures PatchThreads(SetMuted(b, t, was), PatchThreads(SetMuted(b, t, mute), threads)) == threads
  {
  }

  /** Hiding (or unhiding) and then restoring the old flag gives back the same cache. */
  lemma HideRoundTrip(
    b: string, t: string, hidden: bool,
    activity: map<ThreadKey, ThreadSummary>, threads: map<string, Thread>, was: bool)
    requires ThreadKey(b, t) in activity ==> activity[ThreadKey(b, t)].hidden == was
    requires t in threads ==> threads[t].hidden == was
    ensures PatchActivity(SetHidden(b, t, was), PatchActivity(SetHidden(b, t, hidden), activity)) == activity
    ensures PatchThreads(SetHidden(b, t, was), PatchThreads(SetHidden(b, t, hidden), threads)) == threads
  {
  }

  /** Muting a thread leaves its read state as it was. */
  lemma MuteKeepsReadState(b: string, t: string, mute: bool, s: ThreadSummary)
    ensures var r := PatchSummary(SetMuted(b, t, mute), s);
      r.muted == mute && r.isNew == s.isNew && r.newPostsAmount == s.newPostsAmount
      && r.newCommentsAmount == s.newCommentsAmount && r.starter == s.starter
  {
  }

  // ---------------------------------------------------------------------------
  // The cache and the observable effects

  class QueryClient {
    /** `["threadData", {threadId, ...}]` entries, by thread id. */
    var threads: map<string, Thread>
    /** Board activity entries, by board and thread. */
    var activity: map<ThreadKey, ThreadSummary>
    /** Keys passed to `invalidateQueries`. */
    var invalidated: set<string>
    /** Every optimistic patch applied, in order. */
    var patches: seq<CachePatch>

    constructor (threads: map<string, Thread>, activity: map<ThreadKey, ThreadSummary>)
      ensures this.threads == threads && this.activity == activity
      ensures invalidated == {} && patches == []
    {
      this.threads := threads;
      this.activity := activity;
      invalidated := {};
      patches := [];
    }

    /** Applies one `setThread*InCache` call. */
    method Patch(p: CachePatch)
      modifies this
      ensures threads == PatchThreads(p, old(threads)) && activity == PatchActivity(p, old(activity))
      ensures patches == old(patches) + [p] && invalidated == old(invalidated)
    {
      threads := PatchThreads(p, threads);
      activity := PatchActivity(p, activity);
      patches := patches + [p];
    }

    /** `queryClient.invalidateQueries(key)`. */
    method InvalidateQueries(key: string)
      modifies this
      ensures invalidated == old(invalidated) + {key}
      ensures threads == old(threads) && activity == old(activity) && patches == old(patches)
    {
      invalidated := invalidated + {key};
    }
  }

  datatype Toast = ErrorToast(message: string) | SuccessToast(message: string)

  /** The thread requests the mutations send (utils/queries/thread.ts is not part of this model). */
  datatype ThreadRequest =
    | MuteRequest(threadId: string, mute: bool)
    | ViewRequest(threadId: string, view: string)
    | HideRequest(threadId: string, hidden: bool)
    | ReadRequest(threadId: string)

  class Effects {
    var toasts: seq<Toast>
    var requests: seq<ThreadRequest>

    constructor ()
      ensures toasts == [] && requests == []
    {
      toasts := [];
      requests := [];
    }

    method Show(t: Toast)
      modifies this
      ensures toasts == old(toasts) + [t] && requests == old(requests)
    {
      toasts := toasts + [t];
    }

    method Send(r: ThreadRequest)
      modifies this
      ensures requests == old(requests) + [r] && toasts == old(toasts)
    {
      requests := requests + [r];
    }
  }

  // ---------------------------------------------------------------------------
  // The mutation protocol

  /** The variables a hook's `mutate` is called with. */
  datatype Mutation =
    | MuteThread(boardId: string, threadId: string, mute: bool)
    | SetThreadView(boardId: string, threadId: string, view: string)
    | SetThreadHidden(boardId: string, threadId: string, hidden: bool)
    | ReadThread(boardId: string, threadId: string)

  /** What the read hook closes over: `isLoggedIn` from `useAuth` and its `activityOnly` argument. */
  datatype HookContext = HookContext(isLoggedIn: bool, activityOnly: Option<bool>)

  /** How a mutation function's promise settles. */
  datatype Settlement = Resolved | Rejected(error: JsError)

  const NOT_LOGGED_IN_MESSAGE := "Attempt to read thread with no user logged in."
  const VIEW_UPDATED_MESSAGE := "Thread view updated!"

  /** The patches `onMutate` applies. */
  function OptimisticPatches(m: Mutation, ctx: HookContext): seq<CachePatch> {
    match m
    case MuteThread(b, t, mute) => [SetMuted(b, t, mute)]
    case SetThreadView(b, t, view) => [SetDefaultView(b, None, t, view)]
    case SetThreadHidden(b, t, hidden) => [SetHidden(b, t, hidden)]
    case ReadThread(b, t) => if t == "" || b == "" then [] else [SetActivityCleared(b, t, ctx.activityOnly)]
  }

  /** The toasts `onMutate` shows. */
  function OptimisticToasts(m: Mutation): seq<Toast> {
    if m.SetThreadView? then [SuccessToast(VIEW_UPDATED_MESSAGE)] else []
  }

  /** The requests the mutation function sends. */
  function SentRequests(m: Mutation, ctx: HookContext): seq<ThreadRequest> {
    match m
    case MuteThread(_, t, mute) => [MuteRequest(t, mute)]
    case SetThreadView(_, t, view) => [ViewRequest(t, view)]
    case SetThreadHidden(_, t, hidden) => [HideRequest(t, hidden)]
    case ReadThread(_, t) => if !ctx.isLoggedIn || t == "" then [] else [ReadRequest(t)]
  }

  /** How the mutation function settles, given how the network answers a request. */
  function Settle(m: Mutation, ctx: HookContext, network: Settlement): Settlement {
    match m
    case ReadThread(_, t) =>
      if !ctx.isLoggedIn then Rejected(Error(NOT_LOGGED_IN_MESSAGE))
      else if t == "" then Resolved
      else network
    case _ => network
  }

  /** The toast `onError` shows. */
  function ErrorToastFor(m: Mutation): (t: Toast)
    ensures t.ErrorToast? && StartsWith(t.message, "Error while ")
  {
    match m
    case MuteThread(_, _, mute) =>
      ErrorToast("Error while marking thread as " + (if mute then "muted" else "unmuted"))
    case SetThreadView(_, t, view) =>
      ErrorToast("Error while switching thread " + t + " to default view " + view + ".")
    case SetThreadHidden(_, _, hidden) =>
      ErrorToast("Error while marking thread as " + (if hidden then "hidden" else "visible"))
    case ReadThread(_, _) =>
      ErrorToast("Error while marking thread as visited")
  }

  /** The keys `onSuccess` invalidates. */
  function SuccessInvalidations(m: Mutation): set<string> {
    if m.MuteThread? || m.SetThreadHidden? then {ALL_BOARDS_KEY} else {}
  }

  /** `onMutate`: the optimistic patch, before any request is sent. */
  method OnMutate(qc: QueryClient, fx: Effects, m: Mutation, ctx: HookContext)
    modifies qc, fx
    ensures qc.patches == old(qc.patches) + OptimisticPatches(m, ctx)
    ensures qc.threads == PatchAllThreads(OptimisticPatches(m, ctx), old(qc.threads))
    ensures qc.activity == PatchAllActivity(OptimisticPatches(m, ctx), old(qc.activity))
    ensures qc.invalidated == old(qc.invalidated)
    ensures fx.toasts == old(fx.toasts) + OptimisticToasts(m) && fx.requests == old(fx.requests)
  {
    match m
    case MuteThread(b, t, mute) =>
      qc.Patch(SetMuted(b, t, mute));
    case SetThreadView(b, t, view) =>
      qc.Patch(SetDefaultView(b, None, t, view));
      fx.Show(SuccessToast(VIEW_UPDATED_MESSAGE));
    case SetThreadHidden(b, t, hidden) =>
      qc.Patch(SetHidden(b, t, hidden));
    case ReadThread(b, t) =>
      if t == "" || b == "" {
        return;
      }
      qc.Patch(SetActivityCleared(b, t, ctx.activityOnly));
  }

  /** The mutation function: the gates of the read hook, then the request. */
  method MutationFn(fx: Effects, m: Mutation, ctx: HookContext, network: Settlement) returns (s: Settlement)
    modifies fx
    ensures s == Settle(m, ctx, network)
    ensures fx.requests == old(fx.requests) + SentRequests(m, ctx) && fx.toasts == old(fx.toasts)
  {
    match m
    case MuteThread(_, t, mute) =>
      fx.Send(MuteRequest(t, mute));
      s := network;
    case SetThreadView(_, t, view) =>
      fx.Send(ViewRequest(t, view));
      s := network;
    case SetThreadHidden(_, t, hidden) =>
      fx.Send(HideRequest(t, hidden));
      s := network;
    case ReadThread(_, t) =>
      if !ctx.isLoggedIn {
        return Rejected(Error(NOT_LOGGED_IN_MESSAGE));
      }
      if t == "" {
        return Resolved;
      }
      fx.Send(ReadRequest(t));
      s := network;
  }

  /** `onError`: a toast, and no rollback of the optimistic patch. */
  method OnError(fx: Effects, m: Mutation)
    modifies fx
    ensures fx.toasts == old(fx.toasts) + [ErrorToastFor(m)] && fx.requests == old(fx.requests)
  {
    fx.Show(ErrorToastFor(m));
  }

  /** `onSuccess`: mute and hide refresh the all-boards summary. */
  method OnSuccess(qc: QueryClient, m: Mutation)
    modifies qc
    ensures qc.invalidated == old(qc.invalidated) + SuccessInvalidations(m)
    ensures qc.threads == old(qc.threads) && qc.activity == old(qc.activity) && qc.patches == old(qc.patches)
  {
    if m.MuteThread? || m.SetThreadHidden? {
      qc.InvalidateQueries(ALL_BOARDS_KEY);
    }
  }

  /** One `mutate` call, run to settlement in the order react-query calls the callbacks. */
  method Run(qc: QueryClient, fx: Effects, m: Mutation, ctx: HookContext, network: Settlement) returns (s: Settlement)
    modifies qc, fx
    ensures s == Settle(m, ctx, network)
    ensures qc.patches == old(qc.patches) + OptimisticPatches(m, ctx)
    ensures qc.threads == PatchAllThreads(OptimisticPatches(m, ctx), old(qc.threads))
    ensures qc.activity == PatchAllActivity(OptimisticPatches(m, ctx), old(qc.activity))
    ensures qc.invalidated == old(qc.invalidated) + (if s.Resolved? then SuccessInvalidations(m) else {})
    ensures fx.toasts == old(fx.toasts) + OptimisticToasts(m) + (if s.Rejected? then [ErrorToastFor(m)] else [])
    ensures fx.requests == old(fx.requests) + SentRequests(m, ctx)
  {
    OnMutate(qc, fx, m, ctx);
    s := MutationFn(fx, m, ctx, network);
    if s.Rejected? {
      OnError(fx, m);
    } else {
      OnSuccess(qc, m);
    }
  }

  // ---------------------------------------------------------------------------
  // What the protocol guarantees

  /** A settled mute or hide invalidates the all-boards summary, and only on success. */
  lemma MuteAndHideInvalidateOnSuccess(m: Mutation, ctx: HookContext, network: Settlement)
    requires m.MuteThread? || m.SetThreadHidden?
    ensures Settle(m, ctx, network) == network
    ensures SuccessInvalidations(m) == {ALL_BOARDS_KEY}
    ensures |OptimisticPatches(m, ctx)| == 1 && OptimisticPatches(m, ctx)[0].Key() == ThreadKey(m.boardId, m.threadId)
  {
  }

  /** A view change or a read invalidates nothing. */
  lemma ViewAndReadInvalidateNothing(m: Mutation)
    requires m.SetThreadView? || m.ReadThread?
    ensures SuccessInvalidations(m) == {}
  {
  }

  /** Mute and hide patch with exactly the caller's board, thread and flag. */
  lemma OptimisticPatchArguments(b: string, t: string, flag: bool, ctx: HookContext)
    ensures OptimisticPatches(MuteThread(b, t, flag), ctx) == [SetMuted(b, t, flag)]
    ensures OptimisticPatches(SetThreadHidden(b, t, flag), ctx) == [SetHidden(b, t, flag)]
    ensures SentRequests(MuteThread(b, t, flag), ctx) == [MuteRequest(t, flag)]
    ensures SentRequests(SetThreadHidden(b, t, flag), ctx) == [HideRequest(t, flag)]
  {
  }

  /** A view change patches with no category filter and confirms before the request settles. */
  lemma ViewChangeConfirmsOptimistically(b: string, t: string, view: string, ctx: HookContext)
    ensures OptimisticPatches(SetThreadView(b, t, view), ctx) == [SetDefaultView(b, None, t, view)]
    ensures OptimisticToasts(SetThreadView(b, t, view)) == [SuccessToast(VIEW_UPDATED_MESSAGE)]
  {
  }

  /**
   * A logged-out read throws before any request. The optimistic patch has
   * already been applied by then, since `onMutate` runs first.
   */
  lemma LoggedOutReadSendsNothing(b: string, t: string, activityOnly: Option<bool>, network: Settlement)
    ensures var ctx := HookContext(false, activityOnly);
      && Settle(ReadThread(b, t), ctx, network) == Rejected(Error(NOT_LOGGED_IN_MESSAGE))
      && SentRequests(ReadThread(b, t), ctx) == []
      && (t != "" && b != "" ==> OptimisticPatches(ReadThread(b, t), ctx) == [SetActivityCleared(b, t, activityOnly)])
  {
  }

  /** A logged-in read of an empty thread id resolves without a request or a patch. */
  lemma EmptyThreadReadResolves(b: string, activityOnly: Option<bool>, network: Settlement)
    ensures var ctx := HookContext(true, activityOnly);
      && Settle(ReadThread(b, ""), ctx, network) == Resolved
      && SentRequests(ReadThread(b, ""), ctx) == []
      && OptimisticPatches(ReadThread(b, ""), ctx) == []
  {
  }

  /** The read patch is skipped when the thread or the board id is missing. */
  lemma ReadPatchNeedsBothIds(b: string, t: string, ctx: HookContext)
    ensures OptimisticPatches(ReadThread(b, t), ctx) == [] <==> (t == "" || b == "")
  {
  }

  /** Every patch leaves the cache untouched when the target thread is not cached. */
  lemma PatchOfUncachedThread(p: CachePatch, activity: map<ThreadKey, ThreadSummary>, threads: map<string, Thread>)
    requires p.Key() !in activity && p.threadId !in threads
    ensures PatchActivity(p, activity) == activity && PatchThreads(p, threads) == threads
  {
  }

  /**
   * Marks thread T1 of board gore, which has three new comments, as read
   * with the request resolving, then mutes it with the request rejected:
   * both patches stay, nothing is invalidated, and one error toast is shown.
   */
  method MarkReadThenMute(starter: Post, defaultView: string)
  {
    var t1 := ThreadSummary("T1", starter, true, 0, 3, false, false, defaultView);
    var qc := new QueryClient(map[], map[ThreadKey("gore", "T1") := t1]);
    var fx := new Effects();
    var ctx := HookContext(true, None);
    var s := Run(qc, fx, ReadThread("gore", "T1"), ctx, Resolved);
    assert qc.activity[ThreadKey("gore", "T1")].isNew == false;
    assert qc.activity[ThreadKey("gore", "T1")].newCommentsAmount == 0;
    assert fx.requests == [ReadRequest("T1")];
    s := Run(qc, fx, MuteThread("gore", "T1", true), ctx, Rejected(NetworkError));
    var after := qc.activity[ThreadKey("gore", "T1")];
    assert after.muted && !after.isNew && after.newCommentsAmount == 0;
    assert qc.invalidated == {};
    assert fx.toasts == [ErrorToastFor(MuteThread("gore", "T1", true))];
  }

  // ---------------------------------------------------------------------------
  // The single-thread query

  /** `[THREAD_QUERY_KEY, { threadId, isLoggedIn }]`. */
  datatype QueryKey = QueryKey(name: string, threadId: Option<string>, isLoggedIn: bool)

  function ThreadQueryKey(threadId: Option<string>, isLoggedIn: bool): (k: QueryKey)
    ensures k.name == THREAD_QUERY_KEY && k.threadId == threadId && k.isLoggedIn == isLoggedIn
  {
    QueryKey(THREAD_QUERY_KEY, threadId, isLoggedIn)
  }

  /** `enabled: !!(fetch ?? true) && !!threadId`. */
  predicate ThreadQueryEnabled(fetch: Option<bool>, threadId: Option<string>): (r: bool)
    ensures r ==> Truthy(threadId)
    ensures fetch == Some(false) ==> !r
    ensures fetch != Some(false) ==> (r <==> Truthy(threadId))
  {
    fetch.GetOr(true) && Truthy(threadId)
  }

  /** What the query function does: return `null`, or call `getThreadData`. */
  datatype ThreadFetch = FetchNothing | FetchThreadData(threadId: string)

  function ThreadFetcher(threadId: Option<string>): (r: ThreadFetch)
    ensures r == FetchNothing <==> !Truthy(threadId)
    ensures r.FetchThreadData? ==> r.threadId == threadId.value
  {
    if !Truthy(threadId) then FetchNothing else FetchThreadData(threadId.value)
  }

  /** An enabled query always fetches, so its `null` branch only serves a disabled one. */
  lemma EnabledQueryFetches(fetch: Option<bool>, threadId: Option<string>)
    requires ThreadQueryEnabled(fetch, threadId)
    ensures ThreadFetcher(threadId) == FetchThreadData(threadId.value)
  {
  }

  /** The distinct query keys of two logins or two threads never share a cache entry. */
  lemma ThreadQueryKeyInjective(a: Option<string>, la: bool, b: Option<string>, lb: bool)
    requires ThreadQueryKey(a, la) == ThreadQueryKey(b, lb)
    ensures a == b && la == lb
  {
  }

  /** The query's placeholder data. */
  datatype Placeholder =
    | NullPlaceholder                                           // `null`
    | CachedThread(thread: Thread)                              // the cached full thread
    | SummaryThread(summary: ThreadSummary, posts: seq<Post>)   // `{ ...summary, posts: [starter], comments: {} }`
    | NoPlaceholder                                             // `undefined`

  /**
   * `placeholderData`: no thread id gives `null`; a cached thread wins; then
   * without a board id `null`; then the board's summary with its starter as
   * the only post; else nothing.
   */
  function ThreadPlaceholder(
    threads: map<string, Thread>, activity: map<ThreadKey, ThreadSummary>,
    threadId: Option<string>, boardId: Option<string>): (r: Placeholder)
    ensures r.NullPlaceholder? <==> !Truthy(threadId) || (threadId.value !in threads && !Truthy(boardId))
    ensures r.CachedThread? <==> Truthy(threadId) && threadId.value in threads
    ensures r.CachedThread? ==> r.thread == threads[threadId.value]
    ensures r.SummaryThread? ==>
      && Truthy(threadId) && Truthy(boardId)
      && ThreadKey(boardId.value, threadId.value) in activity
      && r.summary == activity[ThreadKey(boardId.value, threadId.value)]
      && r.posts == [r.summary.starter]
    ensures r.NoPlaceholder? <==>
      Truthy(threadId) && threadId.value !in threads && Truthy(boardId)
      && ThreadKey(boardId.value, threadId.value) !in activity
  {
    if !Truthy(threadId) then NullPlaceholder
    else if threadId.value in threads then CachedThread(threads[threadId.value])
    else if !Truthy(boardId) then NullPlaceholder
    else if ThreadKey(boardId.value, threadId.value) in activity then
      var summary := activity[ThreadKey(boardId.value, threadId.value)];
      SummaryThread(summary, [summary.starter])
    else NoPlaceholder
  }

  /** After an optimistic patch, the placeholder of the patched thread shows the patch. */
  lemma PlaceholderShowsPatch(p: CachePatch, threads: map<string, Thread>, activity: map<ThreadKey, ThreadSummary>)
    requires p.threadId != "" && p.boardId != ""
    ensures var r := ThreadPlaceholder(PatchThreads(p, threads), PatchActivity(p, activity), Some(p.threadId), Some(p.boardId));
      && (p.threadId in threads ==> r == CachedThread(PatchThread(p, threads[p.threadId])))
      && (p.threadId !in threads && p.Key() in activity ==> r.SummaryThread? && r.summary == PatchSummary(p, activity[p.Key()]))
  {
  }
}
