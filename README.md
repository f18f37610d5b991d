# BobaBoard front end: decoders, hosts and thread mutations, in Dafny

This project models four parts of the BobaBoard web client:

- **The server decoders** (`ServerUtils`, server_utils.dfy). They turn the backend's snake_case records (comments, posts, threads, boards) into the client's camelCase entities. User identities get a default name and avatar. A thread's personal identity is the secret identity of the viewer's first own post, or else of their first own comment. A board's last-update time is the later of its last post and its last comment.
- **Hosts, the sandbox and the backend base URL** (`ServerHosts`, server_hosts.dfy). The current host is the browser's hostname, or on the server the request's host without its port. The sandbox allow-list decides which paths a sandbox host may show and where to redirect. The backend base URL is chosen from the environment, the `devServer` item in `localStorage` and the host.
- **The thread hooks** (`ThreadHooks`, thread_hooks.dfy). These are the four optimistic mutations: mute, change default view, hide and mark as read. Each runs through `onMutate`, the mutation function, then `onError` or `onSuccess`, in the order react-query calls them. The query cache is a `QueryClient` object and the toasts and requests are recorded in an `Effects` object. The module also covers the single-thread query's key, its `enabled` flag, its fetcher and its placeholder data.
- **Two request builders and the home page** (`PostQueries`, post_queries.dfy; `IndexPage`, index_page.dfy):
  - `editPost` sends a PATCH to `/posts/{id}/contribution` and decodes the reply;
  - `updateThreadView` sends a POST to `/threads/{id}/update/view`;
  - the home page seeds the all-boards query from `localStorage`, clearing every update badge in place, and maps boards to the boards display. `slug.replace("_", " ")` replaces only the first underscore.

`Js` (js.dfy) models the JavaScript built-ins the code relies on: truthiness of optional strings, `indexOf`, `startsWith`, `find`, `replace` with a string pattern, `parseInt` on digit strings, and thrown errors as `Result.Failure`. `Wrappers` (wrappers.dfy) holds `Option` and `Result`.

Inputs that the source reads from the world are parameters here:

- `window.location.hostname`, `localStorage` and `process.env` are collected in `ServerHosts.Env`;
- the request's `host` header and `asPath` are in `ServerHosts.PageContext`;
- `isLoggedIn` and `activityOnly` are in `ThreadHooks.HookContext`;
- how a request settles is a `Settlement` or an `EditReply`;
- what `JSON.parse` makes of the stored snapshot is an `IndexPage.Parsed`;
- `DEFAULT_USER_NAME` and `DEFAULT_USER_AVATAR` are in `ServerUtils.Defaults`.

Three behaviours of the code are easy to miss:

- **A logged-out mark-as-read still clears the thread's activity in the cache.** react-query runs `onMutate` before the mutation function throws, so the optimistic patch is applied anyway (`ThreadHooks.LoggedOutReadSendsNothing`).
- **A host with no allow-list.** When `NEXT_PUBLIC_TEST_SANDBOX` forces sandbox mode on a host that is not a key of the allow-list, `getRedirectToSandboxLocation` throws a `TypeError`, and so does `isAllowedSandboxLocation` when it has a page context with a non-empty path; without one it answers `true` (`ServerHosts.ForcedSandboxOnUnlistedHost`). Hosts named after `Object.prototype` properties are the exception; see "## Left out".
- **Decoders that can throw.** `makeClientThread` throws on a thread with no posts, and `editPost` throws when the reply has no `contribution`. Both are modelled as `Failure(TypeError(..))`.

`ThreadHooks.MarkReadThenMute` is a worked example of the hooks. It marks a thread with new comments as read, with the request resolving, and then mutes it, with the request rejected. Both patches stay in the cache, nothing is invalidated, and one error toast is shown.

## Model

| member | source | states |
|---|---|---|
| Js.IndexOf | utils/server-utils.ts:138-140 | the result is -1 exactly when the character is absent; otherwise it is the first position holding it |
| Js.ReplaceFirst | pages/index.tsx:103 | keeps the length; no match leaves the string unchanged; otherwise only the first occurrence is replaced |
| Js.ReplaceFirstAfterPrefix | pages/index.tsx:103 | after a prefix free of the pattern, the first occurrence is replaced and everything after it stays as it was |
| Js.FindIndex | utils/server-utils.ts:68-73 | `find`: -1 exactly when no element matches; otherwise the first matching element |
| Js.ParseInt | utils/server-utils.ts:121-123 | `parseInt` is `NaN` exactly when the string is empty or does not start with a digit |
| Js.ParseIntDecimal | utils/server-utils.ts:121-123 | `parseInt` of a number's decimal spelling gives that number back |
| Js.ParseIntStopsAtNonDigit | utils/server-utils.ts:121-123 | `parseInt` ignores whatever follows the leading digits |
| ServerUtils.MakeClientUserIdentity | utils/server-utils.ts:19-22 | absent exactly when the server identity is absent; a missing or empty name or avatar is replaced by the default, otherwise it is kept |
| ServerUtils.MakeClientComment | utils/server-utils.ts:7-28 | the comment points at the given parent post, keeps its id, secret identity, own and new flags, and gets its user identity defaulted |
| ServerUtils.MakeClientComments | utils/server-utils.ts:54-56 | one client comment per server comment, in order, each tied to the post's id |
| ServerUtils.DecodeTags | utils/server-utils.ts:48-53 | each client tag list is the server list of the same kind |
| ServerUtils.MakeClientPost | utils/server-utils.ts:30-64 | keeps id, thread, secret identity, own and new flags; decodes the tags; comments are absent exactly when the server's are, else decoded against this post's id |
| ServerUtils.DecodedCommentsBelongToPost | utils/server-utils.ts:54-56 | every decoded comment names its post as parent and keeps the server comment's id, with count and order preserved |
| ServerUtils.MakeClientPosts | utils/server-utils.ts:67 | one client post per server post, in order |
| ServerUtils.AllCommentsNoOwn | utils/server-utils.ts:71-73 | the flattened comments hold an own comment exactly when some post's comments do |
| ServerUtils.PersonalIdentityFromPost | utils/server-utils.ts:68 | the first own post's secret identity is the personal identity |
| ServerUtils.PersonalIdentityFromComment | utils/server-utils.ts:69-74 | with no own post, the first own comment in post order decides the personal identity |
| ServerUtils.PersonalIdentity | utils/server-utils.ts:68-74 | an own post always yields an identity; any identity found is the secret identity of an own post or an own comment |
| ServerUtils.PersonalIdentityAbsent | utils/server-utils.ts:68-74 | there is no personal identity exactly when no post and no comment is the viewer's own |
| ServerUtils.MakeClientThread | utils/server-utils.ts:66-91 | throws a TypeError exactly when the thread has no posts; otherwise it holds the decoded posts, the first post's new flag, the thread id and the personal identity |
| ServerUtils.DecodedThreadPosts | utils/server-utils.ts:67-77 | a thread with posts decodes, keeping each post's id and own flag in order |
| ServerUtils.Later | utils/server-utils.ts:100-102 | the later of two times is at least both and equal to one |
| ServerUtils.MakeClientBoardData | utils/server-utils.ts:93-127 | last update absent exactly when post and comment times are both absent, else the later of the two present; descriptions default to empty; pinned order absent exactly when the string is falsy, else `parseInt` of it; every other field passed through |
| ServerHosts.WithoutPort | utils/server-utils.ts:216-219 | the result is a prefix of the host with no `:`, and the host goes on with `:` where it stops |
| ServerHosts.GetCurrentHost | utils/server-utils.ts:129-142 | the browser hostname when there is a window; otherwise absent exactly when the request has no host, the whole host if ports are wanted or there is no `:`, else the host cut at its first `:` |
| ServerHosts.IsSandbox | utils/server-utils.ts:145-151 | a forced test variable makes it a sandbox; otherwise a sandbox means the current host is the sandbox host |
| ServerHosts.IsSandboxCases | utils/server-utils.ts:144-151 | sandbox exactly when the test variable is `"true"` or the current host is the sandbox host |
| ServerHosts.SandboxHostsAreListed | utils/server-utils.ts:144-162 | every sandbox host has an allow-list |
| ServerHosts.IsAllowedSandboxLocation | utils/server-utils.ts:163-176 | allowed without a context, a path, a sandbox or a host; otherwise a listed host gets whether its list holds the path, and an unlisted host throws a TypeError |
| ServerHosts.GetRedirectToSandboxLocation | utils/server-utils.ts:178-188 | throws the sandbox error exactly when there is no host or no sandbox; otherwise a listed host gets the first path of its list, and an unlisted host throws a TypeError |
| ServerHosts.AllowedLookupFailsOnlyWhenForced | utils/server-utils.ts:163-188 | a lookup only throws its TypeError when the sandbox is forced by the environment |
| ServerHosts.ForcedSandboxOnUnlistedHost | utils/server-utils.ts:146-187 | for every environment and context: a forced sandbox on an unlisted host, with a path, makes both lookups throw a TypeError |
| ServerHosts.ForcedSandboxOnExampleHost | utils/server-utils.ts:146-187 | a browser on `example.com` with the sandbox forced is such a case |
| ServerHosts.RedirectTargetIsAllowed | utils/server-utils.ts:178-188 | the redirect target is an allowed location of the same host |
| ServerHosts.IsStaging | utils/server-utils.ts:190-195 | never staging outside the browser |
| ServerHosts.IsStagingMatchesBaseUrl | utils/server-utils.ts:190-195 | `isStaging` holds exactly in the browser for a host the base-URL logic classifies as staging |
| ServerHosts.GetServerBaseUrl | utils/server-utils.ts:197-242 | production picks the staging or production backend by host; otherwise the env override wins, then `devServer`, then port 4200 of a local host without its port, or the staging or production backend |
| PostQueries.EncodeTags | utils/queries/post.ts:12-17 | each server tag list is the client list of the same kind, and decoding gives the client tags back |
| PostQueries.EncodeDecodeTags | utils/queries/post.ts:12-17 | re-encoding decoded server tags gives them back |
| PostQueries.EditPostRequest | utils/queries/post.ts:12-17 | a PATCH to the post's contribution path whose body decodes to the caller's tags |
| PostQueries.EditPost | utils/queries/post.ts:5-20 | a rejected request fails; a reply without a contribution throws a TypeError; otherwise the decoded contribution |
| PostQueries.EditPostRoundTrip | utils/queries/post.ts:5-20 | when the server stores the tags sent, the edited post carries exactly the caller's tags and its id |
| PostQueries.EditPostPathInjective | utils/queries/post.ts:12 | distinct posts are edited through distinct paths |
| PostQueries.UpdateThreadViewRequest | utils/queries/post.ts:29-31 | a POST to the thread's view path with the view as `defaultView` |
| PostQueries.UpdateThreadViewPathInjective | utils/queries/post.ts:29 | distinct threads are updated through distinct paths |
| ThreadHooks.PatchActivity | src/lib/api/hooks/thread.ts:179-188 | keeps the set of cached entries; only the target board's target thread changes; on it, mute, hide and view set the requested flag, and an activity clear leaves it not new with zero new posts and comments, its starter post likewise |
| ThreadHooks.PatchThreads | src/lib/api/hooks/thread.ts:47-51 | keeps the set of cached threads; only the target thread changes; on it, mute, hide and view set the requested flag, and an activity clear leaves it not new with zero new posts and comments, its first post likewise, with the number of posts kept |
| ThreadHooks.ActivityClearedIdempotent | src/lib/api/hooks/thread.ts:179-188 | clearing a thread's activity twice equals clearing it once, for the summaries and the thread data |
| ThreadHooks.MuteRoundTrip | src/lib/api/hooks/thread.ts:47-51 | muting and then restoring the old flag gives back the same cache |
| ThreadHooks.HideRoundTrip | src/lib/api/hooks/thread.ts:133-137 | hiding and then restoring the old flag gives back the same cache |
| ThreadHooks.MuteKeepsReadState | src/lib/api/hooks/thread.ts:47-51 | muting changes the muted flag and leaves the read state and starter alone |
| ThreadHooks.QueryClient.Patch | src/lib/api/hooks/thread.ts:47-51 | the cache afterwards is the patched cache, with the patch logged and invalidations unchanged |
| ThreadHooks.QueryClient.InvalidateQueries | src/lib/api/hooks/thread.ts:66 | adds the key to the invalidated keys and changes nothing else |
| ThreadHooks.OnMutate | src/lib/api/hooks/thread.ts:41-189 | applies exactly the optimistic patches (none for a read without a thread or board id), shows the view toast only for a view change, and sends nothing |
| ThreadHooks.MutationFn | src/lib/api/hooks/thread.ts:164-172 | a logged-out read rejects and an empty-id read resolves, neither sending anything; every other call sends its request and settles as the network does |
| ThreadHooks.OnError | src/lib/api/hooks/thread.ts:53-194 | adds exactly the mutation's error toast |
| ThreadHooks.ErrorToastFor | src/lib/api/hooks/thread.ts:53-59 | every mutation's failure shows an error toast whose message starts with "Error while " (the four messages of lines 55, 100, 141 and 191) |
| ThreadHooks.OnSuccess | src/lib/api/hooks/thread.ts:60-197 | mute and hide invalidate the all-boards query; nothing else changes |
| ThreadHooks.Run | src/lib/api/hooks/thread.ts:29-72 | the whole lifecycle: patches first and never rolled back, the requests sent, the error toast only on rejection, invalidation only on success |
| ThreadHooks.MuteAndHideInvalidateOnSuccess | src/lib/api/hooks/thread.ts:60-66 | mute and hide settle as the network does, invalidate the all-boards key, and patch the caller's thread |
| ThreadHooks.ViewAndReadInvalidateNothing | src/lib/api/hooks/thread.ts:104-108 | view changes and reads invalidate nothing |
| ThreadHooks.OptimisticPatchArguments | src/lib/api/hooks/thread.ts:127-138 | mute and hide patch and request with exactly the caller's board, thread and flag |
| ThreadHooks.ViewChangeConfirmsOptimistically | src/lib/api/hooks/thread.ts:86-97 | a view change patches with no category filter and shows its success toast before it settles |
| ThreadHooks.LoggedOutReadSendsNothing | src/lib/api/hooks/thread.ts:165-167 | a logged-out read rejects with the login error and sends nothing, yet its patch is applied |
| ThreadHooks.EmptyThreadReadResolves | src/lib/api/hooks/thread.ts:168-170 | a logged-in read of an empty thread id resolves with no request and no patch |
| ThreadHooks.ReadPatchNeedsBothIds | src/lib/api/hooks/thread.ts:175-177 | the read patch is skipped exactly when the thread or board id is missing |
| ThreadHooks.PatchOfUncachedThread | src/lib/api/hooks/thread.ts:179-188 | a patch of a thread that is not cached leaves the cache as it was |
| ThreadHooks.ThreadQueryKey | src/lib/api/hooks/thread.ts:225 | the key names the thread query, the thread id and the login state |
| ThreadHooks.ThreadQueryKeyInjective | src/lib/api/hooks/thread.ts:225 | equal keys mean the same thread and the same login state |
| ThreadHooks.ThreadQueryEnabled | src/lib/api/hooks/thread.ts:268 | enabled only with a truthy thread id; `fetch: false` disables it; otherwise enabled exactly when the thread id is truthy |
| ThreadHooks.ThreadFetcher | src/lib/api/hooks/thread.ts:226-232 | fetches nothing exactly when the id is falsy; otherwise fetches that id |
| ThreadHooks.EnabledQueryFetches | src/lib/api/hooks/thread.ts:268 | an enabled query always fetches its thread |
| ThreadHooks.ThreadPlaceholder | src/lib/api/hooks/thread.ts:241-263 | null without a thread id, or with an uncached thread and no board id; the cached thread when there is one; else the board summary with its starter as only post; else none, with each case as an iff |
| ThreadHooks.PlaceholderShowsPatch | src/lib/api/hooks/thread.ts:241-263 | after an optimistic patch the placeholder of the patched thread shows the patch |
| IndexPage.WithoutUpdates | pages/index.tsx:29 | the same boards, in order, with every update flag false and every other field unchanged |
| IndexPage.WithoutUpdatesIdempotent | pages/index.tsx:29 | clearing the flags twice equals clearing them once |
| IndexPage.ClearHasUpdates | pages/index.tsx:29 | the array afterwards holds the stored boards with their update flags cleared |
| IndexPage.InitialData | pages/index.tsx:15-31 | no seed without a stored snapshot or when the value has no `forEach`; a SyntaxError on malformed text; a TypeError on `null` or an uncallable `forEach`; otherwise seeds the parsed boards themselves, cleared in place |
| IndexPage.ToDisplay | pages/index.tsx:102-112 | the displayed slug, the link built from the slug, and the board's avatar, tagline, accent color and update flag |
| IndexPage.DisplayAll | pages/index.tsx:102-112 | one display entry per board, in order |
| IndexPage.DisplayBoards | pages/index.tsx:102 | no boards before any data; otherwise every board mapped |
| IndexPage.SeededBoardsShowNoUpdates | pages/index.tsx:29 | a seeded list shows no update badge on any board |
| IndexPage.DisplaySlug | pages/index.tsx:103 | keeps the length; a slug without underscores is shown as it is |
| IndexPage.BoardUrl | pages/index.tsx:110 | `/!` followed by the slug with its first space, if any, turned into `_` and every other character kept |
| IndexPage.DisplaySlugChangesFirstUnderscoreOnly | pages/index.tsx:103 | the displayed slug differs from the stored one only at its first underscore, which becomes a space |
| IndexPage.OnlyFirstUnderscoreReplaced | pages/index.tsx:103 | underscores after the first are kept (`a_b_c` shows as `a b_c`) |
| IndexPage.OnlyFirstSpaceReplaced | pages/index.tsx:110 | spaces after the first stay in the link (`a b c` links to `/!a_b c`) |
| IndexPage.LinkKeepsStoredSlug | pages/index.tsx:110 | a slug without spaces links to `/!` followed by itself |
| IndexPage.DisplaySlugRoundTrip | pages/index.tsx:103-110 | for a slug without spaces, replacing the display slug's first space by an underscore gives the stored slug back |

## Left out

- Network calls (`axios`, `getThreadData`, `muteThread`, `hideThread`, `markThreadAsRead`): only the requests sent and how they settle are modelled, because the backend is not part of this client.
- The cache helpers of src/lib/api/cache/thread.ts are not part of this model. Each `setThread*InCache` is given the effect its name implies: set one flag of the target thread, or clear its activity counters, wherever it is cached. Each `getThread*InCache` is a map lookup.
- ThreadHooks.PatchActivity: `activityOnly` is carried in the patch but has no modelled effect, because its meaning lives in the unseen cache helper.
- ThreadHooks.PatchThreads: the `categoryFilter` of a default-view patch (always `null` from the hook) is carried but has no modelled effect. The patch applies to the thread whatever its value, because how the unseen cache helper uses the filter is not known.
- react-query's scheduling and retention (`cacheTime`, `staleTime`, `refetchOnMount`, `refetchOnWindowFocus`, `notifyOnChangeProps`, `initialStale`), concurrent mutations and re-renders are not modelled: they are the library's behaviour, not this client's.
- Debug logging and toast rendering: a toast is recorded only by its kind and message.
- JSX, styles and the static text of the home page are presentation only.
- `createLinkTo` and `BOARD_URL_PATTERN` are defined in utils/link-utils, which is not part of this model. A link is kept as the url it is built from.
- The values of `DEFAULT_USER_NAME` and `DEFAULT_USER_AVATAR` are defined in components/Auth, which is not part of this model. They are a parameter.
- `moment.utc` parsing and `toDate` are not modelled: timestamps are integers and `moment.max` is the larger one.
- Js.ParseInt: accepts any string but only models leading decimal digits. Leading whitespace, signs, `0x` prefixes and the precision limit of JS numbers are not modelled.
- `JSON.parse` is abstracted to the outcomes `initialData` can tell apart: malformed text, `null`, a value with a falsy `forEach`, one whose `forEach` is truthy but not a function, and a list of boards. A list is taken to hold well-formed board objects, so the throw of assigning `has_updates` on a primitive element is not modelled.
- ServerHosts.GetRedirectToSandboxLocation: the allow-list is modelled as its own keys only. A host named `constructor` or `__proto__` finds an `Object.prototype` property in the source, and the redirect returns `undefined` instead of throwing. The model throws a TypeError for it like for any unlisted host. The same holds for ServerHosts.IsAllowedSandboxLocation, where such a host also throws in the source but with a different message.
- The shapes of `postingIdentities`, `permissions` and `descriptions` are passed through unchanged and are not modelled further.
- ServerHosts.IsSandbox: returns `false` where the source returns the falsy host value itself. Every caller uses it only as a condition.
- Fields of a server record that the source reads through `any` without a guard (`secret_identity`, `tags`) are required fields. The throw on their absence is not modelled.
- The `comments: {}` field that the placeholder adds to a board summary is not modelled, because the thread type has no such field.
- ServerUtils.MakeClientPost, ServerUtils.MakeClientComment and ServerUtils.MakeClientThread: the contracts do not restate the plain pass-through fields (counts, timestamps, content, accessory, parent ids, the thread's counters and flags). The bodies copy them one for one.
- `personalIdentity` in the source flattens `post.comments` with `flatMap`, which would keep an `undefined` entry for a post without comments. The optional chaining in `comment?.isOwn` skips it, so the model has such a post contribute no comments.
- The test files and pages/[boardId]/index.tsx are callers and fixtures, not behaviour of the modelled core.
