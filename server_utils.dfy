/**
 * Decoders from the backend's snake_case records to the client's entities
 * (comments, posts, threads, boards). Server records keep the wire names of
 * their fields; client entities use the client's camelCase names.
 *
 * Timestamps are integers; the `moment` parsing at the boundary is not modelled.
 * An optional server field whose absence the source tests by truthiness is an
 * `Option` whose `None` stands for every falsy value.
 */
module ServerUtils {
  import opened Wrappers
  import opened Js

  type Timestamp = int

  /** A name/avatar pair as the server sends it; either part may be missing. */
  datatype RawIdentity = RawIdentity(name: Option<string>, avatar: Option<string>)

  /** A user identity after defaulting: both parts are present. */
  datatype UserIdentity = UserIdentity(name: string, avatar: string)

  /**
   * The values of `DEFAULT_USER_NAME` and `DEFAULT_USER_AVATAR`, which are
   * defined in components/Auth; callers pass them in.
   */
  datatype Defaults = Defaults(userName: string, userAvatar: string)

  datatype ServerComment = ServerComment(
    comment_id: string,
    chain_parent_id: Option<string>,
    parent_comment: Option<string>,
    secret_identity: RawIdentity,
    user_identity: Option<RawIdentity>,
    accessory_avatar: Option<string>,
    created: Timestamp,
    content: string,
    is_new: bool,
    is_own: bool)

  datatype Comment = Comment(
    commentId: string,
    chainParentId: Option<string>,
    parentCommentId: Option<string>,
    parentPostId: string,
    secretIdentity: RawIdentity,
    userIdentity: Option<UserIdentity>,
    accessory: Option<string>,
    created: Timestamp,
    content: string,
    isNew: bool,
    isOwn: bool)

  datatype ServerTags = ServerTags(
    whisper_tags: seq<string>,
    index_tags: seq<string>,
    category_tags: seq<string>,
    content_warnings: seq<string>)

  datatype Tags = Tags(
    whisperTags: seq<string>,
    indexTags: seq<string>,
    categoryTags: seq<string>,
    contentWarnings: seq<string>)

  datatype ServerPostOptions = ServerPostOptions(wide: Option<bool>)

  datatype PostOptions = PostOptions(wide: Option<bool>)

  datatype ServerPost = ServerPost(
    post_id: string,
    parent_thread_id: string,
    parent_post_id: Option<string>,
    secret_identity: RawIdentity,
    user_identity: Option<RawIdentity>,
    accessory_avatar: Option<string>,
    created: Timestamp,
    content: string,
    options: Option<ServerPostOptions>,
    tags: ServerTags,
    comments: Option<seq<ServerComment>>,
    posts_amount: int,
    threads_amount: int,
    new_posts_amount: int,
    new_comments_amount: int,
    is_new: bool,
    self: bool,
    comments_amount: int)

  datatype Post = Post(
    postId: string,
    threadId: string,
    parentPostId: Option<string>,
    secretIdentity: RawIdentity,
    userIdentity: Option<UserIdentity>,
    accessory: Option<string>,
    created: Timestamp,
    content: string,
    options: PostOptions,
    tags: Tags,
    comments: Option<seq<Comment>>,
    postsAmount: int,
    threadsAmount: int,
    newPostsAmount: int,
    newCommentsAmount: int,
    isNew: bool,
    isOwn: bool,
    commentsAmount: int)

  datatype ServerThread = ServerThread(
    posts: seq<ServerPost>,
    thread_id: string,
    board_slug: string,
    thread_new_posts_amount: int,
    thread_new_comments_amount: int,
    thread_total_comments_amount: int,
    thread_total_posts_amount: int,
    thread_direct_threads_amount: int,
    thread_last_activity: Timestamp,
    muted: bool,
    hidden: bool,
    default_view: string)

  datatype Thread = Thread(
    posts: seq<Post>,
    isNew: bool,
    threadId: string,
    boardSlug: string,
    newPostsAmount: int,
    newCommentsAmount: int,
    totalCommentsAmount: int,
    totalPostsAmount: int,
    directThreadsAmount: int,
    lastActivity: Timestamp,
    muted: bool,
    hidden: bool,
    defaultView: string,
    personalIdentity: Option<RawIdentity>)

  /** An opaque board description record, passed through unchanged. */
  type Description = string

  datatype BoardSettings = BoardSettings(accentColor: Option<string>)

  datatype ServerBoardData = ServerBoardData(
    slug: string,
    avatarUrl: Option<string>,
    tagline: Option<string>,
    settings: Option<BoardSettings>,
    loggedInOnly: bool,
    delisted: bool,
    last_post: Option<Timestamp>,
    last_comment: Option<Timestamp>,
    last_activity_from_others: Option<Timestamp>,
    last_visit: Option<Timestamp>,
    descriptions: Option<seq<Description>>,
    has_updates: bool,
    muted: bool,
    pinned_order: Option<string>,
    postingIdentities: seq<RawIdentity>,
    permissions: seq<string>)

  datatype BoardData = BoardData(
    slug: string,
    avatarUrl: Option<string>,
    tagline: Option<string>,
    accentColor: Option<string>,
    loggedInOnly: bool,
    delisted: bool,
    lastUpdate: Option<Timestamp>,
    lastUpdateFromOthers: Option<Timestamp>,
    lastVisit: Option<Timestamp>,
    descriptions: seq<Description>,
    hasUpdates: bool,
    muted: bool,
    pinnedOrder: Option<Number>,
    postingIdentities: seq<RawIdentity>,
    permissions: seq<string>)

  // ---------------------------------------------------------------------------
  // Identities

  /**
   * `user_identity && { name: name || DEFAULT_USER_NAME, avatar: avatar || DEFAULT_USER_AVATAR }`.
   */
  function MakeClientUserIdentity(u: Option<RawIdentity>, defaults: Defaults): (r: Option<UserIdentity>)
    ensures r.None? <==> u.None?
    ensures u.Some? && Truthy(u.value.name) ==> r.value.name == u.value.name.value
    ensures u.Some? && !Truthy(u.value.name) ==> r.value.name == defaults.userName
    ensures u.Some? && Truthy(u.value.avatar) ==> r.value.avatar == u.value.avatar.value
    ensures u.Some? && !Truthy(u.value.avatar) ==> r.value.avatar == defaults.userAvatar
  {
    match u
    case None => None
    case Some(id) =>
      Some(UserIdentity(
        if Truthy(id.name) then id.name.value else defaults.userName,
        if Truthy(id.avatar) then id.avatar.value else defaults.userAvatar))
  }

  // ---------------------------------------------------------------------------
  // Comments and posts

  function MakeClientComment(c: ServerComment, parentPostId: string, defaults: Defaults): (r: Comment)
    ensures r.parentPostId == parentPostId
    ensures r.userIdentity == MakeClientUserIdentity(c.user_identity, defaults)
    ensures r.commentId == c.comment_id && r.secretIdentity == c.secret_identity
    ensures r.isOwn == c.is_own && r.isNew == c.is_new
  {
    Comment(
      commentId := c.comment_id,
      chainParentId := c.chain_parent_id,
      parentCommentId := c.parent_comment,
      parentPostId := parentPostId,
      secretIdentity := c.secret_identity,
      userIdentity := MakeClientUserIdentity(c.user_identity, defaults),
      accessory := c.accessory_avatar,
      created := c.created,
      content := c.content,
      isNew := c.is_new,
      isOwn := c.is_own)
  }

  /** `comments.map((comment) => makeClientComment(comment, postId))`. */
  function MakeClientComments(cs: seq<ServerComment>, postId: string, defaults: Defaults): (r: seq<Comment>)
    ensures |r| == |cs|
    ensures forall i | 0 <= i < |cs| :: r[i] == MakeClientComment(cs[i], postId, defaults)
  {
    if |cs| == 0 then []
    else [MakeClientComment(cs[0], postId, defaults)] + MakeClientComments(cs[1..], postId, defaults)
  }

  /** The tag renaming from server to client field names. */
  function DecodeTags(t: ServerTags): (r: Tags)
    ensures r.whisperTags == t.whisper_tags && r.indexTags == t.index_tags
    ensures r.categoryTags == t.category_tags && r.contentWarnings == t.content_warnings
  {
    Tags(
      whisperTags := t.whisper_tags,
      indexTags := t.index_tags,
      categoryTags := t.category_tags,
      contentWarnings := t.content_warnings)
  }

  function MakeClientPost(p: ServerPost, defaults: Defaults): (r: Post)
    ensures r.postId == p.post_id && r.threadId == p.parent_thread_id
    ensures r.secretIdentity == p.secret_identity && r.isOwn == p.self && r.isNew == p.is_new
    ensures r.userIdentity == MakeClientUserIdentity(p.user_identity, defaults)
    ensures r.tags == DecodeTags(p.tags)
    ensures r.options.wide == (if p.options.Some? then p.options.value.wide else None)
    ensures r.comments.None? <==> p.comments.None?
    ensures p.comments.Some? ==> r.comments.value == MakeClientComments(p.comments.value, p.post_id, defaults)
  {
    Post(
      postId := p.post_id,
      threadId := p.parent_thread_id,
      parentPostId := p.parent_post_id,
      secretIdentity := p.secret_identity,
      userIdentity := MakeClientUserIdentity(p.user_identity, defaults),
      accessory := p.accessory_avatar,
      created := p.created,
      content := p.content,
      options := PostOptions(wide := if p.options.Some? then p.options.value.wide else None),
      tags := DecodeTags(p.tags),
      comments := if p.comments.Some? then Some(MakeClientComments(p.comments.value, p.post_id, defaults)) else None,
      postsAmount := p.posts_amount,
      threadsAmount := p.threads_amount,
      newPostsAmount := p.new_posts_amount,
      newCommentsAmount := p.new_comments_amount,
      isNew := p.is_new,
      isOwn := p.self,
      commentsAmount := p.comments_amount)
  }

  /** Every comment of a decoded post points back at the post, in the server's order and number. */
  lemma DecodedCommentsBelongToPost(p: ServerPost, defaults: Defaults)
    requires p.comments.Some?
    ensures var r := MakeClientPost(p, defaults);
      && r.comments.Some?
      && |r.comments.value| == |p.comments.value|
      && forall i | 0 <= i < |p.comments.value| ::
           r.comments.value[i].parentPostId == p.post_id
           && r.comments.value[i].commentId == p.comments.value[i].comment_id
  {
  }

  // ---------------------------------------------------------------------------
  // Threads

  /** `serverThread.posts.map(makeClientPost)`. */
  function MakeClientPosts(ps: seq<ServerPost>, defaults: Defaults): (r: seq<Post>)
    ensures |r| == |ps|
    ensures forall i | 0 <= i < |ps| :: r[i] == MakeClientPost(ps[i], defaults)
  {
    if |ps| == 0 then [] else [MakeClientPost(ps[0], defaults)] + MakeClientPosts(ps[1..], defaults)
  }

  predicate IsOwnPost(p: Post) {
    p.isOwn
  }

  /** The comments of one post; a post whose `comments` is absent contributes none. */
  function CommentsOf(p: Post): seq<Comment> {
    if p.comments.Some? then p.comments.value else []
  }

  /** `posts.flatMap((post) => post.comments)`, absent lists contributing nothing. */
  function AllComments(posts: seq<Post>): seq<Comment> {
    if |posts| == 0 then [] else CommentsOf(posts[0]) + AllComments(posts[1..])
  }

  predicate IsOwnComment(c: Comment) {
    c.isOwn
  }

  /**
   * The identity the viewer posts under in a thread: the secret identity of
   * the first own post, else of the first own comment, else none.
   */
  function PersonalIdentity(posts: seq<Post>): (r: Option<RawIdentity>)
    ensures (exists i | 0 <= i < |posts| :: posts[i].isOwn) ==> r.Some?
    ensures r.Some? ==>
      || (exists i | 0 <= i < |posts| :: posts[i].isOwn && r.value == posts[i].secretIdentity)
      || (exists k | 0 <= k < |AllComments(posts)| ::
            AllComments(posts)[k].isOwn && r.value == AllComments(posts)[k].secretIdentity)
  {
    var i := FindIndex(posts, IsOwnPost);
    if i >= 0 then Some(posts[i].secretIdentity)
    else
      var cs := AllComments(posts);
      var k := FindIndex(cs, IsOwnComment);
      if k >= 0 then
        assert IsOwnComment(cs[k]);
        assert exists j | 0 <= j < |AllComments(posts)| ::
          AllComments(posts)[j].isOwn && cs[k].secretIdentity == AllComments(posts)[j].secretIdentity;
        Some(cs[k].secretIdentity)
      else None
  }

  predicate NoOwnComment(p: Post) {
    forall k | 0 <= k < |CommentsOf(p)| :: !CommentsOf(p)[k].isOwn
  }

  lemma {:induction false} AllCommentsAppend(a: seq<Post>, b: seq<Post>)
    ensures AllComments(a + b) == AllComments(a) + AllComments(b)
  {
    if |a| == 0 {
      assert a + b == b;
    } else {
      assert (a + b)[1..] == a[1..] + b;
      AllCommentsAppend(a[1..], b);
    }
  }

  /** The flattened comments hold an own comment exactly when some post does. */
  lemma {:induction false} AllCommentsNoOwn(posts: seq<Post>)
    ensures (forall k | 0 <= k < |AllComments(posts)| :: !AllComments(posts)[k].isOwn)
        <==> (forall i | 0 <= i < |posts| :: NoOwnComment(posts[i]))
  {
    if |posts| > 0 {
      AllCommentsNoOwn(posts[1..]);
      var head: seq<Comment>, tail: seq<Comment> := CommentsOf(posts[0]), AllComments(posts[1..]);
      assert AllComments(posts) == head + tail;
      if forall i | 0 <= i < |posts| :: NoOwnComment(posts[i]) {
        forall k | 0 <= k < |head + tail| ensures !(head + tail)[k].isOwn {
          if k >= |head| {
            assert (head + tail)[k] == tail[k - |head|];
            forall i | 0 <= i < |posts[1..]| ensures NoOwnComment(posts[1..][i]) {
              assert posts[1..][i] == posts[i + 1];
            }
          }
        }
      }
      if forall k | 0 <= k < |head + tail| :: !(head + tail)[k].isOwn {
        forall k | 0 <= k < |tail| ensures !tail[k].isOwn {
          assert tail[k] == (head + tail)[|head| + k];
        }
        forall i | 0 <= i < |posts| ensures NoOwnComment(posts[i]) {
          if i == 0 {
            forall k | 0 <= k < |head| ensures !head[k].isOwn {
              assert head[k] == (head + tail)[k];
            }
          } else {
            assert posts[i] == posts[1..][i - 1];
          }
        }
      }
    }
  }

  /** The first own post decides the personal identity. */
  lemma PersonalIdentityFromPost(posts: seq<Post>, i: nat)
    requires i < |posts| && posts[i].isOwn
    requires forall j | 0 <= j < i :: !posts[j].isOwn
    ensures PersonalIdentity(posts) == Some(posts[i].secretIdentity)
  {
  }

  /**
   * Without an own post, the first own comment decides: posts are scanned in
   * order and the comments of each post in order.
   */
  lemma PersonalIdentityFromComment(posts: seq<Post>, i: nat, k: nat)
    requires forall j | 0 <= j < |posts| :: !posts[j].isOwn
    requires i < |posts| && k < |CommentsOf(posts[i])| && CommentsOf(posts[i])[k].isOwn
    requires forall j | 0 <= j < i :: NoOwnComment(posts[j])
    requires forall m | 0 <= m < k :: !CommentsOf(posts[i])[m].isOwn
    ensures PersonalIdentity(posts) == Some(CommentsOf(posts[i])[k].secretIdentity)
  {
    var before: seq<Comment>, here: seq<Comment>, after: seq<Comment> := AllComments(posts[..i]), CommentsOf(posts[i]), AllComments(posts[i + 1..]);
    assert posts == posts[..i] + posts[i..];
    AllCommentsAppend(posts[..i], posts[i..]);
    assert AllComments(posts[i..]) == here + after;
    var cs := AllComments(posts);
    assert cs == before + (here + after);
    AllCommentsNoOwn(posts[..i]);
    assert forall j | 0 <= j < i :: posts[..i][j] == posts[j];
    var n := |before| + k;
    assert cs[n] == here[k];
    forall m | 0 <= m < n ensures !cs[m].isOwn {
      if m < |before| {
        assert cs[m] == before[m];
      } else {
        assert cs[m] == here[m - |before|];
      }
    }
    assert FindIndex(cs, IsOwnComment) == n;
  }

  /** The personal identity is absent exactly when nothing in the thread is the viewer's own. */
  lemma PersonalIdentityAbsent(posts: seq<Post>)
    ensures PersonalIdentity(posts).None? <==>
      (forall i | 0 <= i < |posts| :: !posts[i].isOwn && NoOwnComment(posts[i]))
  {
    AllCommentsNoOwn(posts);
  }

  function MakeClientThread(t: ServerThread, defaults: Defaults): (r: Result<Thread, JsError>)
    ensures r.Failure? <==> |t.posts| == 0
    ensures r.Failure? ==> r.error.TypeError?
    ensures r.Success? ==>
      && r.value.posts == MakeClientPosts(t.posts, defaults)
      && r.value.isNew == t.posts[0].is_new
      && r.value.threadId == t.thread_id
      && r.value.personalIdentity == PersonalIdentity(r.value.posts)
  {
    var posts := MakeClientPosts(t.posts, defaults);
    var personalIdentity := PersonalIdentity(posts);
    if |t.posts| == 0 then
      Failure(TypeError("serverThread.posts[0] is undefined"))
    else
      Success(Thread(
        posts := posts,
        isNew := t.posts[0].is_new,
        threadId := t.thread_id,
        boardSlug := t.board_slug,
        newPostsAmount := t.thread_new_posts_amount,
        newCommentsAmount := t.thread_new_comments_amount,
        totalCommentsAmount := t.thread_total_comments_amount,
        totalPostsAmount := t.thread_total_posts_amount,
        directThreadsAmount := t.thread_direct_threads_amount,
        lastActivity := t.thread_last_activity,
        muted := t.muted,
        hidden := t.hidden,
        defaultView := t.default_view,
        personalIdentity := personalIdentity))
  }

  /** The decoded thread keeps the server's posts, one for one and in order. */
  lemma DecodedThreadPosts(t: ServerThread, defaults: Defaults)
    requires |t.posts| > 0
    ensures var r := MakeClientThread(t, defaults);
      && r.Success?
      && |r.value.posts| == |t.posts|
      && forall i | 0 <= i < |t.posts| ::
           r.value.posts[i].postId == t.posts[i].post_id && r.value.posts[i].isOwn == t.posts[i].self
  {
  }

  // ---------------------------------------------------------------------------
  // Boards

  /** `moment.max(a, b)` on integer timestamps. */
  function Later(a: Timestamp, b: Timestamp): (r: Timestamp)
    ensures r >= a && r >= b && (r == a || r == b)
  {
    if b > a then b else a
  }

  /**
   * Decodes a board. `lastUpdate` is built as in the source: first from
   * `last_post`, then widened by `last_comment`.
   */
  method MakeClientBoardData(b: ServerBoardData) returns (r: BoardData)
    ensures r.lastUpdate.None? <==> b.last_post.None? && b.last_comment.None?
    ensures b.last_comment.None? ==> r.lastUpdate == b.last_post
    ensures b.last_post.None? ==> r.lastUpdate == b.last_comment
    ensures b.last_post.Some? && b.last_comment.Some? ==>
      && r.lastUpdate.Some?
      && r.lastUpdate.value >= b.last_post.value
      && r.lastUpdate.value >= b.last_comment.value
      && (r.lastUpdate == b.last_post || r.lastUpdate == b.last_comment)
    ensures r.lastUpdateFromOthers == b.last_activity_from_others && r.lastVisit == b.last_visit
    ensures b.descriptions.None? ==> r.descriptions == []
    ensures b.descriptions.Some? ==> r.descriptions == b.descriptions.value
    ensures r.pinnedOrder.None? <==> !Truthy(b.pinned_order)
    ensures Truthy(b.pinned_order) ==> r.pinnedOrder == Some(ParseInt(b.pinned_order.value))
    ensures r.accentColor == (if b.settings.Some? then b.settings.value.accentColor else None)
    ensures r.slug == b.slug && r.hasUpdates == b.has_updates && r.muted == b.muted
    ensures r.avatarUrl == b.avatarUrl && r.tagline == b.tagline
    ensures r.loggedInOnly == b.loggedInOnly && r.delisted == b.delisted
    ensures r.postingIdentities == b.postingIdentities && r.permissions == b.permissions
  {
    var lastUpdate: Option<Timestamp> := None;
    if b.last_post.Some? {
      lastUpdate := b.last_post;
    }
    if b.last_comment.Some? {
      var commentUpdate := b.last_comment.value;
      lastUpdate := if lastUpdate.Some? then Some(Later(lastUpdate.value, commentUpdate)) else Some(commentUpdate);
    }
    r := BoardData(
      slug := b.slug,
      avatarUrl := b.avatarUrl,
      tagline := b.tagline,
      accentColor := if b.settings.Some? then b.settings.value.accentColor else None,
      loggedInOnly := b.loggedInOnly,
      delisted := b.delisted,
      lastUpdate := lastUpdate,
      lastUpdateFromOthers := b.last_activity_from_others,
      lastVisit := b.last_visit,
      descriptions := b.descriptions.GetOr([]),
      hasUpdates := b.has_updates,
      muted := b.muted,
      pinnedOrder := if Truthy(b.pinned_order) then Some(ParseInt(b.pinned_order.value)) else None,
      postingIdentities := b.postingIdentities,
      permissions := b.permissions);
  }
}
