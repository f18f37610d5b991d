/**
 * Request construction for editing a post's tags and for changing a thread's
 * default view. The HTTP call itself is not modelled: its reply is an input.
 */
module PostQueries {
  import opened Wrappers
  import opened Js
  import opened ServerUtils

  datatype HttpVerb = PATCH | POST

  datatype RequestBody =
    | EditTagsBody(tags: ServerTags)          // { whisper_tags, category_tags, index_tags, content_warnings }
    | ThreadViewBody(defaultView: string)     // { defaultView }

  datatype HttpRequest = HttpRequest(verb: HttpVerb, path: string, body: RequestBody)

  /**
   * What the PATCH yields: a rejected request, or a reply whose
   * `data?.contribution` may be missing.
   */
  datatype EditReply = EditRejected | EditReplied(contribution: Option<ServerPost>)

  /** The client tags in the server's field names. */
  function EncodeTags(t: Tags): (r: ServerTags)
    ensures r.whisper_tags == t.whisperTags && r.category_tags == t.categoryTags
    ensures r.index_tags == t.indexTags && r.content_warnings == t.contentWarnings
    ensures DecodeTags(r) == t
  {
    ServerTags(
      whisper_tags := t.whisperTags,
      index_tags := t.indexTags,
      category_tags := t.categoryTags,
      content_warnings := t.contentWarnings)
  }

  /** Decoding is also a left inverse: server tags survive a decode and re-encode. */
  lemma EncodeDecodeTags(t: ServerTags)
    ensures EncodeTags(DecodeTags(t)) == t
  {
  }

  const POSTS_PREFIX := "/posts/"
  const CONTRIBUTION_SUFFIX := "/contribution"

  function EditPostPath(postId: string): string {
    POSTS_PREFIX + postId + CONTRIBUTION_SUFFIX
  }

  /** The request `editPost` sends. */
  function EditPostRequest(postId: string, tags: Tags): (r: HttpRequest)
    ensures r.verb == PATCH && r.path == EditPostPath(postId)
    ensures r.body.EditTagsBody? && DecodeTags(r.body.tags) == tags
  {
    HttpRequest(PATCH, EditPostPath(postId), EditTagsBody(EncodeTags(tags)))
  }

  /** The post `editPost` resolves to, or what it throws. */
  function EditPost(postId: string, tags: Tags, reply: EditReply, defaults: Defaults): (r: Result<Post, JsError>)
    ensures reply.EditRejected? ==> r == Failure(NetworkError)
    ensures reply == EditReplied(None) ==> r.Failure? && r.error.TypeError?
    ensures reply.EditReplied? && reply.contribution.Some? ==>
      r == Success(MakeClientPost(reply.contribution.value, defaults))
  {
    match reply
    case EditRejected => Failure(NetworkError)
    case EditReplied(None) => Failure(TypeError("serverPost is undefined"))
    case EditReplied(Some(p)) => Success(MakeClientPost(p, defaults))
  }

  /**
   * When the server stores the tags it was sent, the post `editPost` returns
   * carries exactly the caller's tags.
   */
  lemma EditPostRoundTrip(postId: string, tags: Tags, stored: ServerPost, defaults: Defaults)
    requires stored.post_id == postId
    requires stored.tags == EditPostRequest(postId, tags).body.tags
    ensures var r := EditPost(postId, tags, EditReplied(Some(stored)), defaults);
      r.Success? && r.value.tags == tags && r.value.postId == postId
  {
  }

  /** Different posts are edited through different paths. */
  lemma EditPostPathInjective(a: string, b: string)
    requires EditPostPath(a) == EditPostPath(b)
    ensures a == b
  {
    var pa, pb := EditPostPath(a), EditPostPath(b);
    assert pa[|POSTS_PREFIX|..|pa| - |CONTRIBUTION_SUFFIX|] == a;
    assert pb[|POSTS_PREFIX|..|pb| - |CONTRIBUTION_SUFFIX|] == b;
  }

  const THREADS_PREFIX := "/threads/"
  const UPDATE_VIEW_SUFFIX := "/update/view"

  function UpdateThreadViewPath(threadId: string): string {
    THREADS_PREFIX + threadId + UPDATE_VIEW_SUFFIX
  }

  /** The request `updateThreadView` sends. */
  function UpdateThreadViewRequest(threadId: string, view: string): (r: HttpRequest)
    ensures r.verb == POST && r.path == UpdateThreadViewPath(threadId)
    ensures r.body == ThreadViewBody(view)
  {
    HttpRequest(POST, UpdateThreadViewPath(threadId), ThreadViewBody(view))
  }

  /** Different threads are updated through different paths. */
  lemma UpdateThreadViewPathInjective(a: string, b: string)
    requires UpdateThreadViewPath(a) == UpdateThreadViewPath(b)
    ensures a == b
  {
    var pa, pb := UpdateThreadViewPath(a), UpdateThreadViewPath(b);
    assert pa[|THREADS_PREFIX|..|pa| - |UPDATE_VIEW_SUFFIX|] == a;
    assert pb[|THREADS_PREFIX|..|pb| - |UPDATE_VIEW_SUFFIX|] == b;
  }
}
