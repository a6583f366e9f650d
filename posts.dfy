/**
 * The board's post view-model: four observable fields (the post list, the
 * selected post, a status message and a report result) that each operation
 * reconciles with one answer of the post gateway.
 *
 * Each launched coroutine is one atomic method whose gateway answers are
 * parameters. Requests sent to the gateway and the coroutines an operation
 * launches without waiting for them (the reloads after a save, an edit, a
 * delete or a like) are recorded in a ghost event log; a launched reload
 * is the later call of `LoadPosts` or `LoadPostById` with its own answer.
 */
module Posts {
  import opened Wrappers
  import Decimal

  // ---------------------------------------------------------------------------
  // Kotlin `Int`
  // ---------------------------------------------------------------------------

  const INT32_MIN: int := -0x8000_0000
  const INT32_MAX: int := 0x7fff_ffff

  type Int32 = x: int | -0x8000_0000 <= x <= 0x7fff_ffff

  /** `x + 1` on a Kotlin `Int`: two's-complement wrap-around at the top. */
  function Inc32(x: Int32): (r: Int32)
    ensures r == (x + 1 - INT32_MIN) % 0x1_0000_0000 + INT32_MIN
    ensures x < INT32_MAX ==> r == x + 1
  {
    if x == INT32_MAX then INT32_MIN else x + 1
  }

  // ---------------------------------------------------------------------------
  // Data model
  // ---------------------------------------------------------------------------

  /** The fields of a board post that the view-model reads or writes. */
  datatype Post = Post(id: Int32, title: string, content: string, likeCount: Int32, isLiked: bool)

  /**
   * One answer of the gateway to a request: a response with a 2xx status
   * (`isSuccessful`) and a possibly absent body, a response with another
   * status (whose `body()` is absent), or an exception.
   */
  datatype Response<T> =
    | Ok(body: Option<T>)
    | HttpError(code: Int32, message: string)
    | Threw(message: string)

  /** The body of a report answer. */
  datatype ReportBody = ReportBody(success: bool, message: Option<string>, error: Option<string>)

  /** The request envelopes the view-model sends. */
  datatype Request =
    | LoadPostsRequest
    | LoadPostByIdRequest(postId: Int32)
    | SavePostRequest(title: string, content: string, userId: Int32, industry: string)
    | EditPostRequest(postId: Int32, title: string, content: string)
    | DeleteRequest(postId: Int32)
    | LikePostRequest(postId: Int32, userId: Int32)
    | ReportRequest(postId: Int32, userId: Int32, reason: string)

  /** A coroutine launched without waiting for it. */
  datatype Job = ReloadPosts | ReloadPost(postId: Int32)

  datatype Event = Sent(request: Request) | Launched(job: Job)

  // ---------------------------------------------------------------------------
  // Messages
  // ---------------------------------------------------------------------------

  const LOAD_FAILED := "불러오기 실패: "
  const LOAD_ERROR := "에러: "
  const DETAIL_FAILED := "게시글 조회 실패: "
  const DETAIL_ERROR := "게시글 조회 에러: "
  const SAVE_FAILED := "저장 실패: "
  const EDIT_FAILED := "수정 실패: "
  const DELETE_FAILED := "삭제 실패: "
  const MUTATION_ERROR := "에러 발생: "

  const REPORT_ACCEPTED := "신고가 접수되었습니다."
  const REPORT_REFUSED := "신고 접수 실패"
  const REPORT_EMPTY := "서버 응답이 비어있습니다."
  const REPORT_SERVER_ERROR := "서버 오류: "
  const REPORT_ERROR := "신고 중 오류 발생: "

  /**
   * The report result for each way the report request can end: the server's
   * message or the accepted text on a success flag, the server's error or the
   * refused text on a failure flag, the empty-body text, the status code on a
   * non-2xx answer, the exception's message on an exception.
   */
  function ReportMessage(response: Response<ReportBody>): (r: string)
    ensures response.Ok? && response.body.Some? && response.body.value.success ==>
      r == response.body.value.message.GetOr(REPORT_ACCEPTED)
    ensures response.Ok? && response.body.Some? && !response.body.value.success ==>
      r == response.body.value.error.GetOr(REPORT_REFUSED)
    ensures response == Ok(None) ==> r == REPORT_EMPTY
    ensures response.HttpError? ==> r == REPORT_SERVER_ERROR + Decimal.IntToDecimal(response.code)
    ensures response.Threw? ==> r == REPORT_ERROR + response.message
  {
    match response
    case Ok(Some(body)) =>
      if body.success then
        (match body.message case Some(m) => m case None => REPORT_ACCEPTED)
      else
        (match body.error case Some(e) => e case None => REPORT_REFUSED)
    case Ok(None) => REPORT_EMPTY
    case HttpError(code, _) => REPORT_SERVER_ERROR + Decimal.IntToDecimal(code)
    case Threw(m) => REPORT_ERROR + m
  }

  /** A server-error report result names the status code it came from. */
  lemma ServerErrorNamesCode(a: Response<ReportBody>, b: Response<ReportBody>)
    requires a.HttpError? && b.HttpError?
    requires ReportMessage(a) == ReportMessage(b)
    ensures a.code == b.code
  {
    var n := |REPORT_SERVER_ERROR|;
    assert Decimal.IntToDecimal(a.code) == ReportMessage(a)[n..];
    assert Decimal.IntToDecimal(b.code) == ReportMessage(b)[n..];
    Decimal.IntToDecimalInjective(a.code, b.code);
  }

  /**
   * When the server sends no text of its own, the result still tells an
   * accepted report, a refused report and an empty answer apart.
   */
  lemma ReportDefaultsDistinct(accepted: ReportBody, refused: ReportBody)
    requires accepted.success && accepted.message.None?
    requires !refused.success && refused.error.None?
    ensures ReportMessage(Ok(Some(accepted))) != ReportMessage(Ok(Some(refused)))
    ensures ReportMessage(Ok(Some(accepted))) != ReportMessage(Ok(None))
    ensures ReportMessage(Ok(Some(refused))) != ReportMessage(Ok(None))
  {
  }

  // ---------------------------------------------------------------------------
  // Likes
  // ---------------------------------------------------------------------------

  /** `posts.map { if (it.id == postId) it.copy(likeCount = it.likeCount + 1) else it }`. */
  function IncrementLikes(posts: seq<Post>, postId: Int32): (r: seq<Post>)
    ensures |r| == |posts|
    ensures forall i :: 0 <= i < |posts| ==> r[i].(likeCount := posts[i].likeCount) == posts[i]
    ensures forall i :: 0 <= i < |posts| ==>
      r[i].likeCount == if posts[i].id == postId then Inc32(posts[i].likeCount) else posts[i].likeCount
  {
    if posts == [] then []
    else
      var p := posts[0];
      [if p.id == postId then p.(likeCount := Inc32(p.likeCount)) else p] + IncrementLikes(posts[1..], postId)
  }

  /** The sum of the like counts of a list. */
  function TotalLikes(posts: seq<Post>): int {
    if posts == [] then 0 else posts[0].likeCount + TotalLikes(posts[1..])
  }

  /** How many posts of the list carry the id. */
  function CountId(posts: seq<Post>, postId: Int32): nat {
    if posts == [] then 0 else (if posts[0].id == postId then 1 else 0) + CountId(posts[1..], postId)
  }

  /**
   * Unless a counter would wrap, incrementing adds exactly one like per post
   * with that id to the total.
   */
  lemma {:induction false} IncrementLikesTotal(posts: seq<Post>, postId: Int32)
    requires forall i :: 0 <= i < |posts| && posts[i].id == postId ==> posts[i].likeCount < INT32_MAX
    ensures TotalLikes(IncrementLikes(posts, postId)) == TotalLikes(posts) + CountId(posts, postId)
  {
    if posts != [] {
      var r := IncrementLikes(posts, postId);
      IncrementLikesTotal(posts[1..], postId);
      assert r[1..] == IncrementLikes(posts[1..], postId);
    }
  }

  /** Incrementing an id that no post carries leaves the list identical. */
  lemma IncrementLikesAbsent(posts: seq<Post>, postId: Int32)
    requires forall i :: 0 <= i < |posts| ==> posts[i].id != postId
    ensures IncrementLikes(posts, postId) == posts
  {
  }

  /** The three values `toggleLike` passes to its callback. */
  datatype LikeResult = LikeResult(succeeded: bool, isLiked: bool, likeCount: Int32)

  /**
   * `toggleLike`'s callback arguments. `liked` is the answer to the like
   * request and `refetch` the answer to the detail request made after it.
   * On failure the last known selected post is reported (or false and 0);
   * on success the fetched post (or false and 0 when its body is absent).
   */
  function ToggleLikeResult(selected: Option<Post>, liked: Response<()>, refetch: Response<Post>): (r: LikeResult)
    ensures r.succeeded <==> liked.Ok? && !refetch.Threw?
    ensures !r.succeeded ==>
      r.isLiked == (selected.Some? && selected.value.isLiked) &&
      r.likeCount == (if selected.Some? then selected.value.likeCount else 0)
    ensures r.succeeded && refetch.Ok? && refetch.body.Some? ==>
      r.isLiked == refetch.body.value.isLiked && r.likeCount == refetch.body.value.likeCount
    ensures r.succeeded && (refetch.HttpError? || refetch.body.None?) ==> !r.isLiked && r.likeCount == 0
  {
    var lastKnown := LikeResult(false,
      match selected case Some(p) => p.isLiked case None => false,
      match selected case Some(p) => p.likeCount case None => 0);
    if !liked.Ok? then lastKnown
    else
      match refetch
      case Threw(_) => lastKnown
      case Ok(Some(p)) => LikeResult(true, p.isLiked, p.likeCount)
      case _ => LikeResult(true, false, 0)
  }

  /** A failed toggle reports the selected post's values, not the defaults, when there is one. */
  lemma ToggleLikeFailureKeepsLastKnown(p: Post, liked: Response<()>, refetch: Response<Post>)
    requires !liked.Ok?
    ensures ToggleLikeResult(Some(p), liked, refetch) == LikeResult(false, p.isLiked, p.likeCount)
  {
  }

  // ---------------------------------------------------------------------------
  // The view-model
  // ---------------------------------------------------------------------------

  class PostViewModel {
    var posts: seq<Post>
    var selectedPost: Option<Post>
    var statusMessage: Option<string>
    var reportResult: Option<string>
    ghost var events: seq<Event>

    constructor ()
      ensures posts == [] && selectedPost == None && statusMessage == None && reportResult == None
      ensures events == []
    {
      posts, selectedPost, statusMessage, reportResult := [], None, None, None;
      events := [];
    }

    method SetStatusMessage(message: string)
      modifies this`statusMessage
      ensures statusMessage == Some(message)
    {
      statusMessage := Some(message);
    }

    /** A list answer replaces the whole list; a failure keeps it and reports. */
    method LoadPosts(response: Response<seq<Post>>)
      modifies this`posts, this`statusMessage, this`events
      ensures events == old(events) + [Sent(LoadPostsRequest)]
      ensures posts == (if response.Ok? && response.body.Some? then response.body.value else old(posts))
      ensures statusMessage == match response
        case Ok(_) => old(statusMessage)
        case HttpError(_, m) => Some(LOAD_FAILED + m)
        case Threw(m) => Some(LOAD_ERROR + m)
    {
      events := events + [Sent(LoadPostsRequest)];
      match response {
        case Ok(body) =>
          if body.Some? {
            posts := body.value;
          }
        case HttpError(_, message) =>
          statusMessage := Some(LOAD_FAILED + message);
        case Threw(message) =>
          statusMessage := Some(LOAD_ERROR + message);
      }
    }

    /** A post answer replaces the selected post; a failure keeps it and reports. */
    method LoadPostById(postId: Int32, response: Response<Post>)
      modifies this`selectedPost, this`statusMessage, this`events
      ensures events == old(events) + [Sent(LoadPostByIdRequest(postId))]
      ensures selectedPost == (if response.Ok? && response.body.Some? then response.body else old(selectedPost))
      ensures statusMessage == match response
        case Ok(_) => old(statusMessage)
        case HttpError(_, m) => Some(DETAIL_FAILED + m)
        case Threw(m) => Some(DETAIL_ERROR + m)
    {
      events := events + [Sent(LoadPostByIdRequest(postId))];
      match response {
        case Ok(body) =>
          if body.Some? {
            selectedPost := body;
          }
        case HttpError(_, message) =>
          statusMessage := Some(DETAIL_FAILED + message);
        case Threw(message) =>
          statusMessage := Some(DETAIL_ERROR + message);
      }
    }

    /**
     * Creates a post; on success shows the server's message (absent when the
     * body is) and launches a reload of the list, with no local insert.
     */
    method SavePost(title: string, content: string, userId: Int32, industry: string, response: Response<string>)
      modifies this`statusMessage, this`events
      ensures statusMessage == match response
        case Ok(body) => body
        case HttpError(_, m) => Some(SAVE_FAILED + m)
        case Threw(m) => Some(MUTATION_ERROR + m)
      ensures events == old(events) + [Sent(SavePostRequest(title, content, userId, industry))]
        + (if response.Ok? then [Launched(ReloadPosts)] else [])
    {
      events := events + [Sent(SavePostRequest(title, content, userId, industry))];
      match response {
        case Ok(body) =>
          statusMessage := body;
          events := events + [Launched(ReloadPosts)];
        case HttpError(_, message) =>
          statusMessage := Some(SAVE_FAILED + message);
        case Threw(message) =>
          statusMessage := Some(MUTATION_ERROR + message);
      }
    }

    /** Edits a post; on success shows the server's message and launches a reload of that post only. */
    method EditPost(postId: Int32, title: string, content: string, response: Response<string>)
      modifies this`statusMessage, this`events
      ensures statusMessage == match response
        case Ok(body) => body
        case HttpError(_, m) => Some(EDIT_FAILED + m)
        case Threw(m) => Some(MUTATION_ERROR + m)
      ensures events == old(events) + [Sent(EditPostRequest(postId, title, content))]
        + (if response.Ok? then [Launched(ReloadPost(postId))] else [])
    {
      events := events + [Sent(EditPostRequest(postId, title, content))];
      match response {
        case Ok(body) =>
          statusMessage := body;
          events := events + [Launched(ReloadPost(postId))];
        case HttpError(_, message) =>
          statusMessage := Some(EDIT_FAILED + message);
        case Threw(message) =>
          statusMessage := Some(MUTATION_ERROR + message);
      }
    }

    /** Deletes a post; on success shows the server's message and launches a reload of the list. */
    method DeletePost(postId: Int32, response: Response<string>)
      modifies this`statusMessage, this`events
      ensures statusMessage == match response
        case Ok(body) => body
        case HttpError(_, m) => Some(DELETE_FAILED + m)
        case Threw(m) => Some(MUTATION_ERROR + m)
      ensures events == old(events) + [Sent(DeleteRequest(postId))]
        + (if response.Ok? then [Launched(ReloadPosts)] else [])
    {
      events := events + [Sent(DeleteRequest(postId))];
      match response {
        case Ok(body) =>
          statusMessage := body;
          events := events + [Launched(ReloadPosts)];
        case HttpError(_, message) =>
          statusMessage := Some(DELETE_FAILED + message);
        case Threw(message) =>
          statusMessage := Some(MUTATION_ERROR + message);
      }
    }

    /** A local-only increment of the matching posts' like counts. */
    method IncrementLike(postId: Int32)
      modifies this`posts
      ensures posts == IncrementLikes(old(posts), postId)
    {
      posts := IncrementLikes(posts, postId);
    }

    /** An empty stub in the source: nothing changes. */
    method DecrementLike(postId: Int32)
      ensures unchanged(this)
    {
    }

    /**
     * Sends the like request; on success fetches the post again, launches the
     * two reloads and reports the fetched values; otherwise reports the last
     * known values. No field changes: the callback's arguments are the result.
     */
    method ToggleLike(postId: Int32, userId: Int32, liked: Response<()>, refetch: Response<Post>)
      returns (succeeded: bool, isLiked: bool, likeCount: Int32)
      modifies this`events
      ensures LikeResult(succeeded, isLiked, likeCount) == ToggleLikeResult(selectedPost, liked, refetch)
      ensures events == old(events) + [Sent(LikePostRequest(postId, userId))]
        + (if liked.Ok? then [Sent(LoadPostByIdRequest(postId))] else [])
        + (if liked.Ok? && !refetch.Threw? then [Launched(ReloadPost(postId)), Launched(ReloadPosts)] else [])
    {
      events := events + [Sent(LikePostRequest(postId, userId))];
      var failed := true;
      if liked.Ok? {
        events := events + [Sent(LoadPostByIdRequest(postId))];
        if !refetch.Threw? {
          var updated := if refetch.Ok? then refetch.body else None;
          events := events + [Launched(ReloadPost(postId)), Launched(ReloadPosts)];
          succeeded := true;
          isLiked := if updated.Some? then updated.value.isLiked else false;
          likeCount := if updated.Some? then updated.value.likeCount else 0;
          failed := false;
        }
      }
      if failed {
        succeeded := false;
        isLiked := if selectedPost.Some? then selectedPost.value.isLiked else false;
        likeCount := if selectedPost.Some? then selectedPost.value.likeCount else 0;
      }
    }

    /** Sends a report and shows its outcome; only the report result changes. */
    method ReportPost(postId: Int32, userId: Int32, reason: string, response: Response<ReportBody>)
      modifies this`reportResult, this`events
      ensures reportResult == Some(ReportMessage(response))
      ensures events == old(events) + [Sent(ReportRequest(postId, userId, reason))]
    {
      events := events + [Sent(ReportRequest(postId, userId, reason))];
      reportResult := Some(ReportMessage(response));
    }

    method ClearReportResult()
      modifies this`reportResult
      ensures reportResult == None
    {
      reportResult := None;
    }
  }

  /**
   * A save that succeeds launches a reload; when that reload answers with a
   * list holding the new post, the list shows it, and loses nothing else the
   * server sent.
   */
  method SaveThenReload(others: seq<Post>, created: Post)
    requires created.title == "Title"
  {
    var vm := new PostViewModel();
    vm.SavePost("Title", "Body", 1, "Bakery", Ok(Some("saved")));
    assert vm.events[1] == Launched(ReloadPosts);
    vm.LoadPosts(Ok(Some(others + [created])));
    assert vm.posts[|others|].title == "Title";
    assert vm.statusMessage == Some("saved");
  }

  /** A report followed by a clear leaves no report result, whatever the outcome was. */
  method ReportThenClear(response: Response<ReportBody>) {
    var vm := new PostViewModel();
    vm.ReportPost(7, 1, "spam", response);
    vm.ClearReportResult();
    assert vm.reportResult == None;
    vm.ReportPost(7, 1, "spam", Ok(Some(ReportBody(false, None, Some("duplicate")))));
    assert vm.reportResult == Some("duplicate");
  }
}
