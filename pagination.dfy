/**
 * The cursor-paginated fetch loop shared by GetJoinRequests and GetGroupPosts.
 *
 * The goroutine and its two channels are replaced by a sequential run that
 * consumes a script of replies, one per request, and yields a trace: the
 * batches sent on the data channel, the error sent on the error channel (at
 * most one), the URLs requested, and why the loop stopped.
 */
module Pagination {
  import opened Wrappers
  import opened Api

  /** One decoded page: its items and its `nextPageCursor`, which may be null. */
  datatype Page<T> = Page(data: seq<T>, nextPageCursor: Option<string>)

  /**
   * Why the loop stopped: the page limit, a null cursor, an error, or (an
   * artefact of the model) the script of replies ran out.
   */
  datatype Stop = LimitReached | LastPage | Failed | ScriptEnded

  datatype Trace<T> = Trace(batches: seq<seq<T>>, error: Option<Error>, urls: seq<string>, stop: Stop)

  /** The variadic `limit ...int`: no argument means -1, which never equals a page count. */
  function ReqLimit(limit: seq<int>): (k: int)
    ensures |limit| > 0 ==> k == limit[0]
    ensures |limit| == 0 ==> k < 0
  {
    if |limit| == 0 then -1 else limit[0]
  }

  /** The request URL: the base, with `?cursor=` and the cursor appended when one is held. */
  function PageUrl(base: string, cursor: string): string {
    if cursor != "" then base + "?cursor=" + cursor else base
  }

  const GroupsHost: string := "https://groups.roblox.com"

  function JoinRequestsUri(groupId: int): string {
    GroupsHost + "/v1/groups/" + FormatInt(groupId) + "/join-requests/"
  }

  /** The wall-posts endpoint's own query string: 100 posts a page, newest first. */
  const PostsQuery: string := "?limit=100&sortOrder=Desc"

  function PostsUri(groupId: int): string {
    GroupsHost + "/v2/groups/" + FormatInt(groupId) + "/wall/posts" + PostsQuery
  }

  /** A reply that the loop delivers and continues after: status 200, decoded, with a cursor. */
  predicate Continues<T>(reply: Reply<Page<T>>) {
    reply.Answered? && reply.status == StatusOK && reply.body.Some? && reply.body.value.nextPageCursor.Some?
  }

  /**
   * The loop from the state (`curPage`, `cursor`): `pages[curPage]` is the
   * reply to the request made in that state. Checked in the loop's order: the
   * page limit, the request, its status and decode, the delivery, the null cursor.
   */
  function Fetch<T>(base: string, reqLimit: int, pages: seq<Reply<Page<T>>>, curPage: nat, cursor: string): Trace<T>
    decreases |pages| - curPage
  {
    if curPage == reqLimit then Trace([], None, [], LimitReached)
    else if curPage >= |pages| then Trace([], None, [], ScriptEnded)
    else
      var url := PageUrl(base, cursor);
      match Decoded(pages[curPage])
      case Failure(e) => Trace([], Some(e), [url], Failed)
      case Success(page) =>
        match page.nextPageCursor
        case None => Trace([page.data], None, [url], LastPage)
        case Some(next) =>
          var rest := Fetch(base, reqLimit, pages, curPage + 1, next);
          Trace([page.data] + rest.batches, rest.error, [url] + rest.urls, rest.stop)
  }

  /** The whole run, from page 0 and no cursor. */
  function Stream<T>(base: string, reqLimit: int, pages: seq<Reply<Page<T>>>): Trace<T> {
    Fetch(base, reqLimit, pages, 0, "")
  }

  /** `t` with `batches` and `urls` delivered and requested before it. */
  function After<T>(batches: seq<seq<T>>, urls: seq<string>, t: Trace<T>): Trace<T> {
    Trace(batches + t.batches, t.error, urls + t.urls, t.stop)
  }

  lemma AfterStep<T>(batches: seq<seq<T>>, urls: seq<string>, data: seq<T>, url: string, t: Trace<T>)
    ensures After(batches, urls, Trace([data] + t.batches, t.error, [url] + t.urls, t.stop)) ==
            After(batches + [data], urls + [url], t)
  {
    assert batches + ([data] + t.batches) == (batches + [data]) + t.batches;
    assert urls + ([url] + t.urls) == (urls + [url]) + t.urls;
  }

  /** The loop body of the fetch goroutine, run to completion. */
  method FetchPages<T>(base: string, reqLimit: int, pages: seq<Reply<Page<T>>>) returns (t: Trace<T>)
    ensures t == Stream(base, reqLimit, pages)
  {
    var curPage: nat := 0;
    var cursor := "";
    var batches: seq<seq<T>> := [];   // what was sent on the data channel
    var urls: seq<string> := [];      // the requests made
    var error: Option<Error> := None; // what was sent on the error channel
    var stop: Stop;
    while true
      invariant curPage <= |pages|
      invariant Stream(base, reqLimit, pages) == After(batches, urls, Fetch(base, reqLimit, pages, curPage, cursor))
      decreases |pages| - curPage
    {
      if curPage == reqLimit {
        stop := LimitReached;
        break;
      }
      if curPage == |pages| {
        stop := ScriptEnded;
        break;
      }
      ghost var sentBefore, askedBefore := batches, urls;
      var newUri := base;
      if cursor != "" {
        newUri := newUri + "?cursor=" + cursor;
      }
      urls := urls + [newUri];
      var reply := Decoded(pages[curPage]);
      if reply.Failure? {
        error, stop := Some(reply.error), Failed;
        break;
      }
      var data := reply.value;
      batches := batches + [data.data];
      if data.nextPageCursor.None? {
        stop := LastPage;
        break;
      }
      AfterStep(sentBefore, askedBefore, data.data, newUri,
                Fetch(base, reqLimit, pages, curPage + 1, data.nextPageCursor.value));
      cursor := data.nextPageCursor.value;
      curPage := curPage + 1;
    }
    t := Trace(batches, error, urls, stop);
  }

  /**
   * GetJoinRequests: needs credentials before the loop starts; requests are
   * authorized. `setup` is what creating the cookie jar and marshalling the
   * empty request body gave: a failure there is returned at once, before any
   * request is made.
   */
  method GetJoinRequests<T>(g: Group, setup: Outcome<Error>, limit: seq<int>, pages: seq<Reply<Page<T>>>)
    returns (r: Result<Trace<T>, Error>)
    ensures !g.authenticated ==> r == Failure(RequiresCookie)
    ensures g.authenticated && setup.Fail? ==> r == Failure(setup.error)
    ensures g.authenticated && setup.Pass? ==> r == Success(Stream(JoinRequestsUri(g.id), ReqLimit(limit), pages))
  {
    if !g.authenticated {
      return Failure(RequiresCookie);
    }
    if setup.Fail? {
      return Failure(setup.error);
    }
    var t := FetchPages(JoinRequestsUri(g.id), ReqLimit(limit), pages);
    r := Success(t);
  }

  /** GetGroupPosts: the wall is public, so no credentials are checked. */
  method GetGroupPosts<T>(g: Group, limit: seq<int>, pages: seq<Reply<Page<T>>>) returns (t: Trace<T>)
    ensures t == Stream(PostsUri(g.id), ReqLimit(limit), pages)
  {
    t := FetchPages(PostsUri(g.id), ReqLimit(limit), pages);
  }

  /**
   * Bookkeeping of every run: at most one request per scripted reply, an
   * error exactly when the loop stopped on a failure, and one batch per
   * request except the failed one.
   */
  lemma {:induction false} FetchShape<T>(base: string, reqLimit: int, pages: seq<Reply<Page<T>>>, curPage: nat, cursor: string)
    requires curPage <= |pages|
    ensures var t := Fetch(base, reqLimit, pages, curPage, cursor);
      && |t.urls| <= |pages| - curPage
      && (t.error.Some? <==> t.stop == Failed)
      && (t.error.Some? ==> |t.batches| + 1 == |t.urls|)
      && (t.error.None? ==> |t.batches| == |t.urls|)
    decreases |pages| - curPage
  {
    if curPage != reqLimit && curPage < |pages| && Continues(pages[curPage]) {
      FetchShape(base, reqLimit, pages, curPage + 1, pages[curPage].body.value.nextPageCursor.value);
    }
  }

  lemma {:induction false} FetchWithinLimit<T>(base: string, reqLimit: int, pages: seq<Reply<Page<T>>>, curPage: nat, cursor: string)
    requires curPage <= reqLimit
    ensures var t := Fetch(base, reqLimit, pages, curPage, cursor);
      |t.urls| <= reqLimit - curPage && |t.batches| <= reqLimit - curPage
    decreases |pages| - curPage
  {
    if curPage != reqLimit && curPage < |pages| && Continues(pages[curPage]) {
      FetchWithinLimit(base, reqLimit, pages, curPage + 1, pages[curPage].body.value.nextPageCursor.value);
    }
  }

  /**
   * With a limit k >= 0, at most k requests are made and at most k batches
   * delivered; with k = 0 nothing is requested at all.
   */
  lemma PageLimit<T>(base: string, k: int, pages: seq<Reply<Page<T>>>)
    requires k >= 0
    ensures |Stream(base, k, pages).urls| <= k && |Stream(base, k, pages).batches| <= k
    ensures k == 0 ==> Stream(base, k, pages) == Trace([], None, [], LimitReached)
  {
    FetchWithinLimit(base, k, pages, 0, "");
  }

  /** Without a limit (any negative one, -1 included) the page cap never stops the loop. */
  lemma {:induction false} UnboundedNeverCapped<T>(base: string, reqLimit: int, pages: seq<Reply<Page<T>>>, curPage: nat, cursor: string)
    requires reqLimit < 0
    ensures Fetch(base, reqLimit, pages, curPage, cursor).stop != LimitReached
    decreases |pages| - curPage
  {
    if curPage < |pages| && Continues(pages[curPage]) {
      UnboundedNeverCapped(base, reqLimit, pages, curPage + 1, pages[curPage].body.value.nextPageCursor.value);
    }
  }

  /**
   * The k-th batch of `t` is the data of page `first + k`, which decoded with
   * status 200; every batch but the last came with a cursor.
   */
  ghost predicate DeliveredInOrder<T>(t: Trace<T>, pages: seq<Reply<Page<T>>>, first: nat) {
    forall k :: 0 <= k < |t.batches| ==> DeliveredAt(t, pages, first, k)
  }

  /** Batch `k` of `t` is the data of page `first + k`, as `DeliveredInOrder` says. */
  ghost predicate DeliveredAt<T>(t: Trace<T>, pages: seq<Reply<Page<T>>>, first: nat, k: nat)
    requires k < |t.batches|
  {
    && first + k < |pages|
    && Decoded(pages[first + k]).Success?
    && t.batches[k] == Decoded(pages[first + k]).value.data
    && (k < |t.batches| - 1 ==> Continues(pages[first + k]))
  }

  /** Batches are delivered in fetch order, each one the data of its own page. */
  lemma {:induction false} BatchesInFetchOrder<T>(base: string, reqLimit: int, pages: seq<Reply<Page<T>>>, curPage: nat, cursor: string)
    ensures DeliveredInOrder(Fetch(base, reqLimit, pages, curPage, cursor), pages, curPage)
    decreases |pages| - curPage
  {
    if curPage != reqLimit && curPage < |pages| && Continues(pages[curPage]) {
      var next := pages[curPage].body.value.nextPageCursor.value;
      var t, rest := Fetch(base, reqLimit, pages, curPage, cursor), Fetch(base, reqLimit, pages, curPage + 1, next);
      BatchesInFetchOrder(base, reqLimit, pages, curPage + 1, next);
      assert t.batches == [pages[curPage].body.value.data] + rest.batches;
      forall k | 0 <= k < |t.batches|
        ensures DeliveredAt(t, pages, curPage, k)
      {
        if k > 0 {
          var j := k - 1;
          assert DeliveredAt(rest, pages, curPage + 1, j);
          assert t.batches[k] == rest.batches[j];
          assert (curPage + 1) + j == curPage + k;
        }
      }
    }
  }

  /**
   * When the loop stops on an error, the page right after the delivered ones
   * is the one that failed, its error is the one reported, and its data was
   * not delivered.
   */
  lemma {:induction false} FailedPageNotDelivered<T>(base: string, reqLimit: int, pages: seq<Reply<Page<T>>>, curPage: nat, cursor: string)
    requires Fetch(base, reqLimit, pages, curPage, cursor).error.Some?
    ensures var t := Fetch(base, reqLimit, pages, curPage, cursor);
      && curPage + |t.batches| < |pages|
      && Decoded(pages[curPage + |t.batches|]) == Failure(t.error.value)
      && t.stop == Failed
      && |t.urls| == |t.batches| + 1
    decreases |pages| - curPage
  {
    if Continues(pages[curPage]) {
      FailedPageNotDelivered(base, reqLimit, pages, curPage + 1, pages[curPage].body.value.nextPageCursor.value);
    }
  }

  /**
   * Request `k > 0` of `t` was made with the `nextPageCursor` of page
   * `first + k - 1`, a page the loop continued after.
   */
  ghost predicate RequestedAt<T>(t: Trace<T>, base: string, pages: seq<Reply<Page<T>>>, first: nat, k: nat)
    requires 0 < k < |t.urls|
  {
    && first + k - 1 < |pages|
    && Continues(pages[first + k - 1])
    && t.urls[k] == PageUrl(base, pages[first + k - 1].body.value.nextPageCursor.value)
  }

  /**
   * The first request uses the cursor held on entry; each later one uses the
   * `nextPageCursor` of the page before it, and carries `?cursor=` exactly
   * when that cursor is non-empty.
   */
  lemma {:induction false} UrlsFollowCursors<T>(base: string, reqLimit: int, pages: seq<Reply<Page<T>>>, curPage: nat, cursor: string)
    ensures var t := Fetch(base, reqLimit, pages, curPage, cursor);
      && (|t.urls| > 0 ==> t.urls[0] == PageUrl(base, cursor))
      && forall k :: 0 < k < |t.urls| ==> RequestedAt(t, base, pages, curPage, k)
    decreases |pages| - curPage
  {
    if curPage != reqLimit && curPage < |pages| && Continues(pages[curPage]) {
      var next := pages[curPage].body.value.nextPageCursor.value;
      var t, rest := Fetch(base, reqLimit, pages, curPage, cursor), Fetch(base, reqLimit, pages, curPage + 1, next);
      UrlsFollowCursors(base, reqLimit, pages, curPage + 1, next);
      assert t.urls == [PageUrl(base, cursor)] + rest.urls;
      forall k | 0 < k < |t.urls|
        ensures RequestedAt(t, base, pages, curPage, k)
      {
        if k > 1 {
          var j := k - 1;
          assert RequestedAt(rest, base, pages, curPage + 1, j);
          assert t.urls[k] == rest.urls[j];
          assert (curPage + 1) + j - 1 == curPage + k - 1;
        }
      }
    }
  }

  /** No cursor is lost in the URL: over one base, distinct cursors give distinct request URLs. */
  lemma PageUrlInjective(base: string, c1: string, c2: string)
    requires PageUrl(base, c1) == PageUrl(base, c2)
    ensures c1 == c2
  {
    var u := PageUrl(base, c1);
    if c1 != "" && c2 != "" {
      assert c1 == u[|base| + 8..];
      assert c2 == u[|base| + 8..];
    }
  }

  /**
   * Given at least `k` good pages that all carry a cursor, a run limited to k
   * pages delivers exactly their k batches and stops at the limit without error.
   */
  lemma {:induction false} AllGoodPagesReachLimit<T>(base: string, reqLimit: int, pages: seq<Reply<Page<T>>>, curPage: nat, cursor: string)
    requires curPage <= reqLimit <= |pages|
    requires forall j :: curPage <= j < reqLimit ==> Continues(pages[j])
    ensures var t := Fetch(base, reqLimit, pages, curPage, cursor);
      |t.batches| == reqLimit - curPage && t.error == None && t.stop == LimitReached
    decreases reqLimit - curPage
  {
    if curPage < reqLimit {
      AllGoodPagesReachLimit(base, reqLimit, pages, curPage + 1, pages[curPage].body.value.nextPageCursor.value);
    }
  }

  /**
   * A run that ends on a null cursor ends without error, and its last batch
   * is the data of the page that carried the null cursor.
   */
  lemma {:induction false} LastPageDelivered<T>(base: string, reqLimit: int, pages: seq<Reply<Page<T>>>, curPage: nat, cursor: string)
    requires Fetch(base, reqLimit, pages, curPage, cursor).stop == LastPage
    ensures var t := Fetch(base, reqLimit, pages, curPage, cursor);
      && t.error == None
      && |t.batches| > 0
      && curPage + |t.batches| - 1 < |pages|
      && Decoded(pages[curPage + |t.batches| - 1]) == Success(Page(t.batches[|t.batches| - 1], None))
    decreases |pages| - curPage
  {
    if Continues(pages[curPage]) {
      LastPageDelivered(base, reqLimit, pages, curPage + 1, pages[curPage].body.value.nextPageCursor.value);
    }
  }

  /** A null cursor on the first page: that one batch is delivered and the loop ends without error. */
  lemma NullCursorOnFirstPage<T>(base: string, reqLimit: int, pages: seq<Reply<Page<T>>>, data: seq<T>)
    requires reqLimit != 0 && |pages| > 0 && pages[0] == Answered(StatusOK, Some(Page(data, None)))
    ensures Stream(base, reqLimit, pages) == Trace([data], None, [base], LastPage)
  {
  }

  /**
   * A decode failure on the second page: exactly the first batch is
   * delivered, then one decode error, and nothing after it.
   */
  lemma SecondPageDecodeError<T>(base: string, reqLimit: int, pages: seq<Reply<Page<T>>>, data: seq<T>, next: string)
    requires reqLimit < 0 || reqLimit >= 2
    requires |pages| > 1 && pages[0] == Answered(StatusOK, Some(Page(data, Some(next))))
    requires pages[1] == Answered(StatusOK, None)
    ensures Stream(base, reqLimit, pages) == Trace([data], Some(Decode), [base, PageUrl(base, next)], Failed)
  {
    assert Fetch(base, reqLimit, pages, 1, next) == Trace([], Some(Decode), [PageUrl(base, next)], Failed);
  }

  /** How many times `c` occurs in `s`. */
  function Count(s: string, c: char): (n: nat)
    ensures n <= |s|
    ensures n == 0 <==> c !in s
  {
    if |s| == 0 then 0 else (if s[0] == c then 1 else 0) + Count(s[1..], c)
  }

  lemma {:induction false} CountConcat(a: string, b: string, c: char)
    ensures Count(a + b, c) == Count(a, c) + Count(b, c)
  {
    if |a| == 0 {
      assert a + b == b;
    } else {
      assert (a + b)[1..] == a[1..] + b;
      CountConcat(a[1..], b, c);
    }
  }

  /** The '?' of the wall-posts URI's own query string is its only one. */
  lemma PostsUriQueryMarks(groupId: int)
    ensures Count(PostsUri(groupId), '?') == 1
  {
    var id := FormatInt(groupId);
    NoQueryMarkInNumber(groupId);
    var head := GroupsHost + "/v2/groups/" + id + "/wall/posts";
    NoQueryMarkInConcat(GroupsHost + "/v2/groups/", id);
    NoQueryMarkInConcat(GroupsHost + "/v2/groups/" + id, "/wall/posts");
    QueryAfterPlainPath(head);
  }

  lemma QueryAfterPlainPath(head: string)
    requires '?' !in head
    ensures Count(head + PostsQuery, '?') == 1
  {
    PostsQueryMarks();
    CountConcat(head, PostsQuery, '?');
  }

  lemma PostsQueryMarks()
    ensures Count(PostsQuery, '?') == 1
  {
    assert PostsQuery[0] == '?';
    assert '?' !in PostsQuery[1..];
  }

  /** The join-requests URI has no query string. */
  lemma JoinRequestsUriQueryMarks(groupId: int)
    ensures Count(JoinRequestsUri(groupId), '?') == 0
  {
    var id := FormatInt(groupId);
    NoQueryMarkInNumber(groupId);
    NoQueryMarkInConcat(GroupsHost + "/v1/groups/", id);
    NoQueryMarkInConcat(GroupsHost + "/v1/groups/" + id, "/join-requests/");
  }

  lemma NoQueryMarkInNumber(n: int)
    ensures '?' !in FormatInt(n)
  {
  }

  lemma NoQueryMarkInConcat(a: string, b: string)
    requires '?' !in a && '?' !in b
    ensures '?' !in a + b
  {
  }

  /** With a non-empty cursor free of '?', the page URL has one '?' more than its base. */
  lemma PageUrlQueryMarks(base: string, cursor: string)
    requires cursor != "" && '?' !in cursor
    ensures Count(PageUrl(base, cursor), '?') == Count(base, '?') + 1
  {
    var tail := "cursor=" + cursor;
    assert '?' !in tail;
    assert PageUrl(base, cursor) == base + ("?" + tail);
    CountConcat(base, "?" + tail, '?');
  }

  /**
   * The wall-posts URI already carries a query string, so appending
   * `?cursor=` gives every page after the first a second '?': the cursor
   * becomes part of the `sortOrder` value. The join-requests URI gets
   * exactly one.
   */
  lemma CursorUrlQueryMarks(groupId: int, cursor: string)
    requires cursor != "" && '?' !in cursor
    ensures Count(PageUrl(PostsUri(groupId), cursor), '?') == 2
    ensures Count(PageUrl(JoinRequestsUri(groupId), cursor), '?') == 1
  {
    PostsUriQueryMarks(groupId);
    JoinRequestsUriQueryMarks(groupId);
    PageUrlQueryMarks(PostsUri(groupId), cursor);
    PageUrlQueryMarks(JoinRequestsUri(groupId), cursor);
  }

  /** The request URL as evidently intended: `&cursor=` when the base already has a query string. */
  function IntendedPageUrl(base: string, cursor: string): string {
    if cursor == "" then base
    else base + (if '?' in base then "&" else "?") + "cursor=" + cursor
  }

  /** The intended URL never has more than one '?'; with a cursor it has exactly one. */
  lemma IntendedUrlQueryMarks(base: string, cursor: string)
    requires Count(base, '?') <= 1 && '?' !in cursor
    ensures Count(IntendedPageUrl(base, cursor), '?') == if cursor == "" then Count(base, '?') else 1
  {
    if cursor != "" {
      var sep := if '?' in base then "&" else "?";
      CountConcat(base, sep, '?');
      CountConcat(base + sep, "cursor=", '?');
      CountConcat(base + sep + "cursor=", cursor, '?');
      assert Count(sep, '?') == (if sep == "?" then 1 else 0) + Count(sep[1..], '?');
    }
  }

  /** For a base without a query string, the intended URL is the one the loop builds. */
  lemma IntendedAgreesWithoutQuery(base: string, cursor: string)
    requires '?' !in base
    ensures IntendedPageUrl(base, cursor) == PageUrl(base, cursor)
  {
    if cursor != "" {
      assert base + "?" + "cursor=" + cursor == base + "?cursor=" + cursor;
    }
  }
}
