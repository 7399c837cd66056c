# Group rank navigation and cursor pagination

A Dafny model of the logic inside `group/group.go`, the group package of a Go client for the
Roblox groups API. Two parts are modelled:

- **Rank navigation.** `GetGroupRoles` sorts the group's roles by rank in place.
  `GetRoleInGroup` picks the member's role out of their membership list.
  `ChangeRank` finds that role's index in the sorted list with a counter loop.
  It then offsets the index, guards the target and assigns the target role with `SetRank`.
  `Promote` and `Demote` are `ChangeRank` with +1 and -1.
- **Cursor pagination.** `GetJoinRequests` and `GetGroupPosts` each carry a copy of the same fetch loop, modelled by one fetch loop.
  Each step builds a URL, appending `?cursor=` only when the cursor is non-empty.
  The step then fails (one error, no batch), or delivers the page's items and moves to `nextPageCursor`.
  A null cursor ends the loop. So does an optional page limit.

The status-code branches of `PostShout`, `Get` and `SetRank` and the nil check of `GetShout`
are modelled as pure functions.

Network replies are abstract inputs. `Reply<T>` is either no response (`Unreachable`) or a
status code with the body decoded as `T` (`None` when decoding failed).
`ChangeRank` returns the calls it made (`ListRoles`, `ListMemberships`, `AssignRole`).
That trace is what lets the model say that no rank is assigned when the guard fails.
The fetch loop takes a finite script of replies, one per request. It returns a `Trace`: the
batches sent on the data channel, the error sent on the error channel, the URLs requested, and
why it stopped.

Modules:
- `Wrappers`: Option, Result, Outcome.
- `Api`: the records, the errors, the shared status-and-decode step, and integer formatting.
- `Roles`: the in-place sort, GetGroupRoles and GetRoleInGroup.
- `Ranks`: ChangeRank, Promote, Demote, SetRank and the guard.
- `Pagination`: the fetch loop and its properties.
- `Status`: the shout and group-lookup classifiers.

The model follows the code as written, including these behaviours:
- A member whose role is not in the list is located at the last index (`len(roles)-1`), not at -1.
- A `SetRank` answered with any status but 200 is reported as `errs.ErrNonOkStatus`; with no response it returns the transport error.
- `ChangeRank`'s own credentials check returns an ad-hoc error (`EndpointRequiresCookie`).
  `Promote` and `Demote` check first and return `errs.ErrRequiresCookie`.
- `PostShout` treats every status other than 400, 401 and 403 as success, 5xx included.
- `ChangeRank` computes the target index `userRole + Change` in Go's 64-bit `int`, so a huge
  `Change` wraps around; the model computes it through `Api.Wrap64`.
  A Go slice holds at most `MaxInt64` elements; the two lemmas whose claims depend on the index
  not wrapping (`PromoteMissingRolePanics`, `PromoteNeverLowersRank`) state that bound.

## Model

| member | source | states |
|---|---|---|
| `Api.Decoded` | group/group.go:59-70 | a reply decodes to a value exactly when it is status 200 with a decodable body; any other status is an unexpected-status error carrying the code; the only errors are transport, status and decode |
| `Api.FormatInt` | group/group.go:173 | the `%d` rendering of an id is non-empty, all digits after the first character, and starts with a minus sign exactly for negative ids |
| `Api.DecimalValue` | group/group.go:173 | reading the digits of a non-negative id back gives the id |
| `Api.FormatIntValue` | group/group.go:173 | the `%d` rendering of any id denotes that id, so distinct groups get distinct URIs |
| `Api.Wrap64` | group/group.go:118 | Go `int` arithmetic: the result is an `int` congruent to the exact value modulo 2^64, equal to it when it fits, and off by exactly 2^64 when it overflows by less than that |
| `Roles.SortByRank` | group/group.go:71 | after the in-place sort the array is non-decreasing by rank and a permutation of its old contents; no order among equal ranks is promised |
| `Roles.RolesFetched` | group/group.go:59-72 | what GetGroupRoles may return for a reply: the shared status-and-decode error, or a rank-sorted permutation of the decoded list |
| `Roles.GetGroupRoles` | group/group.go:49-73 | returns the reply's error, or the decoded roles sorted by rank as a permutation of the decoded list |
| `Roles.LastMatch` | group/group.go:96-102 | the index of the last membership entry for the group, or -1 when there is none |
| `Roles.RoleIn` | group/group.go:96-102 | the role of the last entry for the group; the zero role when no entry is for the group |
| `Roles.MemberRole` | group/group.go:85-102 | what GetRoleInGroup returns for a reply: the status-and-decode error, or the role of the last membership entry for the group |
| `Roles.GetRoleInGroup` | group/group.go:75-103 | the loop over the membership list returns the reply's error or the role of the last matching entry (the zero role without error when none matches) |
| `Ranks.IndexOfRole` | group/group.go:111-117 | the counter stops at the first index whose role id matches; with no match it ends at `len(roles)-1`, which is -1 only for an empty list |
| `Ranks.LocateRole` | group/group.go:111-117 | the counter loop with `break` computes exactly that index |
| `Ranks.IndexOfUniqueRole` | group/group.go:111-117 | in a list unique by id, the role at index i is located at i |
| `Ranks.TargetGuard` | group/group.go:118-119 | the guard as written: admits exactly in-range targets not of rank 255; reports "rank not found" past `len(roles)` or on rank 255; panics at `len(roles)` and below 0 |
| `Ranks.IntendedGuard` | group/group.go:119 | the corrected guard never panics and admits exactly in-range targets not of rank 255 |
| `Ranks.GuardPanicsPastEnd` | group/group.go:119 | the written guard panics at index `len(roles)` and at -1, where the corrected one reports "rank not found" |
| `Ranks.GuardsAgreeUnlessPanic` | group/group.go:119 | wherever the written guard does not panic it agrees with the corrected one |
| `Ranks.SetRank` | group/group.go:139-170 | succeeds exactly when authenticated and answered 200; unauthenticated is `ErrRequiresCookie`; no response is a transport error; any other status is `ErrNonOkStatus` |
| `Ranks.RankChange` | group/group.go:105-123 | the outcome and call trace of ChangeRank from the two fetches' results: credentials, the roles fetch, the member fetch, the counter loop, the 64-bit offset, the guard as written, and SetRank, in that order |
| `Ranks.ChangeRank` | group/group.go:105-123 | unauthenticated fails with the ad-hoc error and makes no call; a success made three calls, the last assigning the returned role, which is not of rank 255, and returns the member's role as the old one; in all cases outcome and call trace equal `RankChange` on the sorted roles GetGroupRoles produced and the member role GetRoleInGroup produced |
| `Ranks.Promote` | group/group.go:125-130 | unauthenticated fails with `ErrRequiresCookie` and makes no call; otherwise equals ChangeRank with +1 |
| `Ranks.Demote` | group/group.go:132-137 | unauthenticated fails with `ErrRequiresCookie` and makes no call; otherwise equals ChangeRank with -1 |
| `Ranks.AssignsOnlyPastGuard` | group/group.go:118-122 | `SetRank` is called iff credentials, both fetches and the guard all pass; a failed guard leaves only the two fetches in the trace and ends in "rank not found" or a panic |
| `Ranks.SuccessfulChange` | group/group.go:118-122 | a successful change made exactly one `SetRank(userId, roles[target].Id)` call after the two fetches and returns (member's role, `roles[target]`), with target in range and not of rank 255 |
| `Ranks.StepFromIndex` | group/group.go:111-122 | for a member at index i, the outcome of a change by d is, with t the 64-bit sum i+d, the role at t when in range and not rank 255, a panic when t is below 0 or equals `len(roles)`, and "rank not found" otherwise |
| `Ranks.PromoteMissingRolePanics` | group/group.go:111-119 | a member whose role is not in the list is located at the last index, so Promote indexes one past the end and panics |
| `Ranks.DemoteLowestRolePanics` | group/group.go:118-119 | demoting the holder of the first (lowest) role indexes -1 and panics |
| `Ranks.PromoteNeverLowersRank` | group/group.go:71-122 | on the rank-sorted list, a non-negative change never lands on a lower rank |
| `Ranks.ChangeWrapsAround` | group/group.go:118-119 | the 64-bit target wraps: a change of `MaxInt64` from index 1 reaches `MinInt64` and panics; a change of `MinInt64` on an empty list wraps to `MaxInt64` and is "rank not found" |
| `Ranks.ThreeRoleExample` | group/group.go:105-137 | roles of rank 0, 10, 255 with the member at rank 10: promote fails with "rank not found" and assigns nothing; demote assigns the rank-0 role and returns both roles |
| `Pagination.ReqLimit` | group/group.go:190-193 | the variadic limit is its first argument when given; with none it is negative, so no page count ever equals it |
| `Pagination.PageUrl` | group/group.go:199-202 | the request URL of one step: the base, with `?cursor=` and the cursor when one is held |
| `Pagination.JoinRequestsUri` | group/group.go:173 | the join-requests endpoint of a group |
| `Pagination.PostsUri` | group/group.go:245 | the wall-posts endpoint of a group, with its own query string |
| `Pagination.Fetch` | group/group.go:197-220 | the loop from a page count and cursor: the checks in the loop's order (limit, request, status and decode, delivery, null cursor); its properties are the lemmas below |
| `Pagination.Stream` | group/group.go:195-223 | the whole run, from page 0 with an empty cursor |
| `Pagination.FetchPages` | group/group.go:195-223 | the loop's trace equals the run `Stream` of the reply script, from page 0 with an empty cursor |
| `Pagination.GetJoinRequests` | group/group.go:172-225 | unauthenticated fails with `ErrRequiresCookie` before any request; a failure creating the cookie jar or marshalling the body is returned at once; otherwise it is the run on the join-requests URI with the variadic limit (-1 when absent) |
| `Pagination.GetGroupPosts` | group/group.go:244-290 | the run on the wall-posts URI, with no credentials check |
| `Pagination.FetchShape` | group/group.go:197-220 | at most one request per reply; an error exactly when stopped on a failure; one batch per request except the failed one |
| `Pagination.FetchWithinLimit` | group/group.go:197-219 | from a page count at or below the limit, requests and batches stay within what the limit leaves |
| `Pagination.PageLimit` | group/group.go:190-198 | with limit k >= 0 at most k requests and k batches; k = 0 issues no request and stops at the limit |
| `Pagination.UnboundedNeverCapped` | group/group.go:192-198 | with no limit (any negative one) the loop never stops on the page cap |
| `Pagination.BatchesInFetchOrder` | group/group.go:211-219 | the k-th batch is the data of the k-th page fetched, which decoded with status 200; every batch but the last came with a cursor |
| `Pagination.FailedPageNotDelivered` | group/group.go:203-213 | on an error, the page right after the delivered ones is the one that failed with that error, and its data is not delivered |
| `Pagination.UrlsFollowCursors` | group/group.go:199-217 | the first URL uses the starting cursor; each later URL uses the `nextPageCursor` of the page before it |
| `Pagination.PageUrlInjective` | group/group.go:199-202 | no cursor is lost in the URL: over one base, equal request URLs mean equal cursors |
| `Pagination.AllGoodPagesReachLimit` | group/group.go:198-219 | with at least k good pages that carry cursors, limit k delivers exactly k batches and stops at the limit without error |
| `Pagination.LastPageDelivered` | group/group.go:214-216 | a run that stops on a null cursor has no error, and its last batch is the data of the page that carried the null cursor |
| `Pagination.NullCursorOnFirstPage` | group/group.go:215-216 | a null cursor on page 1 delivers that one batch and ends without error |
| `Pagination.SecondPageDecodeError` | group/group.go:211-213 | a decode failure on page 2 leaves exactly the page-1 batch delivered and one decode error |
| `Pagination.PostsUriQueryMarks` | group/group.go:245 | the wall-posts URI already contains one '?' |
| `Pagination.JoinRequestsUriQueryMarks` | group/group.go:173 | the join-requests URI contains no '?' |
| `Pagination.PageUrlQueryMarks` | group/group.go:262 | a non-empty cursor adds exactly one '?' to the base |
| `Pagination.CursorUrlQueryMarks` | group/group.go:262 | every cursor URL of the wall-posts fetch has two '?'; the join-requests one has one |
| `Pagination.IntendedPageUrl` | group/group.go:262 | the corrected URL builder: `&cursor=` when the base already has a query string, `?cursor=` otherwise |
| `Pagination.IntendedUrlQueryMarks` | group/group.go:262 | the corrected URL builder gives a cursor URL exactly one '?' |
| `Pagination.IntendedAgreesWithoutQuery` | group/group.go:199-202 | for a base without a query string the corrected builder equals the written one |
| `Status.GetShout` | group/group.go:20-24 | the shout is returned exactly when present; nil is the "shout doesnt exist, or unauthorized" error |
| `Status.PostShout` | group/group.go:26-47 | unauthenticated fails before any request; 401/403 are unauthorized, 400 is bad request, every other answered status is success |
| `Status.GetStatus` | group/group.go:303-307 | 400 is "group doesn't exist", 401/403 unauthorized, and every other status goes on to decode |
| `Status.ServerErrorsPass` | group/group.go:41-46 | a 500 reply passes both PostShout and Get's status check |

## Findings

| source | as written | input that shows it | evidently intended | confidence | as-written member | corrected member |
|---|---|---|---|---|---|---|
| group/group.go:119 | `len(roles) < newUserRole` lets `newUserRole == len(roles)` and every negative index reach `roles[newUserRole]` | Demote a member holding the lowest role (index 0): the target is -1 and Go panics with index out of range; Promote a member whose role is not listed: the target is `len(roles)` | every target outside the list reported as `ErrRankNotFound` | high, not executed | `Ranks.GuardPanicsPastEnd` | `Ranks.IntendedGuard` |
| group/group.go:262 | `NewURI += "?cursor="+cursor` on a URI that already ends in `?limit=100&sortOrder=Desc` | any second page of wall posts, cursor `abc`: the URL ends `sortOrder=Desc?cursor=abc` | `&cursor=` when the URI already has a query string | medium, not executed | `Pagination.CursorUrlQueryMarks` | `Pagination.IntendedUrlQueryMarks` |

`ChangeRank`, `Promote` and `Demote` keep the guard as written, with the panic as the distinct
outcome `IndexPanic`, so that the model shows what the code does. `IntendedGuard` is the
corrected guard. `GuardsAgreeUnlessPanic` shows that it changes only the panicking cases.
The fetch loop likewise keeps the written URL builder `PageUrl`. `IntendedPageUrl` is the
corrected builder. `IntendedAgreesWithoutQuery` shows that it changes nothing for the
join-requests URI.

## Left out

- HTTP and JSON: client construction, cookie jars (`auth.NewJar`), `requests.NewAuthorizedRequest`, `client.Do`, the 10-second timeouts, request bodies and JSON decoding. These are foreign calls and I/O, so each exchange is an abstract `Reply`. Within one exchange, the separate failures of jar creation, request construction and sending all become `Transport`, except in `SetRank`, where the jar's error is overwritten by the marshalling result and never returned. The exception is `GetJoinRequests`: there, jar creation and body marshalling happen before the goroutine starts, and their error is returned at once. The model takes that outcome as the input `setup`.
- The goroutine and its buffered channels (lines 183-184, 195, 221-222, 247-248, 257, 286-287): blocking, buffering and a consumer that stops reading are concurrency. The loop is run sequentially and returns its trace.
- The reply script is finite. When it runs out the model stops with `ScriptEnded`. The program would go on requesting, so this stop is a modelling artefact.
- Pagination.GetGroupPosts: the 403 branch (lines 267-271) is modelled like `GetJoinRequests`: a 403 ends the loop with one unexpected-status error. The code sends the server's message, does not break, and decodes the consumed body again. When the first decode fails it returns without closing the channels.
- The `Group` back-pointer set on every delivered item (lines 214, 279) is aliasing convenience with no behaviour to verify; items are opaque values of a type parameter.
- `Get` beyond its status branches (lines 308-312): the group decode and the `BotAccount` assignment.
- `Exile` (lines 227-242) is not part of this model.
- Error texts: the different "unexpected status code" messages are all `UnexpectedStatus(code)`, and decode errors are the single value `Decode`.
- The URLs of the role, membership and rank-assignment requests are not modelled. The call trace records each call's arguments instead.
- `ChangeRank`'s sorted role list is a ghost out-parameter. It exists only to state the contract, because Go's sort is not stable and ties may come out in any order.
