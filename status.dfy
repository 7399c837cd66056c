/**
 * The straight-line operations of the group API: reading the shout the
 * group record already holds, and the status-code branches of PostShout and
 * of the group lookup Get.
 */
module Status {
  import opened Wrappers
  import opened Api

  /** GetShout: no request; a nil shout means it does not exist or may not be seen. */
  function GetShout(g: Group): (r: Result<Shout, Error>)
    ensures r.Success? <==> g.shout.Some?
    ensures r.Success? ==> r.value == g.shout.value
    ensures r.Failure? ==> r.error == ShoutUnavailable
  {
    match g.shout
    case None => Failure(ShoutUnavailable)
    case Some(s) => Success(s)
  }

  /**
   * PostShout: credentials are checked before any request; 401 and 403 are
   * "unauthorized", 400 is "bad request", and every other status, 5xx
   * included, counts as success.
   */
  function PostShout(g: Group, reply: Reply<()>): (r: Outcome<Error>)
    ensures r == Pass <==>
      g.authenticated && reply.Answered? &&
      reply.status != StatusUnauthorized && reply.status != StatusForbidden && reply.status != StatusBadRequest
    ensures r == Fail(RequiresCookie) <==> !g.authenticated
    ensures r == Fail(Unauthorized) <==>
      g.authenticated && reply.Answered? && (reply.status == StatusUnauthorized || reply.status == StatusForbidden)
    ensures r == Fail(BadRequest) <==> g.authenticated && reply.Answered? && reply.status == StatusBadRequest
    ensures g.authenticated && reply.Unreachable? ==> r == Fail(Transport(reply.cause))
  {
    if !g.authenticated then Fail(RequiresCookie)
    else match reply
      case Unreachable(cause) => Fail(Transport(cause))
      case Answered(status, _) =>
        if status == StatusUnauthorized || status == StatusForbidden then Fail(Unauthorized)
        else if status == StatusBadRequest then Fail(BadRequest)
        else Pass
  }

  /**
   * The status branches of Get: 400 means the group does not exist, 401 and
   * 403 mean unauthorized; any other status (200 or not) goes on to decode
   * the body as a group record.
   */
  function GetStatus<T>(reply: Reply<T>): (r: Outcome<Error>)
    ensures r == Pass <==>
      reply.Answered? && reply.status != StatusBadRequest &&
      reply.status != StatusUnauthorized && reply.status != StatusForbidden
    ensures r == Fail(GroupDoesntExist) <==> reply.Answered? && reply.status == StatusBadRequest
    ensures r == Fail(Unauthorized) <==>
      reply.Answered? && (reply.status == StatusUnauthorized || reply.status == StatusForbidden)
    ensures reply.Unreachable? ==> r == Fail(Transport(reply.cause))
  {
    match reply
    case Unreachable(cause) => Fail(Transport(cause))
    case Answered(status, _) =>
      if status == StatusBadRequest then Fail(GroupDoesntExist)
      else if status == StatusUnauthorized || status == StatusForbidden then Fail(Unauthorized)
      else Pass
  }

  /**
   * Neither classifier looks for 200: a server error passes PostShout as a
   * success and lets Get go on to decode the body.
   */
  lemma ServerErrorsPass(g: Group)
    requires g.authenticated
    ensures PostShout(g, Answered(500, None)) == Pass
    ensures GetStatus(Answered(500, Some(g))) == Pass
  {
  }
}
