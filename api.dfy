/**
 * The records of the group API that the modelled operations read, the errors
 * they report, and the one step every fetch shares: turning the reply of a
 * GET into a decoded value or an error.
 */
module Api {
  import opened Wrappers

  /** A role of a group. Ranks run from 0 to 255; 255 belongs to the owner. */
  datatype Role = Role(id: int, name: string, rank: int)

  /** The value an unset Go `Role` variable holds. */
  const ZeroRole: Role := Role(0, "", 0)

  /** The owner's rank, which no rank change may land on. */
  const OwnerRank: int := 255

  /** One entry of a user's membership list: a group and the role held in it. */
  datatype Membership = Membership(groupId: int, role: Role)

  /** A group's pinned status message. */
  datatype Shout = Shout(body: string)

  /**
   * The part of a group record the operations use. `authenticated` stands for
   * `BotAccount.IsAuthenticated()`; `shout` is nil when the account may not see it.
   */
  datatype Group = Group(id: int, shout: Option<Shout>, authenticated: bool)

  datatype Error =
    | RequiresCookie            // errs.ErrRequiresCookie
    | EndpointRequiresCookie    // the ad-hoc "this endpoint requires a valid cookie" of ChangeRank
    | Unauthorized              // errs.ErrUnauthorized
    | BadRequest                // errs.ErrBadRequest
    | GroupDoesntExist          // errs.ErrGroupDoesntExist
    | RankNotFound              // errs.ErrRankNotFound
    | NonOkStatus               // errs.ErrNonOkStatus
    | ShoutUnavailable          // "shout doesnt exist, or unauthorized"
    | UnexpectedStatus(code: int)
    | Transport(cause: string)  // request construction, cookie jar or client.Do failed
    | Decode                    // the body did not decode as JSON of the expected shape

  /**
   * What one HTTP exchange gave back: no response at all, or a status code and
   * the body decoded as `T` (None when decoding failed).
   */
  datatype Reply<T> = Unreachable(cause: string) | Answered(status: int, body: Option<T>)

  const StatusOK: int := 200
  const StatusBadRequest: int := 400
  const StatusUnauthorized: int := 401
  const StatusForbidden: int := 403

  /**
   * The status check and decode that GetGroupRoles, GetRoleInGroup and each
   * page of a paginated fetch perform: anything but 200 is an unexpected status.
   */
  function Decoded<T>(reply: Reply<T>): (r: Result<T, Error>)
    ensures r.Success? <==> reply.Answered? && reply.status == StatusOK && reply.body.Some?
    ensures r.Success? ==> r.value == reply.body.value
    ensures r.Failure? ==> r.error.Transport? || r.error.UnexpectedStatus? || r.error.Decode?
    ensures reply.Answered? && reply.status != StatusOK ==> r == Failure(UnexpectedStatus(reply.status))
  {
    match reply
    case Unreachable(cause) => Failure(Transport(cause))
    case Answered(status, body) =>
      if status != StatusOK then Failure(UnexpectedStatus(status))
      else if body.None? then Failure(Decode)
      else Success(body.value)
  }

  /** The least value of Go's `int`, which is 64 bits wide. */
  const IntMin: int := -0x8000_0000_0000_0000
  /** The greatest value of Go's `int`. */
  const IntMax: int := 0x7FFF_FFFF_FFFF_FFFF
  /** How many values an `int` has; arithmetic on it is modulo this. */
  const IntRange: int := 0x1_0000_0000_0000_0000

  /** The values a Go `int` holds. */
  type Int64 = x: int | IntMin <= x <= IntMax

  /**
   * The two's-complement wrap-around of Go's `int` arithmetic: the value an
   * `int` holds after an operation whose exact result is `x`.
   */
  function Wrap64(x: int): (w: Int64)
    ensures (x - w) % IntRange == 0
    ensures IntMin <= x <= IntMax ==> w == x
    ensures IntMax < x <= IntMax + IntRange ==> w == x - IntRange
    ensures IntMin - IntRange <= x < IntMin ==> w == x + IntRange
  {
    (x - IntMin) % IntRange + IntMin
  }

  /** The decimal digits of `n`, as Go's `%d` and `%v` print a non-negative int. */
  function Decimal(n: nat): (s: string)
    ensures |s| >= 1
    ensures forall i :: 0 <= i < |s| ==> '0' <= s[i] <= '9'
    ensures n < 10 <==> |s| == 1
  {
    if n < 10 then ["0123456789"[n]] else Decimal(n / 10) + ["0123456789"[n % 10]]
  }

  /** An int as `%d` prints it: a minus sign before the digits of a negative number. */
  function FormatInt(n: int): (s: string)
    ensures |s| >= 1
    ensures forall i :: 0 <= i < |s| ==> s[i] == '-' || '0' <= s[i] <= '9'
    ensures forall i :: 0 < i < |s| ==> '0' <= s[i] <= '9'
    ensures s[0] == '-' <==> n < 0
  {
    if n < 0 then "-" + Decimal(-n) else Decimal(n)
  }

  /** The number a string of decimal digits denotes, read most significant digit first. */
  function DigitsValue(s: string): int
  {
    if |s| == 0 then 0 else 10 * DigitsValue(s[..|s| - 1]) + (s[|s| - 1] as int - '0' as int)
  }

  /** The number a `%d` rendering denotes: an optional minus sign, then digits. */
  function IntValue(s: string): int
  {
    if |s| > 0 && s[0] == '-' then -DigitsValue(s[1..]) else DigitsValue(s)
  }

  /** Reading the digits of `n` back gives `n`. */
  lemma {:induction false} DecimalValue(n: nat)
    ensures DigitsValue(Decimal(n)) == n
  {
    if n >= 10 {
      DecimalValue(n / 10);
      var s := Decimal(n);
      assert s[..|s| - 1] == Decimal(n / 10);
    }
  }

  /** `%d` loses nothing: the rendering of `n` denotes `n`, so distinct ids render distinctly. */
  lemma FormatIntValue(n: int)
    ensures IntValue(FormatInt(n)) == n
  {
    if n < 0 {
      DecimalValue(-n);
      assert FormatInt(n)[1..] == Decimal(-n);
    } else {
      DecimalValue(n);
    }
  }
}
