/**
 * Rank navigation: ChangeRank moves a member a number of steps along the
 * group's rank-sorted role list and assigns the role it lands on; Promote and
 * Demote are the steps +1 and -1.
 *
 * The model records the calls the operation makes on the remote API, so that
 * "no rank is assigned when the guard fails" can be stated.
 */
module Ranks {
  import opened Wrappers
  import opened Api
  import opened Roles

  /** A call ChangeRank makes: GetGroupRoles, GetRoleInGroup, SetRank. */
  datatype Call = ListRoles | ListMemberships(userId: int) | AssignRole(userId: int, roleId: int)

  /**
   * The three ways ChangeRank ends: the (old, new) role pair, an error, or a Go
   * run-time panic from indexing the role list at `index`.
   */
  datatype RankOutcome = Changed(previous: Role, current: Role) | Failed(error: Error) | IndexPanic(index: int)

  /**
   * Where the counter loop of ChangeRank stops: the first index whose role
   * has id `id`; with no such role it runs off the end and stops at the last
   * index (-1 for an empty list).
   */
  function IndexOfRole(roles: seq<Role>, id: int): (k: int)
    ensures -1 <= k < |roles|
    ensures forall j :: 0 <= j < k ==> roles[j].id != id
    ensures (0 <= k && roles[k].id == id) ||
            (k == |roles| - 1 && forall j :: 0 <= j < |roles| ==> roles[j].id != id)
  {
    if |roles| == 0 then -1
    else if roles[0].id == id then 0
    else 1 + IndexOfRole(roles[1..], id)
  }

  /** The counter loop of ChangeRank that locates the member's role. */
  method LocateRole(roles: seq<Role>, id: int) returns (userRole: int)
    ensures userRole == IndexOfRole(roles, id)
  {
    userRole := -1;
    var i := 0;
    while i < |roles|
      invariant 0 <= i <= |roles|
      invariant userRole == i - 1
      invariant forall j :: 0 <= j < i ==> roles[j].id != id
    {
      userRole := userRole + 1;
      if roles[i].id == id {
        break;
      }
      i := i + 1;
    }
  }

  /** The verdict of the guard on a target index. */
  datatype Guard = Admit | NotFound | OutOfRange

  /**
   * The guard `len(roles) < target || roles[target].Rank == 255` as written:
   * the length test lets `target == len(roles)` and every negative target
   * through to the index expression, where Go panics.
   */
  function TargetGuard(roles: seq<Role>, target: int): (g: Guard)
    ensures g == Admit <==> 0 <= target < |roles| && roles[target].rank != OwnerRank
    ensures g == OutOfRange <==> target < 0 || target == |roles|
    ensures g == NotFound <==> target > |roles| || (0 <= target < |roles| && roles[target].rank == OwnerRank)
  {
    if |roles| < target then NotFound
    else if target < 0 || target == |roles| then OutOfRange
    else if roles[target].rank == OwnerRank then NotFound
    else Admit
  }

  /** The guard as evidently intended: every target outside the list is "rank not found". */
  function IntendedGuard(roles: seq<Role>, target: int): (g: Guard)
    ensures g != OutOfRange
    ensures g == Admit <==> 0 <= target < |roles| && roles[target].rank != OwnerRank
  {
    if target < 0 || |roles| <= target || roles[target].rank == OwnerRank then NotFound else Admit
  }

  /** The written guard panics at the first index past the end of any role list. */
  lemma GuardPanicsPastEnd(roles: seq<Role>)
    ensures TargetGuard(roles, |roles|) == OutOfRange
    ensures TargetGuard(roles, -1) == OutOfRange
    ensures IntendedGuard(roles, |roles|) == NotFound && IntendedGuard(roles, -1) == NotFound
  {
  }

  /** Wherever the written guard does not panic, it agrees with the intended one. */
  lemma GuardsAgreeUnlessPanic(roles: seq<Role>, target: int)
    ensures TargetGuard(roles, target) != OutOfRange ==> TargetGuard(roles, target) == IntendedGuard(roles, target)
  {
  }

  /**
   * SetRank's error branches: no credentials, no response, and any status but
   * 200. (The cookie jar's error is overwritten before it is checked, so a jar
   * failure does not surface here.)
   */
  function SetRank(g: Group, reply: Reply<()>): (r: Outcome<Error>)
    ensures r == Pass <==> g.authenticated && reply.Answered? && reply.status == StatusOK
    ensures !g.authenticated ==> r == Fail(RequiresCookie)
    ensures g.authenticated && reply.Answered? && reply.status != StatusOK ==> r == Fail(NonOkStatus)
    ensures g.authenticated && reply.Unreachable? ==> r == Fail(Transport(reply.cause))
  {
    if !g.authenticated then Fail(RequiresCookie)
    else match reply
      case Unreachable(cause) => Fail(Transport(cause))
      case Answered(status, _) => if status != StatusOK then Fail(NonOkStatus) else Pass
  }

  /**
   * The outcome and call trace of ChangeRank(userId, change), given what
   * GetGroupRoles returned (`roles`), what GetRoleInGroup returned
   * (`member`) and the reply SetRank would get. The target index is computed
   * in Go's 64-bit `int`, so it wraps around.
   */
  function RankChange(g: Group, userId: int, change: Int64, roles: Result<seq<Role>, Error>,
                      member: Result<Role, Error>, setReply: Reply<()>): (RankOutcome, seq<Call>)
  {
    if !g.authenticated then (Failed(EndpointRequiresCookie), [])
    else if roles.Failure? then (Failed(roles.error), [ListRoles])
    else if member.Failure? then (Failed(member.error), [ListRoles, ListMemberships(userId)])
    else
      var target := Wrap64(IndexOfRole(roles.value, member.value.id) + change);
      match TargetGuard(roles.value, target)
      case OutOfRange => (IndexPanic(target), [ListRoles, ListMemberships(userId)])
      case NotFound => (Failed(RankNotFound), [ListRoles, ListMemberships(userId)])
      case Admit =>
        var calls := [ListRoles, ListMemberships(userId), AssignRole(userId, roles.value[target].id)];
        match SetRank(g, setReply)
        case Fail(e) => (Failed(e), calls)
        case Pass => (Changed(member.value, roles.value[target]), calls)
  }

  /**
   * ChangeRank: fetch and sort the roles, fetch the member's role, locate it,
   * offset the index, guard, and only then assign. `roles` is the sorted list
   * GetGroupRoles produced (ghost: it exists only to state the contract).
   */
  method ChangeRank(g: Group, userId: int, change: Int64, rolesReply: Reply<seq<Role>>,
                    memberReply: Reply<seq<Membership>>, setReply: Reply<()>)
    returns (r: RankOutcome, calls: seq<Call>, ghost roles: Result<seq<Role>, Error>)
    ensures !g.authenticated ==> r == Failed(EndpointRequiresCookie) && calls == []
    ensures g.authenticated ==> |calls| > 0 && calls[0] == ListRoles
    ensures r.Changed? ==> |calls| == 3 && calls[2] == AssignRole(userId, r.current.id)
    ensures r.Changed? ==> MemberRole(memberReply, g.id) == Success(r.previous) && r.current.rank != OwnerRank
    ensures g.authenticated ==> RolesFetched(rolesReply, roles)
    ensures (r, calls) == RankChange(g, userId, change, roles, MemberRole(memberReply, g.id), setReply)
  {
    roles := Failure(EndpointRequiresCookie);
    if !g.authenticated {
      return Failed(EndpointRequiresCookie), [], roles;
    }
    var fetched := GetGroupRoles(rolesReply);
    roles := fetched;
    calls := [ListRoles];
    if fetched.Failure? {
      return Failed(fetched.error), calls, roles;
    }
    var list := fetched.value;
    var role := GetRoleInGroup(g, memberReply);
    calls := [ListRoles, ListMemberships(userId)];
    if role.Failure? {
      return Failed(role.error), calls, roles;
    }
    var userRole := LocateRole(list, role.value.id);
    var newUserRole := Wrap64(userRole + change);
    if |list| < newUserRole {
      return Failed(RankNotFound), calls, roles;
    }
    if newUserRole < 0 || newUserRole == |list| {
      // `roles[newUserRole]` is out of range: the Go program panics here
      return IndexPanic(newUserRole), calls, roles;
    }
    if list[newUserRole].rank == OwnerRank {
      return Failed(RankNotFound), calls, roles;
    }
    calls := [ListRoles, ListMemberships(userId), AssignRole(userId, list[newUserRole].id)];
    var err := SetRank(g, setReply);
    if err.Fail? {
      return Failed(err.error), calls, roles;
    }
    r := Changed(role.value, list[newUserRole]);
  }

  /** Promote: its own credentials check with the package error, then ChangeRank(userId, +1). */
  method Promote(g: Group, userId: int, rolesReply: Reply<seq<Role>>,
                 memberReply: Reply<seq<Membership>>, setReply: Reply<()>)
    returns (r: RankOutcome, calls: seq<Call>, ghost roles: Result<seq<Role>, Error>)
    ensures !g.authenticated ==> r == Failed(RequiresCookie) && calls == []
    ensures g.authenticated ==> RolesFetched(rolesReply, roles)
    ensures g.authenticated ==>
      (r, calls) == RankChange(g, userId, 1, roles, MemberRole(memberReply, g.id), setReply)
  {
    roles := Failure(RequiresCookie);
    if !g.authenticated {
      return Failed(RequiresCookie), [], roles;
    }
    r, calls, roles := ChangeRank(g, userId, 1, rolesReply, memberReply, setReply);
  }

  /** Demote: its own credentials check with the package error, then ChangeRank(userId, -1). */
  method Demote(g: Group, userId: int, rolesReply: Reply<seq<Role>>,
                memberReply: Reply<seq<Membership>>, setReply: Reply<()>)
    returns (r: RankOutcome, calls: seq<Call>, ghost roles: Result<seq<Role>, Error>)
    ensures !g.authenticated ==> r == Failed(RequiresCookie) && calls == []
    ensures g.authenticated ==> RolesFetched(rolesReply, roles)
    ensures g.authenticated ==>
      (r, calls) == RankChange(g, userId, -1, roles, MemberRole(memberReply, g.id), setReply)
  {
    roles := Failure(RequiresCookie);
    if !g.authenticated {
      return Failed(RequiresCookie), [], roles;
    }
    r, calls, roles := ChangeRank(g, userId, -1, rolesReply, memberReply, setReply);
  }

  /** In a list unique by id, the counter loop stops exactly at the member's role. */
  lemma IndexOfUniqueRole(roles: seq<Role>, i: int)
    requires UniqueIds(roles) && 0 <= i < |roles|
    ensures IndexOfRole(roles, roles[i].id) == i
  {
  }

  /**
   * A rank is assigned exactly when every fetch succeeded and the guard admits
   * the target; on "rank not found" and on the panic nothing is assigned.
   */
  lemma AssignsOnlyPastGuard(g: Group, userId: int, change: Int64, roles: Result<seq<Role>, Error>,
                             member: Result<Role, Error>, setReply: Reply<()>)
    ensures var (r, calls) := RankChange(g, userId, change, roles, member, setReply);
      (exists c :: c in calls && c.AssignRole?) <==>
        g.authenticated && roles.Success? && member.Success? &&
        TargetGuard(roles.value, Wrap64(IndexOfRole(roles.value, member.value.id) + change)) == Admit
    ensures var (r, calls) := RankChange(g, userId, change, roles, member, setReply);
      g.authenticated && roles.Success? && member.Success? &&
      TargetGuard(roles.value, Wrap64(IndexOfRole(roles.value, member.value.id) + change)) != Admit ==>
        calls == [ListRoles, ListMemberships(userId)] && (r == Failed(RankNotFound) || r.IndexPanic?)
  {
    var (r, calls) := RankChange(g, userId, change, roles, member, setReply);
    if g.authenticated && roles.Success? && member.Success? {
      var t := Wrap64(IndexOfRole(roles.value, member.value.id) + change);
      if TargetGuard(roles.value, t) == Admit {
        assert calls[2] == AssignRole(userId, roles.value[t].id);
      }
    }
  }

  /**
   * A successful change assigned the role at the offset index, once, after the
   * two fetches, and returns the member's old role with that role.
   */
  lemma SuccessfulChange(g: Group, userId: int, change: Int64, roles: Result<seq<Role>, Error>,
                         member: Result<Role, Error>, setReply: Reply<()>)
    requires RankChange(g, userId, change, roles, member, setReply).0.Changed?
    ensures g.authenticated && roles.Success? && member.Success?
    ensures var t := Wrap64(IndexOfRole(roles.value, member.value.id) + change);
      && 0 <= t < |roles.value| && roles.value[t].rank != OwnerRank
      && SetRank(g, setReply) == Outcome.Pass
      && RankChange(g, userId, change, roles, member, setReply) ==
         (Changed(member.value, roles.value[t]),
          [ListRoles, ListMemberships(userId), AssignRole(userId, roles.value[t].id)])
  {
  }

  /**
   * Moving a member who holds the role at index `i` (of a list unique by id)
   * by `change`: with `t` the 64-bit sum `i + change`, the role at `t` when it is in the list and not the
   * owner's, "rank not found" past the end or on the owner's rank, and a
   * panic at the index just past the end or below zero.
   */
  lemma StepFromIndex(g: Group, userId: int, change: Int64, roles: seq<Role>, m: Role, i: int, setReply: Reply<()>)
    requires g.authenticated && UniqueIds(roles) && 0 <= i < |roles| && roles[i].id == m.id
    requires SetRank(g, setReply) == Outcome.Pass
    ensures var r := RankChange(g, userId, change, Success(roles), Success(m), setReply).0;
      var t := Wrap64(i + change);
      if 0 <= t < |roles| && roles[t].rank != OwnerRank then r == Changed(m, roles[t])
      else if t < 0 || t == |roles| then r == IndexPanic(t)
      else r == Failed(RankNotFound)
  {
    IndexOfUniqueRole(roles, i);
  }

  /**
   * A member whose role is not in the list is located at the last index, not
   * at -1, so promoting them indexes one past the end: the written guard lets
   * that through and the program panics. (A Go slice holds at most `IntMax`
   * elements, so the index does not wrap.)
   */
  lemma PromoteMissingRolePanics(g: Group, userId: int, roles: seq<Role>, m: Role, setReply: Reply<()>)
    requires g.authenticated && |roles| <= IntMax
    requires forall j :: 0 <= j < |roles| ==> roles[j].id != m.id
    ensures IndexOfRole(roles, m.id) == |roles| - 1
    ensures RankChange(g, userId, 1, Success(roles), Success(m), setReply) ==
            (IndexPanic(|roles|), [ListRoles, ListMemberships(userId)])
  {
  }

  /** Demoting the holder of the lowest role indexes position -1: a panic, not "rank not found". */
  lemma DemoteLowestRolePanics(g: Group, userId: int, roles: seq<Role>, setReply: Reply<()>)
    requires g.authenticated && |roles| > 0
    ensures RankChange(g, userId, -1, Success(roles), Success(roles[0]), setReply) ==
            (IndexPanic(-1), [ListRoles, ListMemberships(userId)])
  {
  }

  /**
   * On a rank-sorted list, a non-negative change never lands on a lower rank,
   * even when the 64-bit sum wraps (the wrapped index is negative and panics).
   * A Go slice holds at most `IntMax` elements.
   */
  lemma PromoteNeverLowersRank(g: Group, userId: int, change: Int64, roles: seq<Role>, m: Role, i: int,
                               setReply: Reply<()>)
    requires |roles| <= IntMax
    requires SortedByRank(roles) && UniqueIds(roles) && 0 <= i < |roles| && roles[i].id == m.id
    requires change >= 0
    requires RankChange(g, userId, change, Success(roles), Success(m), setReply).0.Changed?
    ensures RankChange(g, userId, change, Success(roles), Success(m), setReply).0.current.rank >= roles[i].rank
  {
    IndexOfUniqueRole(roles, i);
  }

  /**
   * The target index wraps around at 64 bits: moving the member at index 1 by
   * `IntMax` indexes `IntMin` and panics, and moving a member of an empty list
   * by `IntMin` wraps to `IntMax`, past the end, and is "rank not found".
   */
  lemma ChangeWrapsAround(g: Group, userId: int)
    requires g.authenticated
    ensures var roles := [Role(1, "Guest", 0), Role(2, "Member", 10)];
      RankChange(g, userId, IntMax, Success(roles), Success(roles[1]), Answered(200, None)) ==
        (IndexPanic(IntMin), [ListRoles, ListMemberships(userId)])
    ensures RankChange(g, userId, IntMin, Success([]), Success(ZeroRole), Answered(200, None)) ==
        (Failed(RankNotFound), [ListRoles, ListMemberships(userId)])
  {
    var roles := [Role(1, "Guest", 0), Role(2, "Member", 10)];
    IndexOfUniqueRole(roles, 1);
  }

  /**
   * Roles 1, 2, 3 with ranks 0, 10, 255 and a member holding role 2: promoting
   * lands on the owner's rank and fails without assigning; demoting assigns role 1.
   */
  lemma ThreeRoleExample(g: Group, userId: int)
    requires g.authenticated
    ensures var roles := [Role(1, "Guest", 0), Role(2, "Member", 10), Role(3, "Owner", 255)];
      && RankChange(g, userId, 1, Success(roles), Success(roles[1]), Answered(200, None)) ==
         (Failed(RankNotFound), [ListRoles, ListMemberships(userId)])
      && RankChange(g, userId, -1, Success(roles), Success(roles[1]), Answered(200, None)) ==
         (Changed(roles[1], roles[0]), [ListRoles, ListMemberships(userId), AssignRole(userId, 1)])
  {
    var roles := [Role(1, "Guest", 0), Role(2, "Member", 10), Role(3, "Owner", 255)];
    IndexOfUniqueRole(roles, 1);
  }
}
