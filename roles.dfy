/**
 * Reading a group's roles: the role list sorted by rank (GetGroupRoles) and
 * the role a user holds in the group (GetRoleInGroup).
 */
module Roles {
  import opened Wrappers
  import opened Api

  /** Ranks never decrease along `s`. */
  predicate SortedByRank(s: seq<Role>) {
    forall i, j :: 0 <= i < j < |s| ==> s[i].rank <= s[j].rank
  }

  /** The roles are unique by id, as the API promises of one group. */
  predicate UniqueIds(s: seq<Role>) {
    forall i, j :: 0 <= i < j < |s| ==> s[i].id != s[j].id
  }

  /** Exchanges two entries of `a`. */
  method Swap(a: array<Role>, i: int, j: int)
    requires 0 <= i < a.Length && 0 <= j < a.Length
    modifies a
    ensures a[i] == old(a[j]) && a[j] == old(a[i])
    ensures forall k :: 0 <= k < a.Length && k != i && k != j ==> a[k] == old(a[k])
    ensures multiset(a[..]) == multiset(old(a[..]))
  {
    a[i], a[j] := a[j], a[i];
  }

  /**
   * `sort.Slice(roles, func(i, j) { roles[i].Rank < roles[j].Rank })`: sorts in
   * place by rank. Go's sort is not stable, so nothing is promised about the
   * order of roles of equal rank beyond the permutation.
   */
  method SortByRank(a: array<Role>)
    modifies a
    ensures SortedByRank(a[..])
    ensures multiset(a[..]) == multiset(old(a[..]))
  {
    var i := 0;
    while i < a.Length
      invariant 0 <= i <= a.Length
      invariant forall p, q :: 0 <= p < q < i ==> a[p].rank <= a[q].rank
      invariant multiset(a[..]) == multiset(old(a[..]))
    {
      var j := i;
      while j > 0 && a[j - 1].rank > a[j].rank
        invariant 0 <= j <= i
        invariant forall p, q :: 0 <= p < q <= i && q != j ==> a[p].rank <= a[q].rank
        invariant multiset(a[..]) == multiset(old(a[..]))
      {
        Swap(a, j - 1, j);
        j := j - 1;
      }
      i := i + 1;
    }
  }

  /**
   * `result` is what GetGroupRoles may return for `reply`: the reply's error,
   * or the decoded roles sorted by rank (any order among equal ranks).
   */
  predicate RolesFetched(reply: Reply<seq<Role>>, result: Result<seq<Role>, Error>) {
    match Decoded(reply)
    case Failure(e) => result == Failure(e)
    case Success(raw) =>
      result.Success? && SortedByRank(result.value) && multiset(result.value) == multiset(raw)
  }

  /** GetGroupRoles: the status check, the decode, then the in-place sort. */
  method GetGroupRoles(reply: Reply<seq<Role>>) returns (r: Result<seq<Role>, Error>)
    ensures RolesFetched(reply, r)
    ensures r.Success? ==> |r.value| == |reply.body.value|
  {
    match Decoded(reply)
    case Failure(e) =>
      r := Failure(e);
    case Success(raw) =>
      var a := new Role[|raw|](i requires 0 <= i < |raw| => raw[i]);
      assert a[..] == raw;
      SortByRank(a);
      r := Success(a[..]);
      assert |r.value| == |multiset(r.value)| == |multiset(raw)| == |raw|;
  }

  /** The index of the last entry of `data` for group `groupId`, or -1 when there is none. */
  function LastMatch(data: seq<Membership>, groupId: int): (k: int)
    ensures -1 <= k < |data|
    ensures k >= 0 ==> data[k].groupId == groupId
    ensures forall j :: k < j < |data| ==> data[j].groupId != groupId
  {
    if |data| == 0 then -1
    else if data[|data| - 1].groupId == groupId then |data| - 1
    else LastMatch(data[..|data| - 1], groupId)
  }

  /** `k` is an entry for `groupId` and no later entry is. */
  predicate IsLastEntry(data: seq<Membership>, groupId: int, k: int) {
    0 <= k < |data| && data[k].groupId == groupId &&
    forall j :: k < j < |data| ==> data[j].groupId != groupId
  }

  /** The role held in group `groupId` according to the membership list `data`. */
  function RoleIn(data: seq<Membership>, groupId: int): (role: Role)
    ensures (forall j :: 0 <= j < |data| ==> data[j].groupId != groupId) ==> role == ZeroRole
    ensures forall k :: IsLastEntry(data, groupId, k) ==> role == data[k].role
  {
    var k := LastMatch(data, groupId);
    if k < 0 then ZeroRole else data[k].role
  }

  /** What GetRoleInGroup returns for the reply to the membership request. */
  function MemberRole(reply: Reply<seq<Membership>>, groupId: int): Result<Role, Error> {
    match Decoded(reply)
    case Failure(e) => Failure(e)
    case Success(data) => Success(RoleIn(data, groupId))
  }

  /**
   * GetRoleInGroup: walks the whole membership list and keeps the role of every
   * entry for this group, so the last one wins; no entry leaves the zero role,
   * which is not an error.
   */
  method GetRoleInGroup(g: Group, reply: Reply<seq<Membership>>) returns (r: Result<Role, Error>)
    ensures r == MemberRole(reply, g.id)
  {
    match Decoded(reply)
    case Failure(e) =>
      r := Failure(e);
    case Success(data) =>
      var role := ZeroRole;
      for i := 0 to |data|
        invariant role == RoleIn(data[..i], g.id)
      {
        assert data[..i + 1][..i] == data[..i];
        if data[i].groupId == g.id {
          role := data[i].role;
        }
      }
      assert data[..|data|] == data;
      r := Success(role);
  }
}
