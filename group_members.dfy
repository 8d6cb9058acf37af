/** The group-members hook: the member rows merged with their profiles, the
    current user's admin flag, and the guards `addMember` runs before it
    inserts a membership. */
module GroupMembers {

  import opened Wrappers
  import opened Collections
  import opened Roles

  datatype MemberRow = MemberRow(id: string, groupId: string, userId: string, role: Role, joinedAt: string)

  datatype Profile = Profile(userId: string, name: string, email: string)

  /** A member row with the profile shown for it. */
  datatype GroupMember = GroupMember(row: MemberRow, name: string, email: string)

  function ProfileUser(p: Profile): string { p.userId }
  function UserOf(m: GroupMember): string { m.row.userId }

  const FallbackName := "Usuario"
  const FallbackEmail := "Sin email"

  /** `profiles?.find(p => p.user_id === userId) || { name: 'Usuario', email: 'Sin email' }`:
      the first matching profile as it is, the fallback only when none matches. */
  function WithProfile(row: MemberRow, profiles: Option<seq<Profile>>): (m: GroupMember)
    ensures m.row == row
    ensures profiles.Some? && FindKey(profiles.value, ProfileUser, row.userId).Some? ==>
              var p := FindKey(profiles.value, ProfileUser, row.userId).value;
              p.userId == row.userId && m.name == p.name && m.email == p.email
    ensures profiles.None? || FindKey(profiles.value, ProfileUser, row.userId).None? ==>
              m.name == FallbackName && m.email == FallbackEmail
  {
    var found := if profiles.Some? then FindKey(profiles.value, ProfileUser, row.userId) else None;
    match found
    case Some(p) => GroupMember(row, p.name, p.email)
    case None => GroupMember(row, FallbackName, FallbackEmail)
  }

  /** `membersData?.map(...) || []`: one merged entry per fetched row, in order. */
  function Merge(membersData: Option<seq<MemberRow>>, profiles: Option<seq<Profile>>): (r: seq<GroupMember>)
    ensures |r| == |membersData.GetOr([])|
    ensures forall i :: 0 <= i < |r| ==> r[i] == WithProfile(membersData.GetOr([])[i], profiles)
  {
    var rows := membersData.GetOr([]);
    seq(|rows|, i requires 0 <= i < |rows| => WithProfile(rows[i], profiles))
  }

  /** `currentUserMember?.role === 'admin'`, `currentUserMember` being the first
      entry with the user's id: true exactly when that entry exists and is an
      admin's; false without a user. */
  function IsAdminOf(members: seq<GroupMember>, user: Option<string>): (b: bool)
    ensures b <==> user.Some? && exists i :: 0 <= i < |members| && members[i].row.userId == user.value
                                   && members[i].row.role == Admin
                                   && forall j :: 0 <= j < i ==> members[j].row.userId != user.value
  {
    if user.None? then false
    else
      match FindIndex(members, UserOf, user.value)
      case None => false
      case Some(i) => members[i].row.role == Admin
  }

  /** Without a row of the user, the user is not an admin; with only admin rows,
      the user is. */
  lemma AdminNeedsRow(members: seq<GroupMember>, user: string)
    requires forall i :: 0 <= i < |members| ==> members[i].row.userId != user
    ensures !IsAdminOf(members, Some(user))
  {
  }

  lemma {:induction false} AdminOfOwnRows(members: seq<GroupMember>, user: string)
    requires exists i :: 0 <= i < |members| && members[i].row.userId == user
    requires forall i :: 0 <= i < |members| && members[i].row.userId == user ==> members[i].row.role == Admin
    ensures IsAdminOf(members, Some(user))
  {
    var i := FindIndex(members, UserOf, user);
    assert i.Some?;
  }

  /** The merged list's admin flag is the fetched rows' admin flag: profiles do
      not matter. */
  lemma AdminIgnoresProfiles(rows: seq<MemberRow>, p: Option<seq<Profile>>, q: Option<seq<Profile>>, user: Option<string>)
    ensures IsAdminOf(Merge(Some(rows), p), user) == IsAdminOf(Merge(Some(rows), q), user)
  {
    var a := Merge(Some(rows), p);
    var b := Merge(Some(rows), q);
    assert forall i :: 0 <= i < |a| ==> a[i].row == b[i].row;
  }

  // ---------------------------------------------------------------------
  // Adding a member.

  datatype MemberInsert = MemberInsert(groupId: string, userId: string, role: Role)

  datatype AddResult = NoSuchUser | AlreadyMember | Failed | Added

  /** The outcome of `addMember` given the profile lookup (`None` on error or no
      match) and the insert's outcome. */
  function AddResultOf(members: seq<GroupMember>, found: Option<string>, insertOk: bool): AddResult {
    if found.None? then NoSuchUser
    else if FindKey(members, UserOf, found.value).Some? then AlreadyMember
    else if !insertOk then Failed
    else Added
  }

  // ---------------------------------------------------------------------
  // The hook state.

  class GroupMembersHook {
    var members: seq<GroupMember>
    var loading: bool
    var isAdmin: bool

    constructor()
      ensures members == [] && loading && !isAdmin
    {
      members := [];
      loading := true;
      isAdmin := false;
    }

    /** `fetchMembers`: on success the merged rows and the admin flag; on error
        both unchanged; `loading` false in every case. */
    method FetchMembers(user: Option<string>, q: Query<seq<MemberRow>>, profiles: Option<seq<Profile>>)
      modifies this
      ensures q.QueryData? ==> members == Merge(q.data, profiles) && isAdmin == IsAdminOf(members, user)
      ensures q.QueryError? ==> members == old(members) && isAdmin == old(isAdmin)
      ensures !loading
    {
      if q.QueryData? {
        var merged := Merge(q.data, profiles);
        members := merged;
        var current := if user.Some? then FindKey(merged, UserOf, user.value) else None;
        isAdmin := current.Some? && current.value.row.role == Admin;
      }
      loading := false;
    }

    /** `addMember(email, role = 'member')`: no insert when no profile has the
        email, none when its user is already listed, otherwise the insert with
        the given role. The hook's state is only refreshed by the refetch that
        follows. */
    method AddMember(groupId: string, found: Option<string>, insertOk: bool, role: Role := Member)
      returns (insert: Option<MemberInsert>, result: AddResult)
      ensures result == AddResultOf(members, found, insertOk)
      ensures insert.Some? <==> found.Some? && forall i :: 0 <= i < |members| ==> members[i].row.userId != found.value
      ensures insert.Some? ==> insert.value == MemberInsert(groupId, found.value, role)
    {
      if found.None? {
        return None, NoSuchUser;
      }
      var existing := FindKey(members, UserOf, found.value);
      if existing.Some? {
        return None, AlreadyMember;
      }
      insert := Some(MemberInsert(groupId, found.value, role));
      result := if insertOk then Added else Failed;
    }
  }

  /** Called without a role, `addMember` inserts an ordinary member. */
  method AddWithDefaultRole(hook: GroupMembersHook, groupId: string, userId: string)
    returns (insert: Option<MemberInsert>)
    requires forall i :: 0 <= i < |hook.members| ==> hook.members[i].row.userId != userId
    ensures insert == Some(MemberInsert(groupId, userId, Member))
  {
    var result;
    insert, result := hook.AddMember(groupId, Some(userId), true);
  }
}
