/** The invitation page: an invitation is loaded by its token while it is
    pending and not expired, and accepting it first inserts the membership and
    only then marks the invitation accepted. Timestamps are given as integers
    (milliseconds), so `new Date(a) < new Date(b)` is `a < b`. */
module GroupInvitation {

  import opened Wrappers
  import opened Roles

  /** A `group_invitations` row. */
  datatype InvitationRow = InvitationRow(
    id: string,
    groupId: string,
    invitedBy: string,
    invitedEmail: string,
    role: Role,
    status: string,
    token: string,
    expiresAt: int,
    acceptedAt: Option<string>)

  datatype GroupInfo = GroupInfo(name: string, createdAt: string)

  /** The invitation as the page holds it, with the group and the inviter's name. */
  datatype LoadedInvitation = LoadedInvitation(row: InvitationRow, group: GroupInfo, inviterName: string)

  predicate Matches(r: InvitationRow, token: string) {
    r.token == token && r.status == "pending"
  }

  /** `.eq('token', token).eq('status', 'pending')`: every matching row, in order. */
  function PendingWithToken(rows: seq<InvitationRow>, token: string): (r: seq<InvitationRow>)
    ensures forall i :: 0 <= i < |r| ==> Matches(r[i], token)
    ensures forall x :: multiset(r)[x] == if Matches(x, token) then multiset(rows)[x] else 0
    decreases |rows|
  {
    if |rows| == 0 then []
    else
      var rest := PendingWithToken(rows[1..], token);
      assert rows == [rows[0]] + rows[1..];
      assert multiset(rows) == multiset([rows[0]]) + multiset(rows[1..]);
      if Matches(rows[0], token) then [rows[0]] + rest else rest
  }

  /** Row `i` matches and no other row does. */
  predicate OnlyMatchAt(rows: seq<InvitationRow>, token: string, i: int) {
    && 0 <= i < |rows| && Matches(rows[i], token)
    && forall j :: 0 <= j < |rows| && j != i ==> !Matches(rows[j], token)
  }

  /** `.single()`: the row when exactly one row matches, an error when none
      or several do. */
  function SingleRow(rows: seq<InvitationRow>, token: string): (r: Option<InvitationRow>)
    ensures r.Some? <==> exists i :: OnlyMatchAt(rows, token, i)
    ensures forall i :: OnlyMatchAt(rows, token, i) ==> r == Some(rows[i])
  {
    var m := PendingWithToken(rows, token);
    OnePending(rows, token);
    if |m| == 1 then Some(m[0]) else None
  }

  /** The filter keeps exactly one row when exactly one row matches, and then
      that row. */
  lemma {:induction false} OnePending(rows: seq<InvitationRow>, token: string)
    ensures |PendingWithToken(rows, token)| == 1 <==> exists i :: OnlyMatchAt(rows, token, i)
    ensures forall i :: OnlyMatchAt(rows, token, i) ==> PendingWithToken(rows, token) == [rows[i]]
    decreases |rows|
  {
    if |rows| > 0 {
      var rest := rows[1..];
      OnePending(rest, token);
      assert forall j :: 1 <= j < |rows| ==> rows[j] == rest[j - 1];
      if Matches(rows[0], token) {
        NoPending(rest, token);
        assert PendingWithToken(rows, token) == [rows[0]] + PendingWithToken(rest, token);
        assert forall i :: OnlyMatchAt(rows, token, i) ==> i == 0;
        if PendingWithToken(rest, token) == [] {
          assert OnlyMatchAt(rows, token, 0);
        }
      } else {
        forall i | OnlyMatchAt(rows, token, i) ensures OnlyMatchAt(rest, token, i - 1) {
          forall j | 0 <= j < |rest| && j != i - 1 ensures !Matches(rest[j], token) {
            assert rest[j] == rows[j + 1];
          }
        }
        if |PendingWithToken(rest, token)| == 1 {
          var k :| OnlyMatchAt(rest, token, k);
          assert OnlyMatchAt(rows, token, k + 1);
        }
      }
    }
  }

  /** The filter keeps nothing exactly when no row matches. */
  lemma NoPending(rows: seq<InvitationRow>, token: string)
    ensures PendingWithToken(rows, token) == [] <==> forall j :: 0 <= j < |rows| ==> !Matches(rows[j], token)
  {
    var m := PendingWithToken(rows, token);
    if m != [] {
      assert m[0] in rows;
    }
  }

  /** `new Date(expires_at) < new Date()`: strictly earlier than now. */
  predicate Expired(expiresAt: int, now: int) {
    expiresAt < now
  }

  const UnknownGroup := GroupInfo("Grupo desconocido", "")
  const UnknownInviter := "Usuario desconocido"

  /** What `fetchInvitation` sets, if anything: the single pending row with the
      token, when it has not expired, with the group (or 'Grupo desconocido')
      and the inviter's name (or 'Usuario desconocido'). */
  function LoadedOf(rows: seq<InvitationRow>, token: string, now: int,
                    group: Option<GroupInfo>, inviterName: Option<string>): (r: Option<LoadedInvitation>)
    ensures r.None? <==> SingleRow(rows, token).None? || Expired(SingleRow(rows, token).value.expiresAt, now)
    ensures r.Some? ==> && Some(r.value.row) == SingleRow(rows, token)
                        && r.value.row in rows && Matches(r.value.row, token)
                        && !Expired(r.value.row.expiresAt, now)
    ensures r.Some? ==> r.value.group == (if group.Some? then group.value else UnknownGroup)
    ensures r.Some? ==> r.value.inviterName == (if inviterName.Some? then inviterName.value else UnknownInviter)
  {
    match SingleRow(rows, token)
    case None => None
    case Some(row) =>
      if Expired(row.expiresAt, now) then None
      else Some(LoadedInvitation(row, group.GetOr(UnknownGroup), inviterName.GetOr(UnknownInviter)))
  }

  /** Expiry is strict: an invitation that expires at this very instant loads. */
  lemma ExpiresNowStillLoads(rows: seq<InvitationRow>, token: string, group: Option<GroupInfo>, inviterName: Option<string>)
    requires SingleRow(rows, token).Some?
    ensures LoadedOf(rows, token, SingleRow(rows, token).value.expiresAt, group, inviterName).Some?
  {
  }

  // ---------------------------------------------------------------------
  // Accepting.

  datatype Write =
    | InsertMembership(groupId: string, userId: string, role: Role)
    | MarkAccepted(invitationId: string, acceptedAt: string)

  datatype AcceptResult = Ignored | Failed | Joined(groupId: string)

  /** The writes of `acceptInvitation`: the membership insert, then (only when
      it succeeded) the status update. */
  function AcceptWrites(user: Option<string>, inv: Option<LoadedInvitation>, memberOk: bool, at: string): seq<Write> {
    if user.None? || inv.None? then []
    else
      var m := InsertMembership(inv.value.row.groupId, user.value, inv.value.row.role);
      if !memberOk then [m] else [m, MarkAccepted(inv.value.row.id, at)]
  }

  function AcceptResultOf(user: Option<string>, inv: Option<LoadedInvitation>, memberOk: bool, updateOk: bool): AcceptResult {
    if user.None? || inv.None? then Ignored
    else if !memberOk || !updateOk then Failed
    else Joined(inv.value.row.groupId)
  }

  /** `.update({ status: 'accepted', accepted_at }).eq('id', id)` on the rows. */
  function MarkAcceptedRows(rows: seq<InvitationRow>, id: string, at: string): (r: seq<InvitationRow>)
    ensures |r| == |rows|
    ensures forall i :: 0 <= i < |rows| && rows[i].id == id ==> r[i] == rows[i].(status := "accepted", acceptedAt := Some(at))
    ensures forall i :: 0 <= i < |rows| && rows[i].id != id ==> r[i] == rows[i]
  {
    seq(|rows|, i requires 0 <= i < |rows| =>
      if rows[i].id == id then rows[i].(status := "accepted", acceptedAt := Some(at)) else rows[i])
  }

  /** The invitation rows after the writes, each write having succeeded. */
  function ApplyWrites(rows: seq<InvitationRow>, ws: seq<Write>): (r: seq<InvitationRow>)
    ensures |r| == |rows|
    decreases |ws|
  {
    if |ws| == 0 then rows
    else
      var rows' := match ws[0]
                   case InsertMembership(_, _, _) => rows
                   case MarkAccepted(id, at) => MarkAcceptedRows(rows, id, at);
      ApplyWrites(rows', ws[1..])
  }

  /** Nothing happens without a user or an invitation; otherwise the membership
      carries the invitation's group and role, and the status update comes only
      after it, and only when it succeeded. */
  lemma AcceptOrder(user: Option<string>, inv: Option<LoadedInvitation>, memberOk: bool, updateOk: bool, at: string)
    ensures var w := AcceptWrites(user, inv, memberOk, at);
            && (user.None? || inv.None? ==> w == [] && AcceptResultOf(user, inv, memberOk, updateOk) == Ignored)
            && (user.Some? && inv.Some? ==>
                  && |w| >= 1
                  && w[0] == InsertMembership(inv.value.row.groupId, user.value, inv.value.row.role))
            && (forall k :: 0 <= k < |w| && w[k].MarkAccepted? ==> k == 1 && memberOk)
            && (AcceptResultOf(user, inv, memberOk, updateOk).Joined? ==> |w| == 2)
  {
  }

  /** A failed membership insert leaves every invitation row as it was, so the
      invitation stays pending. */
  lemma FailedInsertKeepsPending(rows: seq<InvitationRow>, user: Option<string>, inv: Option<LoadedInvitation>, at: string)
    ensures ApplyWrites(rows, AcceptWrites(user, inv, false, at)) == rows
  {
  }

  /** Once accepted, the invitation cannot be loaded again by its token: no row
      with that token is pending any more. */
  lemma AcceptedNotReloadable(rows: seq<InvitationRow>, token: string, now: int, group: Option<GroupInfo>,
                              inviterName: Option<string>, user: string, at: string)
    requires LoadedOf(rows, token, now, group, inviterName).Some?
    ensures var inv := LoadedOf(rows, token, now, group, inviterName);
            var after := ApplyWrites(rows, AcceptWrites(Some(user), inv, true, at));
            && PendingWithToken(after, token) == []
            && (forall i :: 0 <= i < |rows| && rows[i].id == inv.value.row.id ==>
                  after[i].status == "accepted" && after[i].acceptedAt == Some(at))
  {
    var inv := LoadedOf(rows, token, now, group, inviterName);
    var row := inv.value.row;
    var ws := AcceptWrites(Some(user), inv, true, at);
    var after := MarkAcceptedRows(rows, row.id, at);
    assert ApplyWrites(rows, ws) == ApplyWrites(rows, ws[1..]);
    assert ApplyWrites(rows, ws[1..]) == ApplyWrites(after, ws[1..][1..]);
    assert ws[1..][1..] == [];
    var m := PendingWithToken(rows, token);
    assert m == [row];
    assert forall i :: 0 <= i < |after| ==> !Matches(after[i], token);
    NoPending(after, token);
  }

  // ---------------------------------------------------------------------
  // The page state.

  class InvitationPage {
    var invitation: Option<LoadedInvitation>
    var loading: bool
    var accepting: bool

    constructor()
      ensures invitation.None? && loading && !accepting
    {
      invitation := None;
      loading := true;
      accepting := false;
    }

    /** `fetchInvitation`, run only when the route has a token. The invitation
        is set only when it loads; the spinner stops in every case. */
    method FetchInvitation(token: Option<string>, rows: seq<InvitationRow>, now: int,
                           group: Option<GroupInfo>, inviterName: Option<string>)
      modifies this
      ensures token.None? ==> invitation == old(invitation) && loading == old(loading)
      ensures token.Some? ==> !loading
      ensures token.Some? ==>
                invitation == (if LoadedOf(rows, token.value, now, group, inviterName).Some?
                               then LoadedOf(rows, token.value, now, group, inviterName)
                               else old(invitation))
      ensures accepting == old(accepting)
    {
      if token.None? {
        return;
      }
      var found := SingleRow(rows, token.value);
      if found.Some? && !Expired(found.value.expiresAt, now) {
        invitation := Some(LoadedInvitation(found.value, group.GetOr(UnknownGroup), inviterName.GetOr(UnknownInviter)));
      }
      loading := false;
    }

    /** `acceptInvitation`, with the two store writes' outcomes as parameters. */
    method AcceptInvitation(user: Option<string>, memberOk: bool, updateOk: bool, at: string)
      returns (writes: seq<Write>, result: AcceptResult)
      modifies this
      ensures writes == AcceptWrites(user, old(invitation), memberOk, at)
      ensures result == AcceptResultOf(user, old(invitation), memberOk, updateOk)
      ensures accepting == (if user.Some? && old(invitation).Some? then false else old(accepting))
      ensures invitation == old(invitation) && loading == old(loading)
    {
      writes := [];
      if user.None? || invitation.None? {
        return writes, Ignored;
      }
      accepting := true;
      var inv := invitation.value;
      writes := [InsertMembership(inv.row.groupId, user.value, inv.row.role)];
      if !memberOk {
        result := Failed;
      } else {
        writes := writes + [MarkAccepted(inv.row.id, at)];
        result := if updateOk then Joined(inv.row.groupId) else Failed;
      }
      accepting := false;
    }
  }
}
