/** The "create group" page: the group is inserted with its trimmed name, the
    creator joins it, and each address of the comma-separated email field
    becomes either a membership (a profile exists for it) or an invitation. */
module CreateGroup {

  import opened Wrappers
  import opened Collections
  import opened JsText

  // ---------------------------------------------------------------------
  // Parsing the email field.

  /** What the filter keeps: `email && email.includes('@')`. */
  predicate IsEmailPiece(e: string) {
    e != "" && '@' in e
  }

  /** `pieces.map(email => email.trim())`. */
  function TrimAll(pieces: seq<string>): (r: seq<string>)
    ensures |r| == |pieces|
    ensures forall i :: 0 <= i < |r| ==> r[i] == Trim(pieces[i])
  {
    seq(|pieces|, i requires 0 <= i < |pieces| => Trim(pieces[i]))
  }

  /** `.filter(email => email && email.includes('@'))`: exactly the pieces that
      pass, in their original order. */
  function KeepEmails(pieces: seq<string>): (r: seq<string>)
    ensures forall i :: 0 <= i < |r| ==> IsEmailPiece(r[i])
    ensures forall e :: e in r <==> e in pieces && IsEmailPiece(e)
    ensures IsSubsequence(r, pieces)
    ensures forall e :: multiset(r)[e] == if IsEmailPiece(e) then multiset(pieces)[e] else 0
    decreases |pieces|
  {
    if |pieces| == 0 then []
    else
      var rest := KeepEmails(pieces[1..]);
      assert pieces == [pieces[0]] + pieces[1..];
      assert multiset(pieces) == multiset([pieces[0]]) + multiset(pieces[1..]);
      if IsEmailPiece(pieces[0]) then
        assert ([pieces[0]] + rest)[1..] == rest;
        [pieces[0]] + rest
      else
        SubsequenceSnocLeftSkip(rest, pieces);
        rest
  }

  /** `emails.split(',').map(trim).filter(...)`. No address has a comma or
      surrounding whitespace, each has an '@', and they come in input order. */
  function ParseEmails(emails: string): (r: seq<string>)
    ensures forall i :: 0 <= i < |r| ==> ',' !in r[i] && IsTrimmed(r[i]) && IsEmailPiece(r[i])
    ensures IsSubsequence(r, TrimAll(Split(emails, ',')))
    ensures forall e :: multiset(r)[e] == if IsEmailPiece(e) then multiset(TrimAll(Split(emails, ',')))[e] else 0
  {
    var pieces := Split(emails, ',');
    var trimmed := TrimAll(pieces);
    var r := KeepEmails(trimmed);
    forall i | 0 <= i < |r| ensures ',' !in r[i] && IsTrimmed(r[i]) {
      assert r[i] in trimmed;
      var k :| 0 <= k < |trimmed| && trimmed[k] == r[i];
      TrimSubstring(pieces[k], ',');
    }
    r
  }

  /** A character absent from a string is absent from its trim. */
  lemma TrimSubstring(s: string, c: char)
    requires c !in s
    ensures c !in Trim(s)
  {
    TrimIsPiece(s);
    NotInSlice(s, c, TrimOffset(s), TrimOffset(s) + |Trim(s)|);
  }

  lemma NotInSlice(s: string, c: char, a: nat, b: nat)
    requires c !in s && a <= b <= |s|
    ensures c !in s[a..b]
  {
  }

  /** Every piece between commas that trims to an address is kept: the parse
      loses nothing the filter accepts. */
  lemma ParseKeepsEveryAddress(emails: string)
    ensures forall i :: 0 <= i < |Split(emails, ',')| && IsEmailPiece(Trim(Split(emails, ',')[i])) ==>
              Trim(Split(emails, ',')[i]) in ParseEmails(emails)
    ensures forall e :: e in ParseEmails(emails) ==> exists i :: 0 <= i < |Split(emails, ',')| && Trim(Split(emails, ',')[i]) == e
  {
    var pieces := Split(emails, ',');
    var trimmed := TrimAll(pieces);
    forall i | 0 <= i < |pieces| && IsEmailPiece(Trim(pieces[i])) ensures Trim(pieces[i]) in ParseEmails(emails) {
      assert trimmed[i] == Trim(pieces[i]);
    }
  }

  /** A list of addresses written out with commas parses back to itself. */
  lemma {:induction false} ParseJoin(es: seq<string>)
    requires |es| >= 1
    requires forall i :: 0 <= i < |es| ==> ',' !in es[i] && IsTrimmed(es[i]) && IsEmailPiece(es[i])
    ensures ParseEmails(Join(es, ',')) == es
  {
    SplitJoin(es, ',');
    TrimAllTrimmed(es);
    KeepAll(es);
  }

  lemma TrimAllTrimmed(es: seq<string>)
    requires forall i :: 0 <= i < |es| ==> IsTrimmed(es[i])
    ensures TrimAll(es) == es
  {
    var trimmed := TrimAll(es);
    forall i | 0 <= i < |es| ensures trimmed[i] == es[i] {
      TrimStartOfTrimmed(es[i]);
      TrimEndOfTrimmed(es[i]);
    }
  }

  lemma {:induction false} KeepAll(es: seq<string>)
    requires forall i :: 0 <= i < |es| ==> IsEmailPiece(es[i])
    ensures KeepEmails(es) == es
    decreases |es|
  {
    if |es| > 0 {
      KeepAll(es[1..]);
      assert [es[0]] + es[1..] == es;
    }
  }

  /** A blank field parses to no address at all, so the `emails.trim()` guard
      in front of the parse changes nothing. */
  lemma BlankFieldNoEmails(emails: string)
    requires AllWhitespace(emails)
    ensures ParseEmails(emails) == []
  {
    assert ',' !in emails;
    SplitNoSeparator(emails, ',');
    TrimEmptyIff(emails);
    assert TrimAll([emails]) == [""];
  }

  // ---------------------------------------------------------------------
  // Submission, as the writes it issues.

  datatype Write =
    | InsertGroup(name: string, createdBy: string)
    | InsertMember(groupId: string, userId: string)
    | InsertInvitation(groupId: string, invitedBy: string, invitedEmail: string, role: string)

  datatype SubmitResult = Ignored | Failed | Created(groupId: string)

  /** The write for one address: a membership for the profile's user when
      `existing(email)` found one, an invitation with role 'member' otherwise. */
  function EmailAction(groupId: string, inviter: string, email: string, existing: string -> Option<string>): (w: Write)
    ensures existing(email).Some? ==> w == InsertMember(groupId, existing(email).value)
    ensures existing(email).None? ==> w == InsertInvitation(groupId, inviter, email, "member")
  {
    match existing(email)
    case Some(u) => InsertMember(groupId, u)
    case None => InsertInvitation(groupId, inviter, email, "member")
  }

  /** The writes of the loop over the addresses, one per address. */
  function EmailWrites(groupId: string, inviter: string, es: seq<string>, existing: string -> Option<string>): (r: seq<Write>)
    ensures |r| == |es|
    ensures forall k :: 0 <= k < |es| ==> r[k] == EmailAction(groupId, inviter, es[k], existing)
  {
    seq(|es|, i requires 0 <= i < |es| => EmailAction(groupId, inviter, es[i], existing))
  }

  /** The addresses processed: the parse, or none when the field is blank. */
  function EmailsToProcess(emails: string): seq<string> {
    if Trim(emails) != "" then ParseEmails(emails) else []
  }

  /** The writes of `handleSubmit`. `groupId` is the id of the inserted group
      (`None` when the insert failed) and `memberOk` the creator's membership
      insert's outcome; the later inserts' outcomes are not checked. */
  function SubmitWrites(signedIn: bool, userId: string, name: string, emails: string,
                        groupId: Option<string>, memberOk: bool, existing: string -> Option<string>): seq<Write>
  {
    if !signedIn then []
    else
      var g := InsertGroup(Trim(name), userId);
      match groupId
      case None => [g]
      case Some(gid) =>
        var m := InsertMember(gid, userId);
        if !memberOk then [g, m]
        else
          [g, m] + EmailWrites(gid, userId, EmailsToProcess(emails), existing)
  }

  function SubmitResultOf(signedIn: bool, groupId: Option<string>, memberOk: bool): SubmitResult {
    if !signedIn then Ignored
    else if groupId.None? || !memberOk then Failed
    else Created(groupId.value)
  }

  /** The group comes first, with the trimmed name and the creator, and the
      creator's membership second, before any address is processed. */
  lemma GroupThenCreator(signedIn: bool, userId: string, name: string, emails: string,
                         groupId: Option<string>, memberOk: bool, existing: string -> Option<string>)
    requires signedIn
    ensures var w := SubmitWrites(signedIn, userId, name, emails, groupId, memberOk, existing);
            && |w| >= 1 && w[0] == InsertGroup(Trim(name), userId)
            && (groupId.Some? ==> |w| >= 2 && w[1] == InsertMember(groupId.value, userId))
            && (groupId.None? ==> |w| == 1)
  {
    if groupId.Some? && memberOk {
      var gid := groupId.value;
      var w := SubmitWrites(signedIn, userId, name, emails, groupId, memberOk, existing);
      assert w[..2] == [InsertGroup(Trim(name), userId), InsertMember(gid, userId)] by {
        CreatedWrites(userId, name, emails, gid, existing);
      }
      assert w[0] == w[..2][0] && w[1] == w[..2][1];
    }
  }

  /** Every write after the creator's membership is about the new group, and
      none of them inserts a group. */
  lemma LaterWritesInGroup(userId: string, name: string, emails: string, gid: string,
                           memberOk: bool, existing: string -> Option<string>)
    ensures var w := SubmitWrites(true, userId, name, emails, Some(gid), memberOk, existing);
            forall k :: 2 <= k < |w| ==> !w[k].InsertGroup? && w[k].groupId == gid
  {
    if memberOk {
      CreatedWrites(userId, name, emails, gid, existing);
      AfterCreatorInGroup(userId, Trim(name), gid, EmailsToProcess(emails), existing);
    }
  }

  /** The writes that follow the group and the creator all belong to the group. */
  lemma AfterCreatorInGroup(userId: string, groupName: string, gid: string, es: seq<string>, existing: string -> Option<string>)
    ensures var w := [InsertGroup(groupName, userId), InsertMember(gid, userId)] + EmailWrites(gid, userId, es, existing);
            forall k :: 2 <= k < |w| ==> !w[k].InsertGroup? && w[k].groupId == gid
  {
  }

  /** Each address yields exactly one write, in list order: a membership when
      a profile exists for it, an invitation with role 'member' otherwise. */
  lemma OneActionPerEmail(userId: string, name: string, emails: string, gid: string, existing: string -> Option<string>)
    ensures var w := SubmitWrites(true, userId, name, emails, Some(gid), true, existing);
            var es := EmailsToProcess(emails);
            && |w| == 2 + |es|
            && (forall k :: 0 <= k < |es| && existing(es[k]).Some? ==> w[2 + k] == InsertMember(gid, existing(es[k]).value))
            && (forall k :: 0 <= k < |es| && existing(es[k]).None? ==> w[2 + k] == InsertInvitation(gid, userId, es[k], "member"))
  {
    var es := EmailsToProcess(emails);
    var ew := EmailWrites(gid, userId, es, existing);
    var w := SubmitWrites(true, userId, name, emails, Some(gid), true, existing);
    assert w[2..] == ew && |w| == 2 + |es| by {
      CreatedWrites(userId, name, emails, gid, existing);
    }
    forall k | 0 <= k < |es| ensures w[2 + k] == EmailAction(gid, userId, es[k], existing) {
      assert w[2..][k] == w[2 + k];
    }
  }

  lemma CreatedWrites(userId: string, name: string, emails: string, gid: string, existing: string -> Option<string>)
    ensures SubmitWrites(true, userId, name, emails, Some(gid), true, existing)
            == [InsertGroup(Trim(name), userId), InsertMember(gid, userId)] + EmailWrites(gid, userId, EmailsToProcess(emails), existing)
  {
  }

  /** A blank email field writes only the group and the creator's membership. */
  lemma BlankFieldOnlyGroup(userId: string, name: string, emails: string, gid: string, existing: string -> Option<string>)
    requires AllWhitespace(emails)
    ensures SubmitWrites(true, userId, name, emails, Some(gid), true, existing)
            == [InsertGroup(Trim(name), userId), InsertMember(gid, userId)]
  {
    TrimEmptyIff(emails);
  }

  /** The submit button: disabled while loading or with a blank name; an
      enabled submission stores a non-empty, trimmed name. */
  predicate SubmitEnabled(loading: bool, name: string) {
    !loading && Trim(name) != ""
  }

  lemma EnabledStoresName(loading: bool, name: string)
    requires SubmitEnabled(loading, name)
    ensures !AllWhitespace(name)
    ensures var n := Trim(name); n != "" && IsTrimmed(n)
  {
    TrimEmptyIff(name);
  }

  /** The `for (const email of emails)` loop: one insert per address, in order. */
  method ProcessEmails(gid: string, inviter: string, es: seq<string>, existing: string -> Option<string>)
    returns (writes: seq<Write>)
    ensures writes == EmailWrites(gid, inviter, es, existing)
  {
    writes := [];
    var i := 0;
    while i < |es|
      invariant 0 <= i <= |es|
      invariant |writes| == i
      invariant forall k :: 0 <= k < i ==> writes[k] == EmailAction(gid, inviter, es[k], existing)
    {
      var email := es[i];
      match existing(email) {
        case Some(u) =>
          writes := writes + [InsertMember(gid, u)];
        case None =>
          writes := writes + [InsertInvitation(gid, inviter, email, "member")];
      }
      i := i + 1;
    }
  }

  /** The body of `handleSubmit` after the `user` check: the group insert, the
      creator's membership, then, when the email field is not blank, the loop
      over the parsed addresses. */
  method Submit(userId: string, name: string, emails: string, groupId: Option<string>, memberOk: bool,
                existing: string -> Option<string>)
    returns (writes: seq<Write>, result: SubmitResult)
    ensures writes == SubmitWrites(true, userId, name, emails, groupId, memberOk, existing)
    ensures result == SubmitResultOf(true, groupId, memberOk)
  {
    var group := InsertGroup(Trim(name), userId);
    if groupId.None? {
      return [group], Failed;
    }
    var gid := groupId.value;
    var creator := InsertMember(gid, userId);
    if !memberOk {
      return [group, creator], Failed;
    }
    var es: seq<string> := [];
    if Trim(emails) != "" {
      es := ParseEmails(emails);
    }
    var actions := ProcessEmails(gid, userId, es, existing);
    writes := [group, creator] + actions;
    CreatedWrites(userId, name, emails, gid, existing);
    result := Created(gid);
  }

  // ---------------------------------------------------------------------
  // The page state.

  class CreateGroupPage {
    var loading: bool
    var name: string
    var emails: string

    constructor()
      ensures !loading && name == "" && emails == ""
    {
      loading := false;
      name := "";
      emails := "";
    }

    /** `handleSubmit`: nothing without a user; otherwise `loading` while the
        inserts run, and false again afterwards. */
    method HandleSubmit(signedIn: bool, userId: string, groupId: Option<string>, memberOk: bool, existing: string -> Option<string>)
      returns (writes: seq<Write>, result: SubmitResult)
      modifies this
      ensures writes == SubmitWrites(signedIn, userId, old(name), old(emails), groupId, memberOk, existing)
      ensures result == SubmitResultOf(signedIn, groupId, memberOk)
      ensures loading == (if signedIn then false else old(loading))
      ensures name == old(name) && emails == old(emails)
    {
      if !signedIn {
        return [], Ignored;
      }
      loading := true;
      writes, result := Submit(userId, name, emails, groupId, memberOk, existing);
      loading := false;
    }
  }
}
