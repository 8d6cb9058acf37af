/** The "add expense" page of a group: loading the members, editing the set of
    members the expense is split between, and submitting the expense with one
    equal share per selected member. */
module AddExpense {

  import opened Wrappers
  import opened Collections
  import opened Ledger
  import opened JsText
  import opened JsNumber
  import opened Balances

  /** The form state, replaced as a whole by every handler. The selection is a
      JavaScript `Set`, kept as a duplicate-free sequence in insertion order. */
  datatype FormData = FormData(
    description: string,
    amount: string,
    date: string,
    payerId: string,
    selectedMembers: seq<string>)

  /** The expense row the page inserts; `amount == None` is `NaN`. */
  datatype NewExpense = NewExpense(groupId: string, payerId: string, description: string, amount: Option<real>, date: string)

  /** One share row; `amountOwed == None` is `NaN`. */
  datatype NewShare = NewShare(expenseId: string, userId: string, amountOwed: Option<real>)

  /** The store writes of one submission, in the order they are issued. */
  datatype Write = InsertExpense(expense: NewExpense) | InsertShares(shares: seq<NewShare>)

  /** How a submission ends: silently ignored, refused for an empty selection,
      failed at one of the two inserts, or added (and the page navigates away). */
  datatype SubmitResult = Ignored | NoMembersSelected | Failed | Added

  function OwedValue(s: NewShare): real { s.amountOwed.GetOr(0.0) }

  // ---------------------------------------------------------------------
  // Selection editing.

  /** `handleMemberToggle`: `u` is deleted when present and added otherwise;
      every other id keeps its membership, and the result is still a set. */
  function Toggle(s: seq<string>, u: string): (r: seq<string>)
    ensures u in r <==> u !in s
    ensures forall y :: y != u ==> (y in r <==> y in s)
    ensures Distinct(s) ==> Distinct(r)
  {
    if u in s then
      SetDeleteKeepsOrder(s, u);
      SetDelete(s, u)
    else SetAdd(s, u)
  }

  /** Toggling twice gives back the same set of ids. */
  lemma ToggleTwice(s: seq<string>, u: string)
    ensures forall y :: y in Toggle(Toggle(s, u), u) <==> y in s
  {
  }

  /** Toggling an absent id twice gives back exactly the same sequence; a
      present id comes back at the end, since `add` appends. */
  lemma ToggleTwiceAbsent(s: seq<string>, u: string)
    requires u !in s
    ensures Toggle(Toggle(s, u), u) == s
  {
    SetDeleteSnoc(s, u);
  }

  lemma ToggleTwicePresent(s: seq<string>, u: string)
    requires u in s
    ensures Toggle(Toggle(s, u), u) == SetDelete(s, u) + [u]
  {
  }

  /** `new Set(members.map(m => m.user_id))`: every member id once, nothing else. */
  function AllSelected(members: seq<MemberRow>): (r: seq<string>)
    ensures Distinct(r)
    ensures forall y :: y in r <==> exists i :: 0 <= i < |members| && members[i].userId == y
  {
    var ids := MemberIds(members);
    assert forall y :: y in ids <==> exists i :: 0 <= i < |members| && members[i].userId == y by {
      forall y ensures y in ids ==> exists i :: 0 <= i < |members| && members[i].userId == y {
        if y in ids {
          var i :| 0 <= i < |ids| && ids[i] == y;
        }
      }
    }
    Dedup(ids)
  }

  // ---------------------------------------------------------------------
  // Submission, as the writes it issues.

  /** The row inserted for the expense: the payer, the trimmed description,
      `parseFloat` of the amount and the date. */
  function ExpenseRow(groupId: string, f: FormData): (e: NewExpense)
    ensures e.groupId == groupId && e.payerId == f.payerId && e.date == f.date
    ensures IsTrimmed(e.description) && (e.description == "" <==> AllWhitespace(f.description))
  {
    TrimEmptyIff(f.description);
    NewExpense(groupId, f.payerId, Trim(f.description), ParseFloat(f.amount), f.date)
  }

  /** `amount / selectedMembers.size`. */
  function PerPerson(amount: Option<real>, n: nat): (r: Option<real>)
    requires n > 0
    ensures r.Some? <==> amount.Some?
  {
    match amount
    case None => None
    case Some(a) => Some(a / n as real)
  }

  /** The `n` equal shares make up the amount. */
  lemma PerPersonShares(amount: Option<real>, n: nat)
    requires n > 0
    ensures PerPerson(amount, n).Some? ==> n as real * PerPerson(amount, n).value == amount.value
  {
  }

  /** `Array.from(selected).map(u => ({ expense_id, user_id: u, amount_owed }))`. */
  function BuildShares(expenseId: string, selected: seq<string>, amountOwed: Option<real>): (r: seq<NewShare>)
    ensures |r| == |selected|
    ensures forall i :: 0 <= i < |r| ==> r[i].userId == selected[i]
    ensures forall i :: 0 <= i < |r| ==> r[i].expenseId == expenseId && r[i].amountOwed == amountOwed
  {
    seq(|selected|, i requires 0 <= i < |selected| => NewShare(expenseId, selected[i], amountOwed))
  }

  /** The submission returns before any write without a user or a group id, or
      with an empty selection. */
  predicate Proceeds(signedIn: bool, groupId: Option<string>, f: FormData) {
    signedIn && groupId.Some? && groupId.value != "" && |f.selectedMembers| > 0
  }

  /** The writes of `handleSubmit`: the expense insert, then (only when it
      returned a row with id `expenseId`) the share insert. */
  function SubmitWrites(signedIn: bool, groupId: Option<string>, f: FormData, expenseId: Option<string>): seq<Write> {
    if !Proceeds(signedIn, groupId, f) then []
    else
      var e := InsertExpense(ExpenseRow(groupId.value, f));
      match expenseId
      case None => [e]
      case Some(id) =>
        var n := |f.selectedMembers|;
        [e, InsertShares(BuildShares(id, f.selectedMembers, PerPerson(ParseFloat(f.amount), n)))]
  }

  function SubmitResultOf(signedIn: bool, groupId: Option<string>, f: FormData, expenseId: Option<string>, sharesOk: bool): SubmitResult {
    if !signedIn || groupId.None? || groupId.value == "" then Ignored
    else if |f.selectedMembers| == 0 then NoMembersSelected
    else if expenseId.None? || !sharesOk then Failed
    else Added
  }

  /** With an empty selection, nothing is written. */
  lemma EmptySelectionNoWrites(signedIn: bool, groupId: Option<string>, f: FormData, expenseId: Option<string>, sharesOk: bool)
    requires |f.selectedMembers| == 0
    ensures SubmitWrites(signedIn, groupId, f, expenseId) == []
    ensures SubmitResultOf(signedIn, groupId, f, expenseId, sharesOk) in {Ignored, NoMembersSelected}
  {
  }

  /** The expense is written first and the shares second, the shares only when
      the expense insert returned a row; a failed share insert does not take
      the expense back. */
  lemma WriteOrder(signedIn: bool, groupId: Option<string>, f: FormData, expenseId: Option<string>, sharesOk: bool)
    ensures var w := SubmitWrites(signedIn, groupId, f, expenseId);
            && |w| <= 2
            && (|w| > 0 <==> Proceeds(signedIn, groupId, f))
            && (|w| > 0 ==> w[0] == InsertExpense(ExpenseRow(groupId.value, f)))
            && (|w| == 2 <==> |w| > 0 && expenseId.Some?)
            && (|w| == 2 ==> w[1].InsertShares?)
            && (SubmitResultOf(signedIn, groupId, f, expenseId, sharesOk) == Added ==> |w| == 2)
            && (SubmitResultOf(signedIn, groupId, f, expenseId, sharesOk) == Failed ==> |w| >= 1)
  {
  }

  /** One share per selected member, each carrying the new expense's id. */
  lemma OneSharePerMember(signedIn: bool, groupId: Option<string>, f: FormData, id: string)
    requires Proceeds(signedIn, groupId, f)
    ensures var w := SubmitWrites(signedIn, groupId, f, Some(id));
            && |w| == 2
            && |w[1].shares| == |f.selectedMembers|
            && (forall y :: (exists k :: 0 <= k < |w[1].shares| && w[1].shares[k].userId == y) <==> y in f.selectedMembers)
            && (forall k :: 0 <= k < |w[1].shares| ==> w[1].shares[k].expenseId == id)
  {
    var w := SubmitWrites(signedIn, groupId, f, Some(id));
    var per := PerPerson(ParseFloat(f.amount), |f.selectedMembers|);
    assert w[1].shares == BuildShares(id, f.selectedMembers, per);
    SharesOfSelection(id, f.selectedMembers, per);
  }

  /** A member has a share exactly when selected. */
  lemma SharesOfSelection(id: string, selected: seq<string>, per: Option<real>)
    ensures var sh := BuildShares(id, selected, per);
            forall y :: (exists k :: 0 <= k < |sh| && sh[k].userId == y) <==> y in selected
  {
    var sh := BuildShares(id, selected, per);
    forall y ensures (exists k :: 0 <= k < |sh| && sh[k].userId == y) <==> y in selected {
      if y in selected {
        var k :| 0 <= k < |selected| && selected[k] == y;
        assert sh[k].userId == y;
      }
    }
  }

  /** With a numeric amount, every share is the same fraction and the shares add
      up to the amount. */
  lemma SharesSumToAmount(signedIn: bool, groupId: Option<string>, f: FormData, id: string, a: real)
    requires Proceeds(signedIn, groupId, f)
    requires ParseFloat(f.amount) == Some(a)
    ensures var w := SubmitWrites(signedIn, groupId, f, Some(id));
            && (forall k :: 0 <= k < |w[1].shares| ==> w[1].shares[k].amountOwed == Some(a / |f.selectedMembers| as real))
            && Total(w[1].shares, OwedValue) == a
  {
    EqualSharesTotal(id, f.selectedMembers, a);
  }

  lemma EqualSharesTotal(id: string, selected: seq<string>, a: real)
    requires |selected| > 0
    ensures Total(BuildShares(id, selected, PerPerson(Some(a), |selected|)), OwedValue) == a
  {
    var per := PerPerson(Some(a), |selected|);
    TotalConst(BuildShares(id, selected, per), OwedValue, per.value);
    PerPersonShares(Some(a), |selected|);
  }

  /** The submit button is enabled only when the form passes the selection
      guard, so an enabled submission by a signed-in user on a group page
      always writes the expense. */
  predicate SubmitEnabled(loading: bool, f: FormData) {
    !loading && Trim(f.description) != "" && f.amount != "" && f.payerId != "" && |f.selectedMembers| > 0
  }

  lemma EnabledSubmitWrites(loading: bool, f: FormData, groupId: string, expenseId: Option<string>)
    requires SubmitEnabled(loading, f) && groupId != ""
    ensures |SubmitWrites(true, Some(groupId), f, expenseId)| >= 1
    ensures ExpenseRow(groupId, f).description != ""
  {
    TrimEmptyIff(f.description);
  }

  // ---------------------------------------------------------------------
  // The page state.

  class AddExpensePage {
    var loading: bool
    var members: seq<MemberRow>
    var groupName: string
    var form: FormData

    /** The selection is a set. */
    ghost predicate Valid()
      reads this
    {
      Distinct(form.selectedMembers)
    }

    /** The initial state: empty fields, today's date, nothing selected. */
    constructor(today: string)
      ensures Valid()
      ensures !loading && members == [] && groupName == ""
      ensures form == FormData("", "", today, "", [])
    {
      loading := false;
      members := [];
      groupName := "";
      form := FormData("", "", today, "", []);
    }

    /** `fetchGroupData`: the group's name, then the member ids, then their
        profiles. When the members are found, the payer defaults to the current
        user and every member is selected; a failed query stops the load. */
    method FetchGroupData(group: Query<string>, membersData: Query<seq<string>>, profiles: Query<seq<Profile>>, currentUser: string)
      requires Valid()
      modifies this
      ensures Valid()
      ensures loading == old(loading)
      ensures group.QueryData? && group.data.Some? ==> groupName == group.data.value
      ensures !(group.QueryData? && group.data.Some?) ==> groupName == old(groupName)
      ensures if group.QueryData? && group.data.Some? && membersData.QueryData? && membersData.data.Some?
                 && |membersData.data.value| > 0 && profiles.QueryData?
              then
                && members == MergeProfiles(membersData.data.value, profiles.data)
                && form == old(form).(payerId := currentUser, selectedMembers := Dedup(membersData.data.value))
              else members == old(members) && form == old(form)
    {
      if !(group.QueryData? && group.data.Some?) {
        return;
      }
      groupName := group.data.value;
      if membersData.QueryError? {
        return;
      }
      if membersData.data.Some? && |membersData.data.value| > 0 {
        var userIds := membersData.data.value;
        if profiles.QueryError? {
          return;
        }
        members := MergeProfiles(userIds, profiles.data);
        form := form.(payerId := currentUser, selectedMembers := Dedup(userIds));
      }
    }

    /** `handleMemberToggle(userId)` on a copy of the selection. */
    method HandleMemberToggle(userId: string)
      requires Valid()
      modifies this
      ensures Valid()
      ensures form == old(form).(selectedMembers := Toggle(old(form.selectedMembers), userId))
      ensures loading == old(loading) && members == old(members) && groupName == old(groupName)
    {
      var selected := form.selectedMembers;
      if userId in selected {
        SetDeleteKeepsOrder(selected, userId);
        selected := SetDelete(selected, userId);
      } else {
        selected := SetAdd(selected, userId);
      }
      form := form.(selectedMembers := selected);
    }

    method HandleSelectAll()
      requires Valid()
      modifies this
      ensures Valid()
      ensures form == old(form).(selectedMembers := AllSelected(members))
      ensures loading == old(loading) && members == old(members) && groupName == old(groupName)
    {
      form := form.(selectedMembers := Dedup(MemberIds(members)));
    }

    method HandleSelectNone()
      requires Valid()
      modifies this
      ensures Valid()
      ensures form == old(form).(selectedMembers := [])
      ensures loading == old(loading) && members == old(members) && groupName == old(groupName)
    {
      form := form.(selectedMembers := []);
    }

    /** `handleSubmit`, with the expense insert's outcome (`expenseId`, the id
        of the returned row, or `None` for an error) and the share insert's
        outcome as parameters. `loading` is false again whenever the inserts
        were attempted. */
    method HandleSubmit(signedIn: bool, groupId: Option<string>, expenseId: Option<string>, sharesOk: bool)
      returns (writes: seq<Write>, result: SubmitResult)
      requires Valid()
      modifies this
      ensures Valid()
      ensures writes == SubmitWrites(signedIn, groupId, old(form), expenseId)
      ensures result == SubmitResultOf(signedIn, groupId, old(form), expenseId, sharesOk)
      ensures loading == if Proceeds(signedIn, groupId, old(form)) then false else old(loading)
      ensures form == old(form) && members == old(members) && groupName == old(groupName)
    {
      writes := [];
      if !signedIn || groupId.None? || groupId.value == "" {
        return writes, Ignored;
      }
      if |form.selectedMembers| == 0 {
        return writes, NoMembersSelected;
      }
      loading := true;
      var amount := ParseFloat(form.amount);
      var amountPerPerson := PerPerson(amount, |form.selectedMembers|);
      var expense := NewExpense(groupId.value, form.payerId, Trim(form.description), amount, form.date);
      assert expense == ExpenseRow(groupId.value, form);
      writes := [InsertExpense(expense)];
      if expenseId.None? {
        result := Failed;
      } else {
        var shares := BuildShares(expenseId.value, form.selectedMembers, amountPerPerson);
        writes := [InsertExpense(expense), InsertShares(shares)];
        result := if sharesOk then Added else Failed;
      }
      loading := false;
    }
  }
}
