/** The group page's balances: each member's net position, what the member paid
    minus what the member owes, folded from the group's expense shares and
    expenses into a map keyed by user id; and the profile merge that gives the
    members their names. */
module Balances {

  import opened Wrappers
  import opened Collections
  import opened Ledger

  /** A group member after the profile merge. */
  datatype MemberRow = MemberRow(userId: string, name: string, email: string)

  /** An `expense_shares` row: the expense it belongs to, who owes, and how much. */
  datatype ShareRow = ShareRow(expenseId: string, userId: string, amountOwed: real)

  /** An `expenses` row as the balance query selects it. */
  datatype PaidRow = PaidRow(expenseId: string, payerId: string, amount: real)

  /** A value of the balance map. */
  datatype Account = Account(name: string, balance: real)

  /** An element of the balances array. */
  datatype Balance = Balance(userId: string, name: string, balance: real)

  function ShareUser(s: ShareRow): string { s.userId }
  function Owed(s: ShareRow): real { s.amountOwed }
  function ShareExpense(s: ShareRow): string { s.expenseId }
  function Payer(e: PaidRow): string { e.payerId }
  function Paid(e: PaidRow): real { e.amount }
  function ExpenseId(e: PaidRow): string { e.expenseId }
  function BalanceAmount(b: Balance): real { b.balance }

  /** The member ids in list order, duplicates included. */
  function MemberIds(members: seq<MemberRow>): (r: seq<string>)
    ensures |r| == |members|
    ensures forall i :: 0 <= i < |members| ==> r[i] == members[i].userId
    decreases |members|
  {
    if |members| == 0 then [] else MemberIds(members[..|members| - 1]) + [members[|members| - 1].userId]
  }

  /** The name the balance map ends up with for `id`: `set` overwrites, so the
      last member row with that id wins. */
  function NameFor(members: seq<MemberRow>, id: string): string
    decreases |members|
  {
    if |members| == 0 then ""
    else if members[|members| - 1].userId == id then members[|members| - 1].name
    else NameFor(members[..|members| - 1], id)
  }

  lemma NameForSnoc(members: seq<MemberRow>, m: MemberRow, id: string)
    ensures NameFor(members + [m], id) == if m.userId == id then m.name else NameFor(members, id)
  {
    assert (members + [m])[..|members|] == members;
  }

  /** What `id` paid minus what `id` owes. */
  function NetBalance(shares: seq<ShareRow>, paid: seq<PaidRow>, id: string): real {
    SumFor(paid, Payer, Paid, id) - SumFor(shares, ShareUser, Owed, id)
  }

  /** The balances array as a function of its inputs: one entry per distinct
      member id, in order of first occurrence. */
  function BalancesOf(members: seq<MemberRow>, shares: seq<ShareRow>, paid: seq<PaidRow>): (r: seq<Balance>)
    ensures var ids := Dedup(MemberIds(members));
            && |r| == |ids|
            && (forall i :: 0 <= i < |r| ==> r[i].userId == ids[i])
  {
    var ids := Dedup(MemberIds(members));
    seq(|ids|, i requires 0 <= i < |ids| => Balance(ids[i], NameFor(members, ids[i]), NetBalance(shares, paid, ids[i])))
  }

  // ---------------------------------------------------------------------
  // `calculateBalances`.

  /** The balance map after setting a zero account for each of `members`:
      its keys in first-insertion order, each with the last name set for it. */
  ghost predicate Initialised(members: seq<MemberRow>, order: seq<string>, accounts: map<string, Account>) {
    && order == Dedup(MemberIds(members))
    && (forall u :: u in accounts <==> u in MemberIds(members))
    && (forall u :: u in accounts ==> accounts[u] == Account(NameFor(members, u), 0.0))
  }

  lemma InitialisedSnoc(members: seq<MemberRow>, m: MemberRow, after: seq<MemberRow>,
                        order: seq<string>, accounts: map<string, Account>)
    requires after == members + [m]
    requires Initialised(members, order, accounts)
    ensures Initialised(after, if m.userId in accounts then order else order + [m.userId],
                        accounts[m.userId := Account(m.name, 0.0)])
  {
    var order' := if m.userId in accounts then order else order + [m.userId];
    var accounts' := accounts[m.userId := Account(m.name, 0.0)];
    assert order' == Dedup(MemberIds(after)) by {
      OrderAfterSet(members, m, after, order, order');
    }
    assert forall u :: u in accounts' <==> u in MemberIds(after) by {
      KeysAfterSet(members, m, after, accounts, accounts');
    }
    assert forall u :: u in accounts' ==> accounts'[u] == Account(NameFor(after, u), 0.0) by {
      NamesAfterSet(members, m, after, accounts, accounts');
    }
  }

  lemma InitialisedPrefix(members: seq<MemberRow>, i: nat, order: seq<string>, accounts: map<string, Account>)
    requires i < |members| && Initialised(members[..i], order, accounts)
    ensures var m := members[i];
            Initialised(members[..i + 1], if m.userId in accounts then order else order + [m.userId],
                        accounts[m.userId := Account(m.name, 0.0)])
  {
    PrefixSnoc(members, i);
    InitialisedSnoc(members[..i], members[i], members[..i + 1], order, accounts);
  }

  lemma OrderAfterSet(members: seq<MemberRow>, m: MemberRow, after: seq<MemberRow>, order: seq<string>, order': seq<string>)
    requires after == members + [m]
    requires order == Dedup(MemberIds(members))
    requires order' == if m.userId in order then order else order + [m.userId]
    ensures order' == Dedup(MemberIds(after))
  {
    assert after[..|members|] == members;
    assert MemberIds(after) == MemberIds(members) + [m.userId];
    DedupSnoc(MemberIds(members), m.userId);
  }

  lemma KeysAfterSet(members: seq<MemberRow>, m: MemberRow, after: seq<MemberRow>,
                     accounts: map<string, Account>, accounts': map<string, Account>)
    requires after == members + [m]
    requires forall u :: u in accounts <==> u in MemberIds(members)
    requires accounts' == accounts[m.userId := Account(m.name, 0.0)]
    ensures forall u :: u in accounts' <==> u in MemberIds(after)
  {
    assert after[..|members|] == members;
    assert MemberIds(after) == MemberIds(members) + [m.userId];
  }

  lemma NamesAfterSet(members: seq<MemberRow>, m: MemberRow, after: seq<MemberRow>,
                      accounts: map<string, Account>, accounts': map<string, Account>)
    requires after == members + [m]
    requires forall u :: u in accounts ==> accounts[u] == Account(NameFor(members, u), 0.0)
    requires accounts' == accounts[m.userId := Account(m.name, 0.0)]
    ensures forall u :: u in accounts' ==> accounts'[u] == Account(NameFor(after, u), 0.0)
  {
    forall u | u in accounts' {
      NameForSnoc(members, m, u);
    }
  }

  /** `balanceMap.set(member.user_id, { name, balance: 0 })` for each member. */
  method InitAccounts(members: seq<MemberRow>) returns (order: seq<string>, accounts: map<string, Account>)
    ensures order == Dedup(MemberIds(members))
    ensures forall u :: u in accounts <==> u in order
    ensures forall u :: u in accounts ==> accounts[u] == Account(NameFor(members, u), 0.0)
  {
    order, accounts := [], map[];
    var i := 0;
    while i < |members|
      invariant 0 <= i <= |members|
      invariant Initialised(members[..i], order, accounts)
    {
      InitialisedPrefix(members, i, order, accounts);
      if members[i].userId !in accounts {
        order := order + [members[i].userId];
      }
      accounts := accounts[members[i].userId := Account(members[i].name, 0.0)];
      i := i + 1;
    }
    assert members[..i] == members;
    assert forall u :: u in order <==> u in MemberIds(members);
  }

  /** `current.balance -= amount_owed` for each share whose user is a key. */
  method ApplyShares(accounts: map<string, Account>, shares: seq<ShareRow>) returns (after: map<string, Account>)
    ensures forall u :: u in after <==> u in accounts
    ensures forall u :: u in after ==>
              after[u] == Account(accounts[u].name, accounts[u].balance - SumFor(shares, ShareUser, Owed, u))
  {
    after := accounts;
    var j := 0;
    while j < |shares|
      invariant 0 <= j <= |shares|
      invariant forall u :: u in after <==> u in accounts
      invariant forall u :: u in after ==>
                  after[u] == accounts[u].(balance := accounts[u].balance - SumFor(shares[..j], ShareUser, Owed, u))
    {
      ghost var prefix := shares[..j + 1];
      assert prefix[..j] == shares[..j];
      var share := shares[j];
      if share.userId in after {
        var current := after[share.userId];
        after := after[share.userId := current.(balance := current.balance - share.amountOwed)];
      }
      j := j + 1;
    }
    assert shares[..j] == shares;
  }

  /** `current.balance += amount` for each expense whose payer is a key. */
  method ApplyPayments(accounts: map<string, Account>, paid: seq<PaidRow>) returns (after: map<string, Account>)
    ensures forall u :: u in after <==> u in accounts
    ensures forall u :: u in after ==>
              after[u] == Account(accounts[u].name, accounts[u].balance + SumFor(paid, Payer, Paid, u))
  {
    after := accounts;
    var k := 0;
    while k < |paid|
      invariant 0 <= k <= |paid|
      invariant forall u :: u in after <==> u in accounts
      invariant forall u :: u in after ==>
                  after[u] == accounts[u].(balance := accounts[u].balance + SumFor(paid[..k], Payer, Paid, u))
    {
      ghost var prefix := paid[..k + 1];
      assert prefix[..k] == paid[..k];
      var expense := paid[k];
      if expense.payerId in after {
        var current := after[expense.payerId];
        after := after[expense.payerId := current.(balance := current.balance + expense.amount)];
      }
      k := k + 1;
    }
    assert paid[..k] == paid;
  }

  /** `Array.from(balanceMap.entries()).map(...)`. */
  method EntriesInOrder(order: seq<string>, accounts: map<string, Account>) returns (balances: seq<Balance>)
    requires forall u :: u in order ==> u in accounts
    ensures |balances| == |order|
    ensures forall m :: 0 <= m < |order| ==>
              balances[m] == Balance(order[m], accounts[order[m]].name, accounts[order[m]].balance)
  {
    balances := [];
    var n := 0;
    while n < |order|
      invariant 0 <= n <= |order|
      invariant |balances| == n
      invariant forall m :: 0 <= m < n ==>
                  balances[m] == Balance(order[m], accounts[order[m]].name, accounts[order[m]].balance)
    {
      var id := order[n];
      balances := balances + [Balance(id, accounts[id].name, accounts[id].balance)];
      n := n + 1;
    }
  }

  /** `calculateBalances`: three passes over a Map (members, then shares, then
      expenses) and a final pass over its entries in insertion order. A missing
      query result (`data` null) contributes nothing. */
  method CalculateBalances(members: seq<MemberRow>, sharesData: Option<seq<ShareRow>>, paidData: Option<seq<PaidRow>>)
    returns (balances: seq<Balance>)
    ensures balances == BalancesOf(members, sharesData.GetOr([]), paidData.GetOr([]))
  {
    var shares := sharesData.GetOr([]);
    var paid := paidData.GetOr([]);
    var order, accounts := InitAccounts(members);
    accounts := ApplyShares(accounts, shares);
    accounts := ApplyPayments(accounts, paid);
    balances := EntriesInOrder(order, accounts);
    ghost var spec := BalancesOf(members, shares, paid);
    forall m | 0 <= m < |balances| ensures balances[m] == spec[m] {
      assert order[m] in order;
    }
  }

  // ---------------------------------------------------------------------
  // Properties.

  lemma MemberIdsIn(members: seq<MemberRow>, id: string)
    ensures id in MemberIds(members) <==> exists i :: 0 <= i < |members| && members[i].userId == id
  {
    if id in MemberIds(members) {
      var i :| 0 <= i < |members| && MemberIds(members)[i] == id;
    }
  }

  /** Exactly one entry per distinct member id and none for anyone else, each
      carrying the name of the last member row with that id and the member's
      net position. */
  lemma {:induction false} OneEntryPerMember(members: seq<MemberRow>, shares: seq<ShareRow>, paid: seq<PaidRow>)
    ensures var r := BalancesOf(members, shares, paid);
            && (forall i, j :: 0 <= i < j < |r| ==> r[i].userId != r[j].userId)
            && (forall id :: (exists k :: 0 <= k < |r| && r[k].userId == id) <==> id in MemberIds(members))
            && (forall k :: 0 <= k < |r| ==>
                  && r[k].name == NameFor(members, r[k].userId)
                  && r[k].balance == SumFor(paid, Payer, Paid, r[k].userId) - SumFor(shares, ShareUser, Owed, r[k].userId))
  {
    var r := BalancesOf(members, shares, paid);
    var d := Dedup(MemberIds(members));
    forall id | id in MemberIds(members) ensures exists k :: 0 <= k < |r| && r[k].userId == id {
      assert id in d;
      var k :| 0 <= k < |d| && d[k] == id;
      assert r[k].userId == id;
    }
    forall id | (exists k :: 0 <= k < |r| && r[k].userId == id) ensures id in MemberIds(members) {
      var k :| 0 <= k < |r| && r[k].userId == id;
      assert d[k] in d;
    }
  }

  /** A share or an expense of a non-member changes no balance. */
  lemma {:induction false} NonMemberRowsIgnored(members: seq<MemberRow>, shares: seq<ShareRow>, paid: seq<PaidRow>, s: ShareRow, e: PaidRow)
    requires forall i :: 0 <= i < |members| ==> members[i].userId != s.userId && members[i].userId != e.payerId
    ensures BalancesOf(members, shares + [s], paid + [e]) == BalancesOf(members, shares, paid)
  {
    var ids := Dedup(MemberIds(members));
    forall k | 0 <= k < |ids|
      ensures NetBalance(shares + [s], paid + [e], ids[k]) == NetBalance(shares, paid, ids[k])
    {
      MemberIdsIn(members, ids[k]);
      assert (shares + [s])[..|shares|] == shares;
      assert (paid + [e])[..|paid|] == paid;
    }
  }

  /** A member with no shares and no payments stays at 0. */
  lemma NoActivityZero(members: seq<MemberRow>, shares: seq<ShareRow>, paid: seq<PaidRow>, k: nat)
    requires k < |BalancesOf(members, shares, paid)|
    requires forall i :: 0 <= i < |shares| ==> shares[i].userId != BalancesOf(members, shares, paid)[k].userId
    requires forall i :: 0 <= i < |paid| ==> paid[i].payerId != BalancesOf(members, shares, paid)[k].userId
    ensures BalancesOf(members, shares, paid)[k].balance == 0.0
  {
    var id := BalancesOf(members, shares, paid)[k].userId;
    SumForAbsent(shares, ShareUser, Owed, id);
    SumForAbsent(paid, Payer, Paid, id);
  }

  /** The balances do not depend on the order of the shares or the expenses. */
  lemma OrderIndependent(members: seq<MemberRow>, shares: seq<ShareRow>, shares': seq<ShareRow>, paid: seq<PaidRow>, paid': seq<PaidRow>)
    requires multiset(shares) == multiset(shares') && multiset(paid) == multiset(paid')
    ensures BalancesOf(members, shares, paid) == BalancesOf(members, shares', paid')
  {
    var ids := Dedup(MemberIds(members));
    forall k | 0 <= k < |ids|
      ensures NetBalance(shares, paid, ids[k]) == NetBalance(shares', paid', ids[k])
    {
      SumForPermutation(shares, shares', ShareUser, Owed, ids[k]);
      SumForPermutation(paid, paid', Payer, Paid, ids[k]);
    }
  }

  /** Summing the balances array is summing the net positions of the distinct ids. */
  lemma {:induction false} TotalOfBalances(members: seq<MemberRow>, shares: seq<ShareRow>, paid: seq<PaidRow>, ids: seq<string>)
    ensures Total(seq(|ids|, i requires 0 <= i < |ids| => Balance(ids[i], NameFor(members, ids[i]), NetBalance(shares, paid, ids[i]))), BalanceAmount)
            == SumOverKeys(paid, Payer, Paid, ids) - SumOverKeys(shares, ShareUser, Owed, ids)
    decreases |ids|
  {
    if |ids| > 0 {
      var init := ids[..|ids| - 1];
      TotalOfBalances(members, shares, paid, init);
      var r := seq(|ids|, i requires 0 <= i < |ids| => Balance(ids[i], NameFor(members, ids[i]), NetBalance(shares, paid, ids[i])));
      assert r[..|r| - 1] == seq(|init|, i requires 0 <= i < |init| => Balance(init[i], NameFor(members, init[i]), NetBalance(shares, paid, init[i])));
    }
  }

  /** Conservation: when every share owner and every payer is a member and the
      shares add up to the expenses, the balances add up to zero. */
  lemma Conservation(members: seq<MemberRow>, shares: seq<ShareRow>, paid: seq<PaidRow>)
    requires forall i :: 0 <= i < |shares| ==> shares[i].userId in MemberIds(members)
    requires forall i :: 0 <= i < |paid| ==> paid[i].payerId in MemberIds(members)
    requires Total(shares, Owed) == Total(paid, Paid)
    ensures Total(BalancesOf(members, shares, paid), BalanceAmount) == 0.0
  {
    var ids := Dedup(MemberIds(members));
    TotalOfBalances(members, shares, paid, ids);
    PartitionTotal(shares, ShareUser, Owed, ids);
    PartitionTotal(paid, Payer, Paid, ids);
  }

  /** The shares add up to the expenses when each expense's shares add up to its
      amount and every share belongs to one of the (distinct) expenses. */
  lemma {:induction false} SharesCoverExpenses(shares: seq<ShareRow>, paid: seq<PaidRow>)
    requires Distinct(MapExpenseIds(paid))
    requires forall i :: 0 <= i < |shares| ==> shares[i].expenseId in MapExpenseIds(paid)
    requires forall k :: 0 <= k < |paid| ==> SumFor(shares, ShareExpense, Owed, paid[k].expenseId) == paid[k].amount
    ensures Total(shares, Owed) == Total(paid, Paid)
  {
    PartitionTotal(shares, ShareExpense, Owed, MapExpenseIds(paid));
    SumOverExpenses(shares, paid);
  }

  function MapExpenseIds(paid: seq<PaidRow>): (r: seq<string>)
    ensures |r| == |paid|
    ensures forall k :: 0 <= k < |paid| ==> r[k] == paid[k].expenseId
    decreases |paid|
  {
    if |paid| == 0 then [] else MapExpenseIds(paid[..|paid| - 1]) + [paid[|paid| - 1].expenseId]
  }

  lemma {:induction false} SumOverExpenses(shares: seq<ShareRow>, paid: seq<PaidRow>)
    requires forall k :: 0 <= k < |paid| ==> SumFor(shares, ShareExpense, Owed, paid[k].expenseId) == paid[k].amount
    ensures SumOverKeys(shares, ShareExpense, Owed, MapExpenseIds(paid)) == Total(paid, Paid)
    decreases |paid|
  {
    if |paid| > 0 {
      var init := paid[..|paid| - 1];
      SumOverExpenses(shares, init);
      assert MapExpenseIds(paid)[..|paid| - 1] == MapExpenseIds(init);
    }
  }

  // ---------------------------------------------------------------------
  // Display and the profile merge in `fetchGroupData`.

  /** The balance badge: the default style and a '+' prefix exactly when the
      balance is not negative, the destructive style otherwise. */
  datatype Badge = Badge(destructive: bool, plusPrefix: bool)

  function BalanceBadge(balance: real): (b: Badge)
    ensures b.destructive <==> balance < 0.0
    ensures b.plusPrefix <==> !b.destructive
  {
    Badge(!(balance >= 0.0), balance >= 0.0)
  }

  datatype Profile = Profile(userId: string, name: string, email: string)

  function ProfileUser(p: Profile): string { p.userId }

  /** `name || 'Usuario'`, `email || ''` from the first profile with the member's
      id, if the profile query returned one. */
  function WithProfile(userId: string, profiles: Option<seq<Profile>>): (m: MemberRow)
    ensures m.userId == userId
    ensures m.name != ""
    ensures (profiles.None? || FindKey(profiles.value, ProfileUser, userId).None?) ==> m.name == "Usuario" && m.email == ""
    ensures profiles.Some? && FindKey(profiles.value, ProfileUser, userId).Some? ==>
              var p := FindKey(profiles.value, ProfileUser, userId).value;
              && p.userId == userId
              && m.name == (if p.name != "" then p.name else "Usuario")
              && m.email == p.email
  {
    var found := if profiles.Some? then FindKey(profiles.value, ProfileUser, userId) else None;
    match found
    case None => MemberRow(userId, "Usuario", "")
    case Some(p) => MemberRow(userId, if p.name != "" then p.name else "Usuario", p.email)
  }

  /** `membersData.map(...)`: one merged row per fetched member row, in order. */
  function MergeProfiles(userIds: seq<string>, profiles: Option<seq<Profile>>): (r: seq<MemberRow>)
    ensures |r| == |userIds|
    ensures forall i :: 0 <= i < |userIds| ==> r[i] == WithProfile(userIds[i], profiles)
    ensures MemberIds(r) == userIds
  {
    var r := seq(|userIds|, i requires 0 <= i < |userIds| => WithProfile(userIds[i], profiles));
    assert MemberIds(r) == userIds;
    r
  }

  /** The payer name shown with an expense: the first payer profile's name, or 'Usuario'. */
  function PayerName(payerProfiles: Option<seq<Profile>>, payerId: string): (name: string)
    ensures name != ""
  {
    WithProfile(payerId, payerProfiles).name
  }
}
