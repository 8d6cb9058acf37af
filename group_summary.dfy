/** The home page's group cards: for each group the user belongs to, the
    member count, the total of the group's expenses and the user's own
    balance, each computed from the rows its query returns. */
module GroupSummary {

  import opened Wrappers
  import opened Ledger
  import opened Balances

  /** `rows?.reduce((sum, r) => sum + amount(r), 0) || 0`: a missing result sums to 0. */
  function SumOrZero<T>(rows: Option<seq<T>>, amount: T -> real): (r: real)
    ensures rows.None? ==> r == 0.0
    ensures rows.Some? ==> r == Total(rows.value, amount)
  {
    match rows
    case None => 0.0
    case Some(rs) => Total(rs, amount)
  }

  /** `memberCount || 0`: the exact count, or 0 when the count is null. */
  function MemberCount(count: Option<nat>): (n: nat)
    ensures count.Some? ==> n == count.value
    ensures count.None? ==> n == 0
  {
    count.GetOr(0)
  }

  /** What the user paid minus the user's shares, from the user's own rows. */
  function UserBalance(userShares: Option<seq<ShareRow>>, userPaid: Option<seq<PaidRow>>): real {
    SumOrZero(userPaid, Paid) - SumOrZero(userShares, Owed)
  }

  /** The results of the four per-group queries. */
  datatype GroupQueries = GroupQueries(
    memberCount: Option<nat>,
    expenses: Option<seq<PaidRow>>,
    userShares: Option<seq<ShareRow>>,
    userPaid: Option<seq<PaidRow>>)

  datatype GroupRow = GroupRow(id: string, name: string, createdAt: string)

  datatype GroupCard = GroupCard(
    id: string,
    name: string,
    createdAt: string,
    memberCount: nat,
    totalExpenses: real,
    userBalance: real)

  /** One card: the group's own fields, the member count or 0, the sum of the
      group's expenses or 0, and what the user paid minus what the user owes. */
  function CardOf(g: GroupRow, q: GroupQueries): (c: GroupCard)
    ensures c.id == g.id && c.name == g.name && c.createdAt == g.createdAt
    ensures q.memberCount.Some? ==> c.memberCount == q.memberCount.value
    ensures q.memberCount.None? ==> c.memberCount == 0
    ensures c.totalExpenses == (if q.expenses.Some? then Total(q.expenses.value, Paid) else 0.0)
    ensures c.userBalance == (if q.userPaid.Some? then Total(q.userPaid.value, Paid) else 0.0)
                             - (if q.userShares.Some? then Total(q.userShares.value, Owed) else 0.0)
  {
    GroupCard(g.id, g.name, g.createdAt, MemberCount(q.memberCount),
              SumOrZero(q.expenses, Paid), UserBalance(q.userShares, q.userPaid))
  }

  /** `(groupMemberships || []).map(...)`: one card per membership, in order,
      with the results of that group's queries. */
  function GroupsWithData(memberships: Option<seq<GroupRow>>, fetch: string -> GroupQueries): (r: seq<GroupCard>)
    ensures memberships.None? ==> r == []
    ensures |r| == |memberships.GetOr([])|
    ensures forall i :: 0 <= i < |r| ==>
              var g := memberships.GetOr([])[i];
              r[i] == CardOf(g, fetch(g.id))
  {
    var gs := memberships.GetOr([]);
    var r := seq(|gs|, i requires 0 <= i < |gs| => CardOf(gs[i], fetch(gs[i].id)));
    assert forall i :: 0 <= i < |r| ==> r[i] == CardOf(gs[i], fetch(gs[i].id));
    r
  }

  /** With no expense rows, or no result at all, the total is 0. */
  lemma NoExpensesZero(q: GroupQueries)
    requires q.expenses.None? || q.expenses == Some([])
    ensures SumOrZero(q.expenses, Paid) == 0.0
  {
  }

  /** When the user's rows are exactly the group's rows of that user, the card's
      balance is the user's net position in the group, and agrees with the
      user's entry in the group page's balances. */
  lemma {:induction false} AgreesWithGroupBalances(members: seq<MemberRow>, shares: seq<ShareRow>, paid: seq<PaidRow>, user: string)
    ensures UserBalance(Some(Where(shares, ShareUser, user)), Some(Where(paid, Payer, user))) == NetBalance(shares, paid, user)
    ensures forall k :: 0 <= k < |BalancesOf(members, shares, paid)| && BalancesOf(members, shares, paid)[k].userId == user ==>
              BalancesOf(members, shares, paid)[k].balance
              == UserBalance(Some(Where(shares, ShareUser, user)), Some(Where(paid, Payer, user)))
  {
    TotalOfWhere(shares, ShareUser, Owed, user);
    TotalOfWhere(paid, Payer, Paid, user);
  }

  /** The card label: "miembro" for exactly one member, "miembros" otherwise. */
  function MemberLabel(count: nat): (s: string)
    ensures s == "miembro" || s == "miembros"
    ensures s == "miembro" <==> count == 1
  {
    if count != 1 then "miembros" else "miembro"
  }
}
