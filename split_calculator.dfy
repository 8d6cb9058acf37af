/** The expense split calculator hook: a split type, a per-member override map,
    the calculation derived from them (one share per member plus validation
    against a 0.01 tolerance), and the three state updates. */
module SplitCalculator {

  import opened Wrappers
  import opened Ledger

  datatype SplitType = Equal | Percentage | Custom

  /** A member's stored override `{ percentage?, amount? }`; `None` is an absent field. */
  datatype Override = Override(percentage: Option<real>, amount: Option<real>)

  const NoOverride := Override(None, None)

  datatype Member = Member(userId: string, name: string)

  datatype MemberSplit = MemberSplit(
    userId: string,
    name: string,
    shareType: SplitType,
    customPercentage: Option<real>,
    customAmount: Option<real>,
    calculatedAmount: real)

  /** The two validation messages, by the numbers they report. */
  datatype SplitError =
    | PercentageTotal(actual: real)
    | AmountTotal(expected: real, actual: real)

  datatype SplitCalculation = SplitCalculation(
    members: seq<MemberSplit>,
    totalAmount: real,
    isValid: bool,
    errors: seq<SplitError>)

  /** The tolerance of both validations. */
  const Tolerance: real := 0.01

  function Abs(x: real): real {
    if x < 0.0 then -x else x
  }

  /** `memberSplits[userId] || {}`. */
  function OverrideOf(splits: map<string, Override>, userId: string): Override {
    if userId in splits then splits[userId] else NoOverride
  }

  function UserIds(members: seq<Member>): set<string> {
    set m | m in members :: m.userId
  }

  /** A member's share of `total` among `n` members under the split type. */
  function ShareAmount(t: SplitType, o: Override, total: real, n: nat): real
    requires n > 0
  {
    match t
    case Equal => total / n as real
    case Percentage => total * OrZero(o.percentage) / 100.0
    case Custom => OrZero(o.amount)
  }

  function Entry(t: SplitType, splits: map<string, Override>, total: real, n: nat, m: Member): MemberSplit
    requires n > 0
  {
    var o := OverrideOf(splits, m.userId);
    MemberSplit(m.userId, m.name, t, o.percentage, o.amount, ShareAmount(t, o, total, n))
  }

  /** The entries pushed by the `forEach` over the members. */
  function Entries(t: SplitType, splits: map<string, Override>, total: real, members: seq<Member>): seq<MemberSplit> {
    seq(|members|, i requires 0 <= i < |members| => Entry(t, splits, total, |members|, members[i]))
  }

  function StoredPercentage(e: MemberSplit): real { OrZero(e.customPercentage) }

  function Calculated(e: MemberSplit): real { e.calculatedAmount }

  /** The validation run after the loop: only the branch of the split type can report. */
  function ErrorsOf(t: SplitType, entries: seq<MemberSplit>, total: real): seq<SplitError> {
    match t
    case Equal => []
    case Percentage =>
      var p := Total(entries, StoredPercentage);
      if Abs(p - 100.0) > Tolerance then [PercentageTotal(p)] else []
    case Custom =>
      var c := Total(entries, Calculated);
      if Abs(c - total) > Tolerance then [AmountTotal(total, c)] else []
  }

  /** The `calculation` memo as a function of the hook state and its arguments:
      one entry per member, in member order, copying the member and echoing its
      stored override under the current split type; at most one error, and valid
      exactly when there is none; an equal split is always valid, with every
      share `total / n`. */
  function CalculationOf(t: SplitType, splits: map<string, Override>, total: real, members: seq<Member>): (r: SplitCalculation)
    ensures |r.members| == |members| && r.totalAmount == total
    ensures forall i :: 0 <= i < |members| ==>
              && r.members[i].userId == members[i].userId
              && r.members[i].name == members[i].name
              && r.members[i].shareType == t
              && r.members[i].customPercentage == OverrideOf(splits, members[i].userId).percentage
              && r.members[i].customAmount == OverrideOf(splits, members[i].userId).amount
    ensures |r.errors| <= 1 && (r.isValid <==> r.errors == [])
    ensures t == Equal ==>
              && r.isValid
              && forall i :: 0 <= i < |members| ==> r.members[i].calculatedAmount == total / |members| as real
  {
    var entries := Entries(t, splits, total, members);
    var errors := ErrorsOf(t, entries, total);
    SplitCalculation(entries, total, |errors| == 0, errors)
  }

  // ---------------------------------------------------------------------
  // The state updates, on values.

  /** `{ ...prev, ...updates }`: the fields `updates` supplies win. */
  function Merge(prev: Override, updates: Override): Override {
    Override(
      if updates.percentage.Some? then updates.percentage else prev.percentage,
      if updates.amount.Some? then updates.amount else prev.amount)
  }

  /** `updateMemberSplit(userId, updates)` on the override map: the fields
      `updates` supplies overwrite that member's, its other fields are kept, and
      every other member's entry is unchanged. */
  function Updated(splits: map<string, Override>, userId: string, updates: Override): (r: map<string, Override>)
    ensures userId in r
    ensures updates.percentage.Some? ==> r[userId].percentage == updates.percentage
    ensures updates.percentage.None? ==> r[userId].percentage == OverrideOf(splits, userId).percentage
    ensures updates.amount.Some? ==> r[userId].amount == updates.amount
    ensures updates.amount.None? ==> r[userId].amount == OverrideOf(splits, userId).amount
    ensures forall v :: v != userId ==> OverrideOf(r, v) == OverrideOf(splits, v)
  {
    splits[userId := Merge(OverrideOf(splits, userId), updates)]
  }

  /** The override every member gets from `distributeEqually` under `t`. */
  function EqualOverride(t: SplitType, total: real, n: nat): Override
    requires n > 0
  {
    if t == Percentage then Override(Some(100.0 / n as real), None)
    else Override(None, Some(total / n as real))
  }

  /** `distributeEqually`: under percentage or custom a fresh map with the
      equal override for each member id; under equal the map is kept. */
  function Distributed(t: SplitType, splits: map<string, Override>, total: real, members: seq<Member>): map<string, Override> {
    if t == Equal then splits
    else if |members| == 0 then map[]
    else map u | u in UserIds(members) :: EqualOverride(t, total, |members|)
  }

  // ---------------------------------------------------------------------
  // Properties of the calculation.

  /** Entries of stored overrides outside the member ids play no part. */
  lemma CalculationIgnoresOtherIds(t: SplitType, s1: map<string, Override>, s2: map<string, Override>, total: real, members: seq<Member>)
    requires forall i :: 0 <= i < |members| ==> OverrideOf(s1, members[i].userId) == OverrideOf(s2, members[i].userId)
    ensures CalculationOf(t, s1, total, members) == CalculationOf(t, s2, total, members)
  {
    assert Entries(t, s1, total, members) == Entries(t, s2, total, members);
  }

  /** The sum of the stored percentages, a missing one counted as 0. */
  function PercentageSum(splits: map<string, Override>, members: seq<Member>): real {
    Total(members, (m: Member) => OrZero(OverrideOf(splits, m.userId).percentage))
  }

  /** The sum of the stored amounts, a missing one counted as 0. */
  function AmountSum(splits: map<string, Override>, members: seq<Member>): real {
    Total(members, (m: Member) => OrZero(OverrideOf(splits, m.userId).amount))
  }

  /** Under `percentage` a share is `total * p / 100`, and the one error is
      reported exactly when the percentages miss 100 by more than the tolerance. */
  lemma {:induction false} PercentageSplit(splits: map<string, Override>, total: real, members: seq<Member>)
    ensures var c := CalculationOf(Percentage, splits, total, members);
            && (forall i :: 0 <= i < |c.members| ==>
                  c.members[i].calculatedAmount == total * OrZero(OverrideOf(splits, members[i].userId).percentage) / 100.0)
            && (c.errors != [] <==> Abs(PercentageSum(splits, members) - 100.0) > Tolerance)
            && (c.errors != [] ==> c.errors == [PercentageTotal(PercentageSum(splits, members))])
  {
    var entries := Entries(Percentage, splits, total, members);
    TotalMap(members, entries, (m: Member) => OrZero(OverrideOf(splits, m.userId).percentage), StoredPercentage);
  }

  /** Under `custom` a share is the stored amount, and the one error is reported
      exactly when the shares miss the total by more than the tolerance. */
  lemma {:induction false} CustomSplit(splits: map<string, Override>, total: real, members: seq<Member>)
    ensures var c := CalculationOf(Custom, splits, total, members);
            && (forall i :: 0 <= i < |c.members| ==>
                  c.members[i].calculatedAmount == OrZero(OverrideOf(splits, members[i].userId).amount))
            && (c.errors != [] <==> Abs(AmountSum(splits, members) - total) > Tolerance)
            && (c.errors != [] ==> c.errors == [AmountTotal(total, AmountSum(splits, members))])
  {
    var entries := Entries(Custom, splits, total, members);
    TotalMap(members, entries, (m: Member) => OrZero(OverrideOf(splits, m.userId).amount), Calculated);
  }

  // ---------------------------------------------------------------------
  // Properties of the updates.

  /** After storing a percentage for one member, that member's share follows it
      and every other member's entry is as before. */
  lemma {:induction false} UpdatePercentageEffect(splits: map<string, Override>, userId: string, p: real, total: real, members: seq<Member>)
    ensures var before := CalculationOf(Percentage, splits, total, members);
            var after := CalculationOf(Percentage, Updated(splits, userId, Override(Some(p), None)), total, members);
            && |after.members| == |before.members|
            && (forall i :: 0 <= i < |members| && members[i].userId == userId ==>
                  after.members[i].calculatedAmount == total * p / 100.0)
            && (forall i :: 0 <= i < |members| && members[i].userId != userId ==>
                  after.members[i] == before.members[i])
  {
  }

  /** Distributing equally among at least one member gives a valid split under
      every split type: the percentages add up to 100 and the amounts to the total. */
  lemma {:induction false} DistributedIsValid(t: SplitType, splits: map<string, Override>, total: real, members: seq<Member>)
    requires |members| >= 1
    ensures CalculationOf(t, Distributed(t, splits, total, members), total, members).isValid
  {
    if t == Percentage {
      var es := Entries(t, Distributed(t, splits, total, members), total, members);
      assert Total(es, StoredPercentage) == 100.0 by {
        DistributedShares(t, splits, total, members);
      }
    } else if t == Custom {
      var es := Entries(t, Distributed(t, splits, total, members), total, members);
      assert Total(es, Calculated) == total by {
        DistributedShares(t, splits, total, members);
      }
    }
  }

  /** After `distributeEqually` the stored percentages add up to 100 and the
      stored amounts to the total. */
  lemma DistributedShares(t: SplitType, splits: map<string, Override>, total: real, members: seq<Member>)
    requires |members| >= 1 && t != Equal
    ensures t == Percentage ==> Total(Entries(t, Distributed(t, splits, total, members), total, members), StoredPercentage) == 100.0
    ensures t == Custom ==> Total(Entries(t, Distributed(t, splits, total, members), total, members), Calculated) == total
  {
    var n := |members| as real;
    var es := Entries(t, Distributed(t, splits, total, members), total, members);
    var f := if t == Percentage then StoredPercentage else Calculated;
    var x := if t == Percentage then 100.0 else total;
    forall i | 0 <= i < |es| ensures f(es[i]) == x / n {
      assert members[i] in members;
    }
    TotalConst(es, f, x / n);
    MulDiv(n, x);
  }

  lemma MulDiv(n: real, x: real)
    requires n != 0.0
    ensures n * (x / n) == x
  {
  }

  // ---------------------------------------------------------------------
  // The hook.

  class SplitCalculatorHook {
    var splitType: SplitType
    var memberSplits: map<string, Override>

    /** `useState('equal')` and `useState({})`. */
    constructor ()
      ensures splitType == Equal && memberSplits == map[]
    {
      splitType := Equal;
      memberSplits := map[];
    }

    method SetSplitType(t: SplitType)
      modifies this
      ensures splitType == t && memberSplits == old(memberSplits)
    {
      splitType := t;
    }

    /** The `calculation` memo: one pass over the members accumulating the
        entries and their running total, then the validation. */
    method Calculation(totalAmount: real, members: seq<Member>) returns (r: SplitCalculation)
      ensures r == CalculationOf(splitType, memberSplits, totalAmount, members)
    {
      var result, totalCalculated := AccumulateEntries(totalAmount, members);
      var errors: seq<SplitError> := [];
      if splitType == Percentage {
        var totalPercentage := Total(result, StoredPercentage);
        if Abs(totalPercentage - 100.0) > Tolerance {
          errors := errors + [PercentageTotal(totalPercentage)];
        }
      }
      if splitType == Custom {
        if Abs(totalCalculated - totalAmount) > Tolerance {
          errors := errors + [AmountTotal(totalAmount, totalCalculated)];
        }
      }
      r := SplitCalculation(result, totalAmount, |errors| == 0, errors);
    }

    /** The `forEach` of the memo: each member's entry, and the running total
        of the calculated amounts. */
    method AccumulateEntries(totalAmount: real, members: seq<Member>) returns (result: seq<MemberSplit>, totalCalculated: real)
      ensures result == Entries(splitType, memberSplits, totalAmount, members)
      ensures totalCalculated == Total(result, Calculated)
    {
      result, totalCalculated := [], 0.0;
      var i := 0;
      while i < |members|
        invariant 0 <= i <= |members|
        invariant |result| == i
        invariant forall j :: 0 <= j < i ==> result[j] == Entry(splitType, memberSplits, totalAmount, |members|, members[j])
        invariant totalCalculated == Total(result, Calculated)
      {
        var member := members[i];
        var memberSplit := if member.userId in memberSplits then memberSplits[member.userId] else NoOverride;
        var calculatedAmount := ShareOf(memberSplit, totalAmount, |members|);
        var entry := MemberSplit(member.userId, member.name, splitType,
                                 memberSplit.percentage, memberSplit.amount, calculatedAmount);
        TotalSnoc(result, entry, Calculated);
        result := result + [entry];
        totalCalculated := totalCalculated + calculatedAmount;
        i := i + 1;
      }
    }

    /** The `switch` on the split type for one member. */
    method ShareOf(memberSplit: Override, totalAmount: real, n: nat) returns (calculatedAmount: real)
      requires n > 0
      ensures calculatedAmount == ShareAmount(splitType, memberSplit, totalAmount, n)
    {
      match splitType {
        case Equal => calculatedAmount := totalAmount / n as real;
        case Percentage => calculatedAmount := totalAmount * OrZero(memberSplit.percentage) / 100.0;
        case Custom => calculatedAmount := OrZero(memberSplit.amount);
      }
    }

    method UpdateMemberSplit(userId: string, updates: Override)
      modifies this
      ensures splitType == old(splitType)
      ensures memberSplits == Updated(old(memberSplits), userId, updates)
    {
      var prev := if userId in memberSplits then memberSplits[userId] else NoOverride;
      memberSplits := memberSplits[userId := Merge(prev, updates)];
    }

    /** Back to an equal split with no overrides, whatever the state was
        (so a second call changes nothing). */
    method ResetToEqual()
      modifies this
      ensures splitType == Equal && memberSplits == map[]
    {
      splitType := Equal;
      memberSplits := map[];
    }

    /** Fills a new map by assignment, one member at a time, and installs it. */
    method DistributeEqually(totalAmount: real, members: seq<Member>)
      modifies this
      ensures splitType == old(splitType)
      ensures memberSplits == Distributed(old(splitType), old(memberSplits), totalAmount, members)
    {
      if splitType == Percentage || splitType == Custom {
        var newSplits: map<string, Override> := map[];
        var i := 0;
        while i < |members|
          invariant 0 <= i <= |members|
          invariant forall u :: u in newSplits <==> u in UserIds(members[..i])
          invariant forall u :: u in newSplits ==> newSplits[u] == EqualOverride(splitType, totalAmount, |members|)
        {
          assert members[..i + 1] == members[..i] + [members[i]];
          newSplits := newSplits[members[i].userId := EqualOverride(splitType, totalAmount, |members|)];
          i := i + 1;
        }
        assert members[..i] == members;
        memberSplits := newSplits;
      }
    }
  }
}
