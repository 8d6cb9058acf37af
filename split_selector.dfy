/** The split selector component around the calculator hook: the payload it
    hands to its parent, the type tabs, the two number inputs, and the summary
    with the total assigned, the error alert and the "valid" badge. */
module SplitSelector {

  import opened Wrappers
  import opened Ledger
  import opened JsNumber
  import opened SplitCalculator

  /** One item of the list passed to `onSplitChange`. */
  datatype SplitPayload = SplitPayload(
    userId: string,
    shareType: SplitType,
    customPercentage: Option<real>,
    customAmount: Option<real>,
    calculatedAmount: real)

  function PayloadItem(m: MemberSplit): SplitPayload {
    SplitPayload(m.userId, m.shareType, m.customPercentage, m.customAmount, m.calculatedAmount)
  }

  function Payload(c: SplitCalculation): seq<SplitPayload> {
    seq(|c.members|, i requires 0 <= i < |c.members| => PayloadItem(c.members[i]))
  }

  function PayloadAmount(p: SplitPayload): real { p.calculatedAmount }

  /** "Total asignado": the sum of the calculated amounts. */
  function TotalAssigned(c: SplitCalculation): real {
    Total(c.members, Calculated)
  }

  /** The payload lists the members in order, each with the current split type,
      its stored override and its share, and its shares add up to the total
      assigned. */
  lemma {:induction false} PayloadOfCalculation(t: SplitType, splits: map<string, Override>, total: real, members: seq<Member>)
    ensures var c := CalculationOf(t, splits, total, members);
            var p := Payload(c);
            && |p| == |members|
            && (forall i :: 0 <= i < |p| ==>
                  && p[i].userId == members[i].userId
                  && p[i].shareType == t
                  && p[i].customPercentage == OverrideOf(splits, members[i].userId).percentage
                  && p[i].customAmount == OverrideOf(splits, members[i].userId).amount
                  && p[i].calculatedAmount == c.members[i].calculatedAmount)
            && Total(p, PayloadAmount) == TotalAssigned(c)
  {
    var c := CalculationOf(t, splits, total, members);
    TotalMap(c.members, Payload(c), Calculated, PayloadAmount);
  }

  /** An equal split among at least one member assigns exactly the total. */
  lemma {:induction false} EqualAssignsTotal(splits: map<string, Override>, total: real, members: seq<Member>)
    requires |members| >= 1
    ensures TotalAssigned(CalculationOf(Equal, splits, total, members)) == total
  {
    var c := CalculationOf(Equal, splits, total, members);
    TotalConst(c.members, Calculated, total / |members| as real);
  }

  /** A percentage split assigns the total scaled by the sum of the percentages. */
  lemma {:induction false} PercentageAssigned(splits: map<string, Override>, total: real, members: seq<Member>)
    ensures var c := CalculationOf(Percentage, splits, total, members);
            TotalAssigned(c) == total * PercentageSum(splits, members) / 100.0
  {
    var c := CalculationOf(Percentage, splits, total, members);
    var es := c.members;
    assert forall i :: 0 <= i < |es| ==> Calculated(es[i]) == total * StoredPercentage(es[i]) / 100.0 by {
      PercentageSplit(splits, total, members);
    }
    assert Total(es, StoredPercentage) == PercentageSum(splits, members) by {
      TotalMap(members, es, (m: Member) => OrZero(OverrideOf(splits, m.userId).percentage), StoredPercentage);
    }
    PercentShares(es, total);
  }

  /** Shares of `total` by percentage add up to `total` times the summed
      percentages over 100. */
  lemma {:induction false} PercentShares(es: seq<MemberSplit>, total: real)
    requires forall i :: 0 <= i < |es| ==> Calculated(es[i]) == total * StoredPercentage(es[i]) / 100.0
    ensures Total(es, Calculated) == total * Total(es, StoredPercentage) / 100.0
    decreases |es|
  {
    if |es| > 0 {
      var init := es[..|es| - 1];
      PercentShares(init, total);
      ScaleSum(total, Total(init, StoredPercentage), StoredPercentage(es[|es| - 1]));
    }
  }

  lemma ScaleSum(total: real, a: real, p: real)
    ensures total * (a + p) / 100.0 == total * a / 100.0 + total * p / 100.0
  {
  }

  /** A valid percentage split assigns the total up to 0.01% of it. */
  lemma ValidPercentageAssigned(splits: map<string, Override>, total: real, members: seq<Member>)
    requires CalculationOf(Percentage, splits, total, members).isValid
    ensures Abs(TotalAssigned(CalculationOf(Percentage, splits, total, members)) - total) <= Abs(total) * Tolerance / 100.0
  {
    var c := CalculationOf(Percentage, splits, total, members);
    var p := PercentageSum(splits, members);
    var deviation := TotalAssigned(c) - total;
    assert deviation == total * (p - 100.0) / 100.0 by {
      PercentageAssigned(splits, total, members);
      ShiftedScale(total, p);
    }
    assert Abs(p - 100.0) <= Tolerance by {
      PercentageSplit(splits, total, members);
    }
    ScaledDeviation(total, p - 100.0, Tolerance, deviation);
  }

  lemma ShiftedScale(total: real, p: real)
    ensures total * p / 100.0 - total == total * (p - 100.0) / 100.0
  {
  }

  lemma ScaledDeviation(x: real, d: real, bound: real, y: real)
    requires Abs(d) <= bound && y == x * d / 100.0
    ensures Abs(y) <= Abs(x) * bound / 100.0
  {
    assert Abs(x * d) == Abs(x) * Abs(d);
    assert Abs(x) * Abs(d) <= Abs(x) * bound;
  }

  /** A valid custom split assigns the total up to the tolerance. */
  lemma CustomAssigned(splits: map<string, Override>, total: real, members: seq<Member>)
    requires CalculationOf(Custom, splits, total, members).isValid
    ensures Abs(TotalAssigned(CalculationOf(Custom, splits, total, members)) - total) <= Tolerance
  {
  }

  // ---------------------------------------------------------------------
  // The summary panel.

  /** What the panel shows: the alert with the errors (if any) and the badge. */
  datatype Summary = Summary(alert: Option<seq<SplitError>>, totalAssigned: real, totalAmount: real, validBadge: bool)

  function SummaryOf(c: SplitCalculation): Summary {
    Summary(if !c.isValid then Some(c.errors) else None, TotalAssigned(c), c.totalAmount, c.isValid)
  }

  /** The badge is shown exactly when the split has no error, and the alert
      exactly when it has one, which the alert then lists. */
  lemma AlertOrBadge(t: SplitType, splits: map<string, Override>, total: real, members: seq<Member>)
    ensures var c := CalculationOf(t, splits, total, members);
            var s := SummaryOf(c);
            && (s.validBadge <==> c.errors == [])
            && (s.alert.Some? <==> |c.errors| == 1)
            && (s.alert.Some? ==> s.alert.value == c.errors)
  {
  }

  // ---------------------------------------------------------------------
  // The handlers.

  /** `handleSplitTypeChange`: the type changes; switching to equal also clears
      the overrides, switching to the other two keeps them. */
  method HandleSplitTypeChange(hook: SplitCalculatorHook, newType: SplitType)
    modifies hook
    ensures hook.splitType == newType
    ensures hook.memberSplits == if newType == Equal then map[] else old(hook.memberSplits)
  {
    hook.SetSplitType(newType);
    if newType == Equal {
      hook.ResetToEqual();
    }
  }

  /** The percentage input: `updateMemberSplit(userId, { percentage: parseFloat(v) || 0 })`. */
  method OnPercentageInput(hook: SplitCalculatorHook, userId: string, v: string)
    modifies hook
    ensures hook.splitType == old(hook.splitType)
    ensures hook.memberSplits == Updated(old(hook.memberSplits), userId, Override(Some(StoredInput(v)), None))
  {
    hook.UpdateMemberSplit(userId, Override(Some(StoredInput(v)), None));
  }

  /** The amount input: `updateMemberSplit(userId, { amount: parseFloat(v) || 0 })`. */
  method OnAmountInput(hook: SplitCalculatorHook, userId: string, v: string)
    modifies hook
    ensures hook.splitType == old(hook.splitType)
    ensures hook.memberSplits == Updated(old(hook.memberSplits), userId, Override(None, Some(StoredInput(v))))
  {
    hook.UpdateMemberSplit(userId, Override(None, Some(StoredInput(v))));
  }

  /** Clearing a percentage field stores 0 for that member and keeps its amount. */
  lemma ClearedPercentage(splits: map<string, Override>, userId: string)
    ensures var r := Updated(splits, userId, Override(Some(StoredInput("")), None));
            && r[userId].percentage == Some(0.0)
            && r[userId].amount == OverrideOf(splits, userId).amount
  {
    NoDigitsStoresZero("");
  }
}
