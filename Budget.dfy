/**
 * The advisory budget warning raised after each added transaction.
 */
module Budget {

  datatype Warning = NearLimit | OverLimit | NoWarning

  /** Expenses above nine tenths of the budget and not above the budget are
      near the limit; expenses above the budget are over it. The near-limit
      test comes first. */
  function BudgetWarning(totalExpenses: real, budget: real): (w: Warning)
    ensures w == NearLimit <==> totalExpenses > budget * 0.9 && totalExpenses <= budget
    ensures w == OverLimit <==> totalExpenses > budget
    ensures w == NoWarning <==> totalExpenses <= budget && totalExpenses <= budget * 0.9
  {
    if totalExpenses > budget * 0.9 && totalExpenses <= budget then NearLimit
    else if totalExpenses > budget then OverLimit
    else NoWarning
  }

  /** With a positive budget, no warning means expenses are at most nine tenths
      of it; with a budget of zero any positive expense total is over it, and a
      zero expense total raises nothing. */
  lemma WarningRegions(totalExpenses: real, budget: real)
    ensures budget > 0.0 ==> (BudgetWarning(totalExpenses, budget) == NoWarning <==> totalExpenses <= budget * 0.9)
    ensures budget == 0.0 && totalExpenses > 0.0 ==> BudgetWarning(totalExpenses, budget) == OverLimit
    ensures budget == 0.0 && totalExpenses == 0.0 ==> BudgetWarning(totalExpenses, budget) == NoWarning
  {
  }

  /** Once expenses pass the budget, larger expenses stay over it; below a
      positive budget's nine tenths, smaller expenses stay silent. */
  lemma WarningMonotone(e1: real, e2: real, budget: real)
    requires e1 <= e2
    ensures BudgetWarning(e1, budget) == OverLimit ==> BudgetWarning(e2, budget) == OverLimit
    ensures budget >= 0.0 && BudgetWarning(e2, budget) == NoWarning ==> BudgetWarning(e1, budget) == NoWarning
  {
  }

  /** The boundaries with a budget of 100: 91 and exactly 100 are near the
      limit, 100.01 is over it, 90 is silent. */
  lemma WarningBoundaries()
    ensures BudgetWarning(90.0, 100.0) == NoWarning
    ensures BudgetWarning(91.0, 100.0) == NearLimit
    ensures BudgetWarning(100.0, 100.0) == NearLimit
    ensures BudgetWarning(100.01, 100.0) == OverLimit
  {
  }
}
