/**
 * The finance manager: an ordered ledger of transactions, a monthly budget,
 * running income and expense totals updated step by step, and one category
 * list per kind of transaction.
 *
 * The console prompts are replaced by parameters that carry what the
 * validators accepted; each method's `requires` is what those validators
 * guarantee to it.
 */
module Finance {
  import opened Wrappers
  import opened Transactions
  import opened Validation
  import opened Budget
  import opened Csv

  /** The six fields in the order the save writes them and the load reads
      them back. */
  datatype Snapshot = Snapshot(
    transactions: seq<Transaction>,
    budget: real,
    totalIncome: real,
    totalExpenses: real,
    incomeCategories: seq<string>,
    expenseCategories: seq<string>)

  /** The totals invariant: each total is the sum of the amounts of its kind,
      and every amount is positive. */
  predicate TotalsMatch(txs: seq<Transaction>, totalIncome: real, totalExpenses: real)
  {
    totalIncome == SumOf(Income, txs) &&
    totalExpenses == SumOf(Expense, txs) &&
    AllPositive(txs)
  }

  predicate Consistent(s: Snapshot)
  {
    TotalsMatch(s.transactions, s.totalIncome, s.totalExpenses)
  }

  /** Appending a positive record and raising only its own kind's total by its
      amount keeps the invariant, and breaks it only where it already failed. */
  lemma AddKeepsTotals(txs: seq<Transaction>, totalIncome: real, totalExpenses: real, t: Transaction)
    requires t.amount > 0.0
    ensures TotalsMatch(txs + [t], totalIncome + Contribution(Income, t), totalExpenses + Contribution(Expense, t))
            <==> TotalsMatch(txs, totalIncome, totalExpenses)
  {
    SumOfAppend(Income, txs, t);
    SumOfAppend(Expense, txs, t);
    assert AllPositive(txs + [t]) <==> AllPositive(txs) by {
      forall i | 0 <= i < |txs| ensures (txs + [t])[i] == txs[i] {
      }
    }
  }

  /** Removing the record at index `i` and lowering only its own kind's total
      by its amount keeps the invariant. */
  lemma DeleteKeepsTotals(txs: seq<Transaction>, totalIncome: real, totalExpenses: real, i: nat)
    requires i < |txs|
    requires TotalsMatch(txs, totalIncome, totalExpenses)
    ensures TotalsMatch(txs[..i] + txs[i + 1..],
                        totalIncome - Contribution(Income, txs[i]),
                        totalExpenses - Contribution(Expense, txs[i]))
  {
    SumOfRemoveAt(Income, txs, i);
    SumOfRemoveAt(Expense, txs, i);
    var rest := txs[..i] + txs[i + 1..];
    forall j | 0 <= j < |rest| ensures rest[j].amount > 0.0 {
      assert rest[j] == txs[if j < i then j else j + 1];
    }
  }

  /** The categories a new manager starts with. */
  const SeedIncomeCategories: seq<string> := ["Salary", "Bonus", "Investments"]
  const SeedExpenseCategories: seq<string> := ["Food", "Rent", "Entertainment", "Bills", "Shopping"]

  class FinanceManager {
    var transactions: seq<Transaction>
    var budget: real
    var totalIncome: real
    var totalExpenses: real
    var incomeCategories: seq<string>
    var expenseCategories: seq<string>

    /** The totals agree with a from-scratch recomputation over the ledger.
        It is stated through the snapshot so that `Load`'s contract relates
        to it directly: `Valid()` is `TotalsMatch` of the three ledger fields. */
    ghost predicate Valid()
      reads this
    {
      Consistent(Save())
    }

    /** A fresh manager: no transactions, budget and totals zero, and the seed
        categories of each kind. */
    constructor ()
      ensures Valid()
      ensures transactions == [] && budget == 0.0
      ensures totalIncome == 0.0 && totalExpenses == 0.0
      ensures incomeCategories == SeedIncomeCategories
      ensures expenseCategories == SeedExpenseCategories
    {
      transactions := [];
      budget := 0.0;
      totalIncome := 0.0;
      totalExpenses := 0.0;
      incomeCategories := SeedIncomeCategories;
      expenseCategories := SeedExpenseCategories;
    }

    /** The category list that a transaction of `kind` chooses from. */
    function CategoriesOf(kind: Kind): seq<string>
      reads this
    {
      if kind == Income then incomeCategories else expenseCategories
    }

    /** Stores an accepted budget; nothing else changes. */
    method SetBudget(value: real)
      requires AmountAccepted(value)
      modifies this`budget
      ensures budget == value && budget > 0.0
      ensures Valid() == old(Valid())
    {
      budget := value;
    }

    /** Choice `c` in 1..n picks the c-th category of the kind's list; choice
        n + 1 appends the trimmed new name to that list and picks it. */
    method ChooseCategory(typeCode: int, choice: int, newName: string) returns (category: string)
      requires IntAccepted(choice, 1, |CategoriesOf(KindOf(typeCode))| + 1)
      modifies this`incomeCategories, this`expenseCategories
      ensures choice <= |old(CategoriesOf(KindOf(typeCode)))| ==>
        category == old(CategoriesOf(KindOf(typeCode)))[choice - 1] &&
        incomeCategories == old(incomeCategories) && expenseCategories == old(expenseCategories)
      ensures choice > |old(CategoriesOf(KindOf(typeCode)))| ==>
        category == Trim(newName) &&
        CategoriesOf(KindOf(typeCode)) == old(CategoriesOf(KindOf(typeCode))) + [category]
      ensures KindOf(typeCode) == Income ==> expenseCategories == old(expenseCategories)
      ensures KindOf(typeCode) == Expense ==> incomeCategories == old(incomeCategories)
    {
      var cats := if typeCode == 1 then incomeCategories else expenseCategories;
      if choice == |cats| + 1 {
        var newCategory := Trim(newName);
        if typeCode == 1 {
          incomeCategories := incomeCategories + [newCategory];
        } else {
          expenseCategories := expenseCategories + [newCategory];
        }
        return newCategory;
      }
      category := cats[choice - 1];
    }

    /** Records a transaction of the chosen type and category at the end of the
        ledger, adds its amount to the matching total only, and reports the
        budget warning for the new expense total. */
    method AddTransaction(typeCode: int, choice: int, newName: string, amount: real,
                          description: string, timestamp: string)
      returns (t: Transaction, warning: Warning)
      requires IntAccepted(typeCode, 1, 2)
      requires IntAccepted(choice, 1, |CategoriesOf(KindOf(typeCode))| + 1)
      requires AmountAccepted(amount)
      requires IsDescription(description)
      modifies this
      ensures t.kind == KindOf(typeCode) && t.description == description
      ensures t.amount == amount && t.timestamp == timestamp
      ensures choice <= |old(CategoriesOf(t.kind))| ==>
        t.category == old(CategoriesOf(t.kind))[choice - 1] && CategoriesOf(t.kind) == old(CategoriesOf(t.kind))
      ensures choice > |old(CategoriesOf(t.kind))| ==>
        t.category == Trim(newName) && CategoriesOf(t.kind) == old(CategoriesOf(t.kind)) + [t.category]
      ensures t.kind == Income ==> expenseCategories == old(expenseCategories)
      ensures t.kind == Expense ==> incomeCategories == old(incomeCategories)
      ensures transactions == old(transactions) + [t]
      ensures budget == old(budget)
      ensures t.kind == Income ==> totalIncome == old(totalIncome) + amount && totalExpenses == old(totalExpenses)
      ensures t.kind == Expense ==> totalExpenses == old(totalExpenses) + amount && totalIncome == old(totalIncome)
      ensures warning == BudgetWarning(totalExpenses, budget)
      ensures Valid() <==> old(Valid())
    {
      var category := ChooseCategory(typeCode, choice, newName);
      t := Transaction(KindOf(typeCode), description, amount, category, timestamp);
      Record(t);
      warning := BudgetWarning(totalExpenses, budget);
    }

    /** The ledger step of an add: the record goes at the end and only the
        total of its own kind rises, by its amount. */
    method Record(t: Transaction)
      requires t.amount > 0.0
      modifies this`transactions, this`totalIncome, this`totalExpenses
      ensures transactions == old(transactions) + [t]
      ensures totalIncome == old(totalIncome) + Contribution(Income, t)
      ensures totalExpenses == old(totalExpenses) + Contribution(Expense, t)
      ensures Valid() <==> old(Valid())
    {
      AddKeepsTotals(transactions, totalIncome, totalExpenses, t);
      if t.kind == Income {
        totalIncome := totalIncome + t.amount;
      } else {
        totalExpenses := totalExpenses + t.amount;
      }
      transactions := transactions + [t];
    }

    /** On an empty ledger nothing happens. Otherwise the record at 1-based
        `position` is removed, the others keep their order, and its amount is
        taken off the total of its own kind. */
    method DeleteTransaction(position: int) returns (removed: Option<Transaction>)
      requires transactions != [] ==> IntAccepted(position, 1, |transactions|)
      modifies this`transactions, this`totalIncome, this`totalExpenses
      ensures old(transactions) == [] ==>
        removed == None && transactions == [] &&
        totalIncome == old(totalIncome) && totalExpenses == old(totalExpenses)
      ensures old(transactions) != [] ==>
        removed == Some(old(transactions)[position - 1]) &&
        transactions == old(transactions)[..position - 1] + old(transactions)[position..] &&
        |transactions| == |old(transactions)| - 1
      ensures removed.Some? && removed.value.kind == Income ==>
        totalIncome == old(totalIncome) - removed.value.amount && totalExpenses == old(totalExpenses)
      ensures removed.Some? && removed.value.kind == Expense ==>
        totalExpenses == old(totalExpenses) - removed.value.amount && totalIncome == old(totalIncome)
      ensures old(Valid()) ==> Valid()
    {
      if transactions == [] {
        return None;
      }
      var t := transactions[position - 1];
      transactions := transactions[..position - 1] + transactions[position..];
      if t.kind == Income {
        totalIncome := totalIncome - t.amount;
      } else {
        totalExpenses := totalExpenses - t.amount;
      }
      removed := Some(t);
      if old(Valid()) {
        DeleteKeepsTotals(old(transactions), old(totalIncome), old(totalExpenses), position - 1);
      }
    }

    /** Income less expenses, as the summary shows it; on a valid manager it
        is the income sum less the expense sum. */
    function NetSavings(): (r: real)
      reads this
      ensures Valid() ==> r == SumOf(Income, transactions) - SumOf(Expense, transactions)
    {
      totalIncome - totalExpenses
    }

    /** The lines the CSV export writes, built row by row in ledger order. */
    method ExportToCsv(kindLabel: Kind -> string, amountText: real -> string) returns (lines: seq<string>)
      ensures lines == CsvLines(transactions, kindLabel, amountText)
    {
      var txs := transactions;
      lines := [Header];
      var i := 0;
      while i < |txs|
        invariant 0 <= i <= |txs|
        invariant lines == CsvLines(txs[..i], kindLabel, amountText)
      {
        CsvLinesStep(txs, i, kindLabel, amountText);
        lines := lines + [Row(txs[i], kindLabel, amountText)];
        i := i + 1;
      }
      assert txs[..i] == txs;
    }

    /** The six fields, in the order the save writes them; the snapshot is
        consistent exactly when the manager's totals match its ledger. */
    function Save(): (s: Snapshot)
      reads this
      ensures Consistent(s) <==> TotalsMatch(transactions, totalIncome, totalExpenses)
    {
      Snapshot(transactions, budget, totalIncome, totalExpenses, incomeCategories, expenseCategories)
    }

    /** Replaces all six fields with those of a snapshot, without checking the
        totals against the transactions. */
    method Load(s: Snapshot)
      modifies this
      ensures Save() == s
      ensures Valid() <==> Consistent(s)
    {
      transactions := s.transactions;
      budget := s.budget;
      totalIncome := s.totalIncome;
      totalExpenses := s.totalExpenses;
      incomeCategories := s.incomeCategories;
      expenseCategories := s.expenseCategories;
    }
  }

  /** Between operations the step-by-step totals are the sums over the ledger,
      never negative, and the net savings is their difference. */
  lemma TotalsRecomputed(m: FinanceManager)
    requires m.Valid()
    ensures m.totalIncome == SumOf(Income, m.transactions) >= 0.0
    ensures m.totalExpenses == SumOf(Expense, m.transactions) >= 0.0
    ensures m.NetSavings() == SumOf(Income, m.transactions) - SumOf(Expense, m.transactions)
  {
    SumOfNonNegative(Income, m.transactions);
    SumOfNonNegative(Expense, m.transactions);
  }

  /** A snapshot taken from a consistent manager loads into a consistent
      manager with the same six fields. */
  method SaveLoadRoundTrip(m: FinanceManager, target: FinanceManager)
    requires m.Valid()
    modifies target
    ensures target.Save() == old(m.Save()) && target.Valid()
  {
    var s := m.Save();
    target.Load(s);
  }

  /** One expense added to a manager that still has the five seed expense
      categories: choice c picks the c-th of them, the record goes at the end,
      the expense total rises by the amount, and income, budget and categories
      stay as they were. */
  method AddSeedExpense(m: FinanceManager, choice: int, amount: real, description: string, timestamp: string)
    returns (t: Transaction, warning: Warning)
    requires m.expenseCategories == SeedExpenseCategories
    requires IntAccepted(choice, 1, 5) && AmountAccepted(amount) && IsDescription(description)
    modifies m
    ensures t == Transaction(Expense, description, amount, SeedExpenseCategories[choice - 1], timestamp)
    ensures m.expenseCategories == SeedExpenseCategories
    ensures m.transactions == old(m.transactions) + [t]
    ensures m.totalExpenses == old(m.totalExpenses) + amount
    ensures m.totalIncome == old(m.totalIncome) && m.budget == old(m.budget)
    ensures warning == BudgetWarning(m.totalExpenses, m.budget)
  {
    t, warning := m.AddTransaction(2, choice, "", amount, description, timestamp);
  }

  /** The seed expense categories that the scenario picks. */
  lemma SeedExpenseNames()
    ensures SeedExpenseCategories[0] == "Food" && SeedExpenseCategories[1] == "Rent"
    ensures SeedExpenseCategories[3] == "Bills"
  {
  }

  /** Budget 500, then expenses of 50 (Food), 400 (Rent) and 10 (Bills), with
      any accepted descriptions, through the manager's own operations: the
      ledger holds the three records in order, the expense total is 460, which
      is near the limit, income is 0 and the net savings is -460. */
  method BudgetScenario(d1: string, d2: string, d3: string, ts1: string, ts2: string, ts3: string)
    returns (m: FinanceManager, warning: Warning)
    requires IsDescription(d1) && IsDescription(d2) && IsDescription(d3)
    ensures m.budget == 500.0 && m.totalIncome == 0.0 && m.totalExpenses == 460.0
    ensures m.NetSavings() == -460.0 && warning == NearLimit
    ensures m.transactions == [Transaction(Expense, d1, 50.0, "Food", ts1),
                               Transaction(Expense, d2, 400.0, "Rent", ts2),
                               Transaction(Expense, d3, 10.0, "Bills", ts3)]
  {
    m := new FinanceManager();
    m.SetBudget(500.0);
    SeedExpenseNames();
    var t1, t2, t3;
    t1, warning := AddSeedExpense(m, 1, 50.0, d1, ts1);
    t2, warning := AddSeedExpense(m, 2, 400.0, d2, ts2);
    t3, warning := AddSeedExpense(m, 4, 10.0, d3, ts3);
    assert m.transactions == [t1, t2, t3];
  }
}
