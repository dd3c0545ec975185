/**
 * The tracker object: three ordered collections it owns and updates in place,
 * the validating operations the menu calls, the budget check, the period
 * report, and saving to and loading from the line format.
 */
module Tracker {
  import opened Wrappers
  import opened Temporal
  import opened Records
  import opened Storage

  /** Amounts above 10000 (in cents here) raise the large-transaction alert. */
  const LargeAmount: Amount := 1000000

  /** The sum of the amounts, front to back, as both total calculations loop. */
  method Sum(ts: seq<Transaction>) returns (total: int)
    ensures total == Total(ts)
  {
    total := 0;
    for i := 0 to |ts|
      invariant total == Total(ts[..i])
    {
      assert ts[..i + 1][..i] == ts[..i];
      total := total + ts[i].amount;
    }
    assert ts[..|ts|] == ts;
  }

  /** The full update of the record at `index`, after the same checks in the same order as the source. */
  method ReplaceAt(ts: seq<Transaction>, index: int, amount: Amount, date: Date, name: string)
    returns (outcome: Outcome, r: seq<Transaction>)
    ensures outcome == InvalidIndex <==> !(0 <= index < |ts|)
    ensures outcome == NegativeAmount <==> 0 <= index < |ts| && amount < 0
    ensures outcome == EmptyLabel <==> 0 <= index < |ts| && amount >= 0 && name == []
    ensures outcome in {Done, InvalidIndex, NegativeAmount, EmptyLabel}
    ensures outcome == Done ==> r == ts[index := Transaction(amount, date, name)]
    ensures outcome != Done ==> r == ts
    ensures 0 <= index < |ts| ==>
              outcome == Edit(ts[index], 4, amount, name, date).0
              && r == ts[index := Edit(ts[index], 4, amount, name, date).1]
  {
    if index < 0 || index >= |ts| {
      return InvalidIndex, ts;
    }
    if amount < 0 {
      return NegativeAmount, ts;
    }
    if name == [] {
      return EmptyLabel, ts;
    }
    outcome, r := Done, ts[index := Transaction(amount, date, name)];
  }

  /**
   * The selective update of the record at `index`: choice 1 sets the amount, 2 the
   * name, 3 the date, 4 all three; any other choice changes nothing and still
   * reports success.
   */
  method EditAt(ts: seq<Transaction>, index: int, choice: int, amount: Amount, name: string, date: Date)
    returns (outcome: Outcome, r: seq<Transaction>)
    ensures outcome == InvalidIndex <==> !(0 <= index < |ts|)
    ensures 0 <= index < |ts| ==>
              outcome == Edit(ts[index], choice, amount, name, date).0
              && r == ts[index := Edit(ts[index], choice, amount, name, date).1]
    ensures outcome != Done ==> r == ts
  {
    if index < 0 || index >= |ts| {
      return InvalidIndex, ts;
    }
    outcome, r := Done, ts;
    if choice == 1 {
      if amount < 0 {
        return NegativeAmount, ts;
      }
      r := ts[index := ts[index].(amount := amount)];
    } else if choice == 2 {
      if name == [] {
        return EmptyLabel, ts;
      }
      r := ts[index := ts[index].(name := name)];
    } else if choice == 3 {
      r := ts[index := ts[index].(date := date)];
    } else if choice == 4 {
      if amount < 0 {
        return NegativeAmount, ts;
      }
      if name == [] {
        return EmptyLabel, ts;
      }
      r := ts[index := Transaction(amount, date, name)];
    }
  }

  /** The deletion of the record at `index`; the others keep their order. */
  method RemoveAt(ts: seq<Transaction>, index: int) returns (outcome: Outcome, r: seq<Transaction>)
    ensures outcome == InvalidIndex <==> !(0 <= index < |ts|)
    ensures outcome in {Done, InvalidIndex}
    ensures outcome == Done ==> |r| == |ts| - 1 && r == ts[..index] + ts[index + 1..]
    ensures outcome == Done ==> multiset(r) + multiset{ts[index]} == multiset(ts)
    ensures outcome != Done ==> r == ts
  {
    if index < 0 || index >= |ts| {
      return InvalidIndex, ts;
    }
    outcome, r := Done, ts[..index] + ts[index + 1..];
    assert ts == ts[..index] + [ts[index]] + ts[index + 1..];
  }

  /** The records dated within [lo, hi], in their original order, as the report loops list them. */
  method Select(ts: seq<Transaction>, lo: Date, hi: Date) returns (r: seq<Transaction>)
    ensures r == Within(ts, lo, hi)
  {
    r := [];
    for i := 0 to |ts|
      invariant r == Within(ts[..i], lo, hi)
    {
      assert ts[..i + 1][..i] == ts[..i];
      if GreaterEq(ts[i].date, lo) && LessEq(ts[i].date, hi) {
        r := r + [ts[i]];
      }
    }
    assert ts[..|ts|] == ts;
  }

  /** The saved line of each record of one type, in order, as saveToFile's loops write them. */
  method WriteTransactions(tag: string, ts: seq<Transaction>) returns (lines: seq<string>)
    ensures lines == TransactionLines(tag, ts)
  {
    lines := [];
    for i := 0 to |ts|
      invariant lines == TransactionLines(tag, ts[..i])
    {
      TransactionLinesAppend(tag, ts[..i], ts[i]);
      assert ts[..i + 1] == ts[..i] + [ts[i]];
      lines := lines + [TransactionLine(tag, ts[i])];
    }
    assert ts[..|ts|] == ts;
  }

  /** The saved line of each budget, in order. */
  method WriteBudgets(bs: seq<Budget>) returns (lines: seq<string>)
    ensures lines == BudgetLines(bs)
  {
    lines := [];
    for i := 0 to |bs|
      invariant lines == BudgetLines(bs[..i])
    {
      BudgetLinesAppend(bs[..i], bs[i]);
      assert bs[..i + 1] == bs[..i] + [bs[i]];
      lines := lines + [BudgetLine(bs[i])];
    }
    assert bs[..|bs|] == bs;
  }

  /** What generateReportForPeriod shows: whether the dates were swapped, the bounds, and the records in range. */
  datatype PeriodReport = PeriodReport(swapped: bool, start: Date, end: Date,
                                       incomes: seq<Transaction>, expenses: seq<Transaction>)

  class FinanceTracker {
    var incomes: seq<Transaction>
    var expenses: seq<Transaction>
    var budgets: seq<Budget>

    function Contents(): Ledger
      reads this
    {
      Ledger(incomes, expenses, budgets)
    }

    /** A new tracker holds what the save file holds, or nothing when there is no save file. */
    constructor (file: Option<seq<string>>)
      ensures file.None? ==> Contents() == Empty
      ensures file.Some? ==> Contents() == Load(Empty, file.value)
    {
      incomes, expenses, budgets := [], [], [];
      new;
      var warnings := LoadFromFile(file);
    }

    method CalculateTotalIncome() returns (total: int)
      ensures total == Total(incomes)
    {
      total := Sum(incomes);
    }

    method CalculateTotalExpenses() returns (total: int)
      ensures total == Total(expenses)
    {
      total := Sum(expenses);
    }

    method CalculateSpentInCategory(category: string) returns (spent: int)
      ensures spent == SpentIn(expenses, category)
    {
      spent := 0;
      for i := 0 to |expenses|
        invariant spent == SpentIn(expenses[..i], category)
      {
        assert expenses[..i + 1][..i] == expenses[..i];
        if expenses[i].name == category {
          spent := spent + expenses[i].amount;
        }
      }
      assert expenses[..|expenses|] == expenses;
    }

    /** The limit of the first budget for the category, or 0 when there is none. */
    method GetBudgetOfCategory(category: string) returns (limit: Amount)
      ensures limit == BudgetOf(budgets, category)
    {
      for i := 0 to |budgets|
        invariant forall j :: 0 <= j < i ==> budgets[j].category != category
      {
        if budgets[i].category == category {
          FindCategoryIs(budgets, category, i);
          return budgets[i].limit;
        }
      }
      FindCategoryIs(budgets, category, |budgets|);
      return 0;
    }

    /**
     * addIncome: a negative amount or an empty source is refused and changes
     * nothing; otherwise the income is appended. `large` is the alert for an
     * amount over 10000.
     */
    method AddIncome(amount: Amount, date: Date, source: string) returns (outcome: Outcome, large: bool)
      modifies this
      ensures outcome == NegativeAmount <==> amount < 0
      ensures outcome == EmptyLabel <==> amount >= 0 && source == []
      ensures outcome in {Done, NegativeAmount, EmptyLabel}
      ensures outcome == Done ==> incomes == old(incomes) + [Transaction(amount, date, source)]
      ensures outcome != Done ==> incomes == old(incomes)
      ensures expenses == old(expenses) && budgets == old(budgets)
      ensures large <==> outcome == Done && amount > LargeAmount
      ensures StoreInvariant(old(Contents())) ==> StoreInvariant(Contents())
    {
      large := false;
      if amount < 0 {
        return NegativeAmount, large;
      }
      if source == [] {
        return EmptyLabel, large;
      }
      large := amount > LargeAmount;
      incomes := incomes + [Transaction(amount, date, source)];
      outcome := Done;
    }

    /**
     * addExpense: a negative amount or an empty category is refused; an expense
     * larger than the balance (total income minus total expenses) raises the
     * shortfall warning and goes ahead only when the user confirms. After a
     * successful add the budgets are checked against the new expenses.
     */
    method AddExpense(amount: Amount, date: Date, category: string, confirm: bool)
      returns (outcome: Outcome, shortfall: bool, large: bool, report: Option<BudgetReport>)
      modifies this
      ensures outcome == NegativeAmount <==> amount < 0
      ensures outcome == EmptyLabel <==> amount >= 0 && category == []
      ensures shortfall <==> amount >= 0 && category != [] && amount > Total(old(incomes)) - Total(old(expenses))
      ensures outcome == Canceled <==> shortfall && !confirm
      ensures outcome in {Done, NegativeAmount, EmptyLabel, Canceled}
      ensures outcome == Done ==> expenses == old(expenses) + [Transaction(amount, date, category)]
      ensures outcome != Done ==> expenses == old(expenses)
      ensures incomes == old(incomes) && budgets == old(budgets)
      ensures large <==> outcome == Done && amount > LargeAmount
      ensures report == if outcome == Done then Some(BudgetReportOf(budgets, expenses)) else None
      ensures StoreInvariant(old(Contents())) ==> StoreInvariant(Contents())
    {
      shortfall, large, report := false, false, None;
      if amount < 0 {
        return NegativeAmount, shortfall, large, report;
      }
      if category == [] {
        return EmptyLabel, shortfall, large, report;
      }
      var totalIncome := CalculateTotalIncome();
      var totalExpenses := CalculateTotalExpenses();
      var balance := totalIncome - totalExpenses;
      if amount > balance {
        shortfall := true;
        if !confirm {
          return Canceled, shortfall, large, report;
        }
      }
      large := amount > LargeAmount;
      expenses := expenses + [Transaction(amount, date, category)];
      outcome := Done;
      var statuses := CheckBudgets();
      report := Some(statuses);
    }

    /** updateIncome with every field: the index, then the amount, then the source are checked. */
    method UpdateIncome(index: int, amount: Amount, date: Date, source: string) returns (outcome: Outcome)
      modifies this
      ensures outcome == InvalidIndex <==> !(0 <= index < |old(incomes)|)
      ensures outcome == NegativeAmount <==> 0 <= index < |old(incomes)| && amount < 0
      ensures outcome == EmptyLabel <==> 0 <= index < |old(incomes)| && amount >= 0 && source == []
      ensures outcome in {Done, InvalidIndex, NegativeAmount, EmptyLabel}
      ensures outcome == Done ==> incomes == old(incomes)[index := Transaction(amount, date, source)]
      ensures outcome != Done ==> incomes == old(incomes)
      ensures expenses == old(expenses) && budgets == old(budgets)
      ensures StoreInvariant(old(Contents())) ==> StoreInvariant(Contents())
    {
      outcome, incomes := ReplaceAt(incomes, index, amount, date, source);
    }

    /** updateIncome with a field choice: the edit of that field, after the index check. */
    method UpdateIncomeField(index: int, choice: int, amount: Amount, source: string, date: Date)
      returns (outcome: Outcome)
      modifies this
      ensures outcome == InvalidIndex <==> !(0 <= index < |old(incomes)|)
      ensures 0 <= index < |old(incomes)| ==>
                var (o, t) := Edit(old(incomes)[index], choice, amount, source, date);
                outcome == o && incomes == old(incomes)[index := t]
      ensures outcome != Done ==> incomes == old(incomes)
      ensures expenses == old(expenses) && budgets == old(budgets)
      ensures StoreInvariant(old(Contents())) ==> StoreInvariant(Contents())
    {
      outcome, incomes := EditAt(incomes, index, choice, amount, source, date);
      if 0 <= index < |old(incomes)| && WellFormed(old(incomes)[index]) {
        EditKeepsWellFormed(old(incomes)[index], choice, amount, source, date);
      }
    }

    method DeleteIncome(index: int) returns (outcome: Outcome)
      modifies this
      ensures outcome == InvalidIndex <==> !(0 <= index < |old(incomes)|)
      ensures outcome in {Done, InvalidIndex}
      ensures outcome == Done ==> incomes == old(incomes)[..index] + old(incomes)[index + 1..]
      ensures outcome != Done ==> incomes == old(incomes)
      ensures expenses == old(expenses) && budgets == old(budgets)
      ensures StoreInvariant(old(Contents())) ==> StoreInvariant(Contents())
    {
      outcome, incomes := RemoveAt(incomes, index);
      if outcome == Done {
        assert forall i :: 0 <= i < |incomes| ==> incomes[i] == old(incomes)[if i < index then i else i + 1];
      }
    }

    /** updateExpense with every field: the index, then the amount, then the category are checked. */
    method UpdateExpense(index: int, amount: Amount, date: Date, category: string) returns (outcome: Outcome)
      modifies this
      ensures outcome == InvalidIndex <==> !(0 <= index < |old(expenses)|)
      ensures outcome == NegativeAmount <==> 0 <= index < |old(expenses)| && amount < 0
      ensures outcome == EmptyLabel <==> 0 <= index < |old(expenses)| && amount >= 0 && category == []
      ensures outcome in {Done, InvalidIndex, NegativeAmount, EmptyLabel}
      ensures outcome == Done ==> expenses == old(expenses)[index := Transaction(amount, date, category)]
      ensures outcome != Done ==> expenses == old(expenses)
      ensures incomes == old(incomes) && budgets == old(budgets)
      ensures StoreInvariant(old(Contents())) ==> StoreInvariant(Contents())
    {
      outcome, expenses := ReplaceAt(expenses, index, amount, date, category);
    }

    /** updateExpense with a field choice: the edit of that field, after the index check. */
    method UpdateExpenseField(index: int, choice: int, amount: Amount, category: string, date: Date)
      returns (outcome: Outcome)
      modifies this
      ensures outcome == InvalidIndex <==> !(0 <= index < |old(expenses)|)
      ensures 0 <= index < |old(expenses)| ==>
                var (o, t) := Edit(old(expenses)[index], choice, amount, category, date);
                outcome == o && expenses == old(expenses)[index := t]
      ensures outcome != Done ==> expenses == old(expenses)
      ensures incomes == old(incomes) && budgets == old(budgets)
      ensures StoreInvariant(old(Contents())) ==> StoreInvariant(Contents())
    {
      outcome, expenses := EditAt(expenses, index, choice, amount, category, date);
      if 0 <= index < |old(expenses)| && WellFormed(old(expenses)[index]) {
        EditKeepsWellFormed(old(expenses)[index], choice, amount, category, date);
      }
    }

    method DeleteExpense(index: int) returns (outcome: Outcome)
      modifies this
      ensures outcome == InvalidIndex <==> !(0 <= index < |old(expenses)|)
      ensures outcome in {Done, InvalidIndex}
      ensures outcome == Done ==> expenses == old(expenses)[..index] + old(expenses)[index + 1..]
      ensures outcome != Done ==> expenses == old(expenses)
      ensures incomes == old(incomes) && budgets == old(budgets)
      ensures StoreInvariant(old(Contents())) ==> StoreInvariant(Contents())
    {
      outcome, expenses := RemoveAt(expenses, index);
      if outcome == Done {
        assert forall i :: 0 <= i < |expenses| ==> expenses[i] == old(expenses)[if i < index then i else i + 1];
      }
    }

    /**
     * setBudget: a negative limit or an empty category is refused; otherwise the
     * first budget of the category gets the new limit, or a new budget is appended.
     */
    method SetBudget(category: string, limit: Amount) returns (outcome: Outcome)
      modifies this
      ensures outcome == NegativeAmount <==> limit < 0
      ensures outcome == EmptyLabel <==> limit >= 0 && category == []
      ensures outcome in {Done, NegativeAmount, EmptyLabel}
      ensures outcome == Done ==> budgets == Upsert(old(budgets), category, limit)
      ensures outcome != Done ==> budgets == old(budgets)
      ensures incomes == old(incomes) && expenses == old(expenses)
      ensures StoreInvariant(old(Contents())) ==> StoreInvariant(Contents())
    {
      if limit < 0 {
        return NegativeAmount;
      }
      if category == [] {
        return EmptyLabel;
      }
      outcome := Done;
      UpsertSpec(budgets, category, limit);
      for i := 0 to |budgets|
        invariant forall j :: 0 <= j < i ==> budgets[j].category != category
      {
        if budgets[i].category == category {
          FindCategoryIs(budgets, category, i);
          budgets := budgets[i := budgets[i].(limit := limit)];
          assert forall j :: 0 <= j < |budgets| ==> budgets[j].limit >= 0 || old(budgets)[j] == budgets[j];
          return;
        }
      }
      FindCategoryIs(budgets, category, |budgets|);
      budgets := budgets + [Budget(category, limit)];
    }

    /** checkBudgets: the no-budgets notice, or the status of every budget in order. */
    method CheckBudgets() returns (report: BudgetReport)
      ensures report == BudgetReportOf(budgets, expenses)
      ensures report.NoBudgets? <==> budgets == []
    {
      if budgets == [] {
        return NoBudgets;
      }
      var items: seq<BudgetStatus> := [];
      for i := 0 to |budgets|
        invariant |items| == i
        invariant forall j :: 0 <= j < i ==> items[j] == StatusOf(budgets[j], expenses)
      {
        var b := budgets[i];
        var spent := CalculateSpentInCategory(b.category);
        var percentage := if b.limit > 0 then (spent as real / b.limit as real) * 100.0 else 0.0;
        var tier := if spent > b.limit then Exceeded else if 10 * spent > 9 * b.limit then Warning else Normal;
        items := items + [BudgetStatus(b.category, b.limit, spent, percentage, tier)];
      }
      report := Statuses(items);
    }

    /**
     * generateReportForPeriod: the bounds are swapped when the start is later than
     * the end; the incomes and expenses dated within them are listed in order.
     */
    method GenerateReportForPeriod(start: Date, end: Date) returns (report: PeriodReport)
      ensures report.swapped <==> Greater(start, end)
      ensures (report.start, report.end) == PeriodBounds(start, end)
      ensures report.incomes == Within(incomes, report.start, report.end)
      ensures report.expenses == Within(expenses, report.start, report.end)
    {
      var lo, hi := start, end;
      var swapped := Greater(start, end);
      if swapped {
        lo, hi := end, start;
      }
      var inIncomes := Select(incomes, lo, hi);
      var inExpenses := Select(expenses, lo, hi);
      report := PeriodReport(swapped, lo, hi, inIncomes, inExpenses);
    }

    /** saveToFile: one line per income, then per expense, then per budget. */
    method SaveToFile() returns (lines: seq<string>)
      ensures lines == SaveLines(Contents())
    {
      var incomeLines := WriteTransactions(IncomeTag, incomes);
      var expenseLines := WriteTransactions(ExpenseTag, expenses);
      var budgetLines := WriteBudgets(budgets);
      lines := incomeLines + expenseLines + budgetLines;
    }

    /**
     * loadFromFile: when there is a file, each line, counted from 1, is read and
     * its record appended to what the tracker already holds; bad amounts produce
     * a warning naming the line. Without a file nothing changes.
     */
    method LoadFromFile(file: Option<seq<string>>) returns (warnings: seq<Warning>)
      modifies this
      ensures file.None? ==> Contents() == old(Contents()) && warnings == []
      ensures file.Some? ==> Contents() == Load(old(Contents()), file.value) && warnings == Warnings(file.value)
    {
      warnings := [];
      if file.None? {
        return;
      }
      var lines := file.value;
      ghost var start := Contents();
      ghost var entries := Entries(lines);
      var lineNum := 0;
      while lineNum < |lines|
        invariant 0 <= lineNum <= |lines|
        invariant Contents() == LoadEntries(start, entries[..lineNum])
        invariant warnings == WarningsOf(entries[..lineNum])
      {
        var entry := ParseLine(lines[lineNum]);
        assert entries[..lineNum + 1][..lineNum] == entries[..lineNum];
        lineNum := lineNum + 1;
        match entry
        case IncomeEntry(t) => incomes := incomes + [t];
        case ExpenseEntry(t) => expenses := expenses + [t];
        case BudgetEntry(b) => budgets := budgets + [b];
        case BadBudget => warnings := warnings + [InvalidBudget(lineNum)];
        case BadAmount => warnings := warnings + [InvalidAmount(lineNum)];
        case Ignored =>
      }
      assert entries[..|lines|] == entries;
    }
  }
}
