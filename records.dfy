/**
 * The ledger's records and the pure specification of what the tracker computes
 * over them: sums, the budget lookup and upsert, the budget tiers, the period
 * selection and the field edits of a transaction.
 */
module Records {
  import opened Temporal

  /** An amount of money, in cents. */
  type Amount = int

  /**
   * An income or an expense. Both have an amount and a date; the name is the
   * source of an income and the category of an expense.
   */
  datatype Transaction = Transaction(amount: Amount, date: Date, name: string)

  datatype Budget = Budget(category: string, limit: Amount)

  /** The three ordered collections the tracker owns. */
  datatype Ledger = Ledger(incomes: seq<Transaction>, expenses: seq<Transaction>, budgets: seq<Budget>)

  /** What the public operations report: success, or the check that refused the call. */
  datatype Outcome = Done | InvalidIndex | NegativeAmount | EmptyLabel | Canceled

  // ---------------------------------------------------------------------------
  // The store invariant the validating operations keep

  predicate WellFormed(t: Transaction) {
    t.amount >= 0 && t.name != []
  }

  predicate DistinctCategories(bs: seq<Budget>) {
    forall i, j :: 0 <= i < j < |bs| ==> bs[i].category != bs[j].category
  }

  /** Non-negative amounts and limits, non-empty names, at most one budget per category. */
  predicate StoreInvariant(l: Ledger) {
    && (forall i :: 0 <= i < |l.incomes| ==> WellFormed(l.incomes[i]))
    && (forall i :: 0 <= i < |l.expenses| ==> WellFormed(l.expenses[i]))
    && (forall i :: 0 <= i < |l.budgets| ==> l.budgets[i].limit >= 0 && l.budgets[i].category != [])
    && DistinctCategories(l.budgets)
  }

  // ---------------------------------------------------------------------------
  // Sums

  /** The sum of the amounts, accumulated front to back. */
  function Total(ts: seq<Transaction>): int {
    if ts == [] then 0 else Total(ts[..|ts| - 1]) + ts[|ts| - 1].amount
  }

  /** The sum of the amounts of the expenses whose category is exactly `category`. */
  function SpentIn(es: seq<Transaction>, category: string): int {
    if es == [] then 0
    else SpentIn(es[..|es| - 1], category) + (if es[|es| - 1].name == category then es[|es| - 1].amount else 0)
  }

  lemma {:induction false} TotalConcat(a: seq<Transaction>, b: seq<Transaction>)
    ensures Total(a + b) == Total(a) + Total(b)
  {
    if b == [] {
      assert a + b == a;
    } else {
      var b' := b[..|b| - 1];
      assert (a + b)[..|a + b| - 1] == a + b';
      TotalConcat(a, b');
    }
  }

  /** Removing the record at i lowers the total by exactly its amount. */
  lemma {:induction false} TotalAfterDelete(ts: seq<Transaction>, i: nat)
    requires i < |ts|
    ensures Total(ts[..i] + ts[i + 1..]) == Total(ts) - ts[i].amount
  {
    var front, back := ts[..i], ts[i + 1..];
    calc {
      Total(front + back);
    == { TotalConcat(front, back); }
      Total(front) + Total(back);
    == { TotalOne(front, ts[i]); }
      Total(front + [ts[i]]) - ts[i].amount + Total(back);
    == { TotalConcat(front + [ts[i]], back); }
      Total(front + [ts[i]] + back) - ts[i].amount;
    == { assert front + [ts[i]] + back == ts; }
      Total(ts) - ts[i].amount;
    }
  }

  /** Replacing the record at i changes the total by the difference of the two amounts. */
  lemma {:induction false} TotalAfterReplace(ts: seq<Transaction>, i: nat, t: Transaction)
    requires i < |ts|
    ensures Total(ts[i := t]) == Total(ts) - ts[i].amount + t.amount
  {
    var front, back := ts[..i], ts[i + 1..];
    calc {
      Total(ts[i := t]);
    == { assert ts[i := t] == front + [t] + back; }
      Total(front + [t] + back);
    == { TotalConcat(front + [t], back); TotalOne(front, t); }
      Total(front) + t.amount + Total(back);
    == { TotalConcat(front + [ts[i]], back); TotalOne(front, ts[i]); }
      Total(front + [ts[i]] + back) - ts[i].amount + t.amount;
    == { assert front + [ts[i]] + back == ts; }
      Total(ts) - ts[i].amount + t.amount;
    }
  }

  /** One more record adds its amount. */
  lemma {:induction false} TotalOne(ts: seq<Transaction>, t: Transaction)
    ensures Total(ts + [t]) == Total(ts) + t.amount
  {
    assert (ts + [t])[..|ts|] == ts;
  }

  /** With non-negative amounts, the spend in one category is between 0 and the total. */
  lemma {:induction false} SpentInBounded(es: seq<Transaction>, category: string)
    requires forall i :: 0 <= i < |es| ==> es[i].amount >= 0
    ensures 0 <= SpentIn(es, category) <= Total(es)
  {
    if es != [] {
      SpentInBounded(es[..|es| - 1], category);
    }
  }

  /** Expenses of other categories do not change the spend in a category. */
  lemma {:induction false} SpentInOtherCategories(es: seq<Transaction>, category: string)
    requires forall i :: 0 <= i < |es| ==> es[i].name != category
    ensures SpentIn(es, category) == 0
  {
    if es != [] {
      SpentInOtherCategories(es[..|es| - 1], category);
    }
  }

  // ---------------------------------------------------------------------------
  // Budgets

  /** Index of the first budget for the category, or |bs| when there is none. */
  function FindCategory(bs: seq<Budget>, category: string): (k: nat)
    ensures k <= |bs|
    ensures forall j :: 0 <= j < k ==> bs[j].category != category
    ensures k < |bs| ==> bs[k].category == category
  {
    if bs == [] || bs[0].category == category then 0 else 1 + FindCategory(bs[1..], category)
  }

  /** The first-match properties determine FindCategory's result. */
  lemma {:induction false} FindCategoryIs(bs: seq<Budget>, category: string, k: nat)
    requires k <= |bs|
    requires forall j :: 0 <= j < k ==> bs[j].category != category
    requires k < |bs| ==> bs[k].category == category
    ensures FindCategory(bs, category) == k
  {
  }

  /** The limit getBudgetOfCategory reports: that of the first matching budget, 0 when none. */
  function BudgetOf(bs: seq<Budget>, category: string): Amount {
    var k := FindCategory(bs, category);
    if k < |bs| then bs[k].limit else 0
  }

  predicate HasCategory(bs: seq<Budget>, category: string) {
    exists i :: 0 <= i < |bs| && bs[i].category == category
  }

  /** The budget list setBudget leaves once its limit and category have passed validation. */
  function Upsert(bs: seq<Budget>, category: string, limit: Amount): seq<Budget> {
    var k := FindCategory(bs, category);
    if k < |bs| then bs[k := Budget(category, limit)] else bs + [Budget(category, limit)]
  }

  /**
   * The upsert sets the category's limit and leaves every other category's limit
   * alone; the list grows by one exactly when the category was not there before;
   * distinct categories stay distinct.
   */
  lemma {:induction false} UpsertSpec(bs: seq<Budget>, category: string, limit: Amount)
    ensures BudgetOf(Upsert(bs, category, limit), category) == limit
    ensures forall c :: c != category ==> BudgetOf(Upsert(bs, category, limit), c) == BudgetOf(bs, c)
    ensures HasCategory(bs, category) ==> |Upsert(bs, category, limit)| == |bs|
    ensures !HasCategory(bs, category) ==> |Upsert(bs, category, limit)| == |bs| + 1
    ensures DistinctCategories(bs) ==> DistinctCategories(Upsert(bs, category, limit))
  {
    var r := Upsert(bs, category, limit);
    var k := FindCategory(bs, category);
    FindCategoryIs(r, category, k);
    forall c | c != category
      ensures BudgetOf(r, c) == BudgetOf(bs, c)
    {
      var kc := FindCategory(bs, c);
      assert kc < |bs| ==> r[kc] == bs[kc];
      assert forall j :: 0 <= j < kc ==> r[j].category != c;
      if kc == |bs| && k == |bs| {
        assert r[|bs|].category != c;
      }
      assert FindCategory(r, c) == kc || (kc == |bs| && FindCategory(r, c) == |r|);
    }
    if HasCategory(bs, category) {
      var i :| 0 <= i < |bs| && bs[i].category == category;
      assert k <= i;
    }
  }

  /** Setting a category's limit twice is the same as setting it once to the second limit. */
  lemma {:induction false} UpsertTwice(bs: seq<Budget>, category: string, first: Amount, second: Amount)
    ensures Upsert(Upsert(bs, category, first), category, second) == Upsert(bs, category, second)
  {
    var r := Upsert(bs, category, first);
    var k := FindCategory(bs, category);
    FindCategoryIs(r, category, k);
  }

  /** After an upsert into distinct budgets, exactly one budget has the category. */
  lemma {:induction false} UpsertLeavesOneBudget(bs: seq<Budget>, category: string, limit: Amount)
    requires DistinctCategories(bs)
    ensures var r := Upsert(bs, category, limit);
            exists i :: 0 <= i < |r| && r[i] == Budget(category, limit) &&
                        forall j :: 0 <= j < |r| && j != i ==> r[j].category != category
  {
    UpsertSpec(bs, category, limit);
    var r := Upsert(bs, category, limit);
    var k := FindCategory(bs, category);
    assert r[k] == Budget(category, limit);
    forall j | 0 <= j < |r| && j != k
      ensures r[j].category != category
    {
      if j < k {
      } else {
        assert DistinctCategories(r);
      }
    }
  }

  // ---------------------------------------------------------------------------
  // Budget tiers

  datatype Tier = Normal | Warning | Exceeded

  /**
   * checkBudgets' classification: exceeded when the spend is strictly over the
   * limit, warning when it is over 90% of the limit without exceeding it, normal
   * otherwise. The 90% test is kept exact as 10 * spent > 9 * limit.
   */
  function Classify(spent: Amount, limit: Amount): Tier {
    if spent > limit then Exceeded
    else if 10 * spent > 9 * limit then Warning
    else Normal
  }

  /** The percentage of the limit used; 0 when the limit is not positive. */
  function Percentage(spent: Amount, limit: Amount): real {
    if limit > 0 then (spent as real / limit as real) * 100.0 else 0.0
  }

  function Rank(t: Tier): nat {
    match t
    case Normal => 0
    case Warning => 1
    case Exceeded => 2
  }

  /** For a positive limit, the tier is read off the percentage: over 100, over 90, or at most 90. */
  lemma {:induction false} TierByPercentage(spent: Amount, limit: Amount)
    requires limit > 0
    ensures Classify(spent, limit) == Exceeded <==> Percentage(spent, limit) > 100.0
    ensures Classify(spent, limit) == Warning <==> 90.0 < Percentage(spent, limit) <= 100.0
    ensures Classify(spent, limit) == Normal <==> Percentage(spent, limit) <= 90.0
  {
    PercentageAbove(spent, limit, 100);
    PercentageAbove(spent, limit, 90);
  }

  /** The percentage is over k exactly when 100 times the spend is over k times the limit. */
  lemma {:induction false} PercentageAbove(spent: Amount, limit: Amount, k: int)
    requires limit > 0
    ensures Percentage(spent, limit) > k as real <==> 100 * spent > k * limit
  {
    var l := limit as real;
    var q := spent as real / l;
    calc {
      Percentage(spent, limit) > k as real;
    <==>
      q * 100.0 > k as real;
    <==> { ScaleAbove(q * 100.0, k as real, l); }
      q * 100.0 * l > k as real * l;
    <==> { assert q * 100.0 * l == (q * l) * 100.0; assert q * l == spent as real; }
      spent as real * 100.0 > k as real * l;
    <==> { assert spent as real * 100.0 == (100 * spent) as real; assert k as real * l == (k * limit) as real; }
      100 * spent > k * limit;
    }
  }

  /** Multiplying by a positive factor keeps the order of two reals. */
  lemma {:induction false} ScaleAbove(x: real, y: real, l: real)
    requires l > 0.0
    ensures x > y <==> x * l > y * l
  {
    if x > y {
      assert (x - y) * l > 0.0;
    } else {
      assert (y - x) * l >= 0.0;
    }
  }

  /** Spending more never moves a budget to a lower tier. */
  lemma {:induction false} TierMonotone(spent: Amount, more: Amount, limit: Amount)
    requires spent <= more
    ensures Rank(Classify(spent, limit)) <= Rank(Classify(more, limit))
  {
  }

  datatype BudgetStatus = BudgetStatus(category: string, limit: Amount, spent: Amount, percentage: real, tier: Tier)

  /** What checkBudgets reports: the no-budgets notice, or one status per budget in order. */
  datatype BudgetReport = NoBudgets | Statuses(items: seq<BudgetStatus>)

  function StatusOf(b: Budget, es: seq<Transaction>): BudgetStatus {
    var spent := SpentIn(es, b.category);
    BudgetStatus(b.category, b.limit, spent, Percentage(spent, b.limit), Classify(spent, b.limit))
  }

  function BudgetReportOf(bs: seq<Budget>, es: seq<Transaction>): BudgetReport {
    if bs == [] then NoBudgets
    else Statuses(seq(|bs|, i requires 0 <= i < |bs| => StatusOf(bs[i], es)))
  }

  // ---------------------------------------------------------------------------
  // Period selection

  /** The bounds generateReportForPeriod uses: the two dates, swapped when start is later than end. */
  function PeriodBounds(start: Date, end: Date): (Date, Date) {
    if Greater(start, end) then (end, start) else (start, end)
  }

  predicate InPeriod(d: Date, lo: Date, hi: Date) {
    GreaterEq(d, lo) && LessEq(d, hi)
  }

  /** The records whose date lies in [lo, hi], in their original order. */
  function Within(ts: seq<Transaction>, lo: Date, hi: Date): seq<Transaction> {
    if ts == [] then []
    else Within(ts[..|ts| - 1], lo, hi) + (if InPeriod(ts[|ts| - 1].date, lo, hi) then [ts[|ts| - 1]] else [])
  }

  /** The bounds do not depend on the order the two dates are given in, and the lower one comes first. */
  lemma {:induction false} PeriodBoundsSymmetric(a: Date, b: Date)
    ensures PeriodBounds(a, b) == PeriodBounds(b, a)
    ensures LessEq(PeriodBounds(a, b).0, PeriodBounds(a, b).1)
  {
    LessIsStrictTotalOrder(a, b, a);
  }

  /** A date is in the period exactly when it is neither before the lower nor after the upper bound. */
  lemma {:induction false} InPeriodBetween(d: Date, lo: Date, hi: Date)
    ensures InPeriod(d, lo, hi) <==> (lo == d || Less(lo, d)) && (d == hi || Less(d, hi))
  {
    DerivedOperators(d, lo);
    DerivedOperators(d, hi);
  }

  /** The selection holds exactly the records dated inside the period. */
  lemma {:induction false} WithinMembers(ts: seq<Transaction>, lo: Date, hi: Date)
    ensures forall t :: t in Within(ts, lo, hi) <==> t in ts && InPeriod(t.date, lo, hi)
  {
    if ts != [] {
      var init := ts[..|ts| - 1];
      WithinMembers(init, lo, hi);
      assert ts == init + [ts[|ts| - 1]];
    }
  }

  /** Selection distributes over concatenation, so it keeps the records' relative order. */
  lemma {:induction false} WithinConcat(a: seq<Transaction>, b: seq<Transaction>, lo: Date, hi: Date)
    ensures Within(a + b, lo, hi) == Within(a, lo, hi) + Within(b, lo, hi)
  {
    if b == [] {
      assert a + b == a;
    } else {
      var b' := b[..|b| - 1];
      assert (a + b)[..|a + b| - 1] == a + b';
      WithinConcat(a, b', lo, hi);
    }
  }

  // ---------------------------------------------------------------------------
  // Field edits

  /**
   * The selective update of one record: choice 1 sets the amount, 2 the name, 3 the
   * date and 4 all three. Only the fields being set are validated, amount before
   * name; a failed check leaves the record unchanged. Any other choice changes
   * nothing and still reports success.
   */
  function Edit(t: Transaction, choice: int, amount: Amount, name: string, date: Date): (r: (Outcome, Transaction))
    ensures r.0 == NegativeAmount <==> (choice == 1 || choice == 4) && amount < 0
    ensures r.0 == EmptyLabel <==> (choice == 2 || (choice == 4 && amount >= 0)) && name == []
    ensures r.0 == Done || r.0 == NegativeAmount || r.0 == EmptyLabel
    ensures r.0 != Done ==> r.1 == t
    ensures r.1.amount == if r.0 == Done && (choice == 1 || choice == 4) then amount else t.amount
    ensures r.1.name == if r.0 == Done && (choice == 2 || choice == 4) then name else t.name
    ensures r.1.date == if r.0 == Done && (choice == 3 || choice == 4) then date else t.date
  {
    if choice == 1 then
      if amount < 0 then (NegativeAmount, t) else (Done, t.(amount := amount))
    else if choice == 2 then
      if name == [] then (EmptyLabel, t) else (Done, t.(name := name))
    else if choice == 3 then
      (Done, t.(date := date))
    else if choice == 4 then
      if amount < 0 then (NegativeAmount, t)
      else if name == [] then (EmptyLabel, t)
      else (Done, Transaction(amount, date, name))
    else
      (Done, t)
  }

  /** An edit that succeeds keeps a well-formed record well-formed. */
  lemma {:induction false} EditKeepsWellFormed(t: Transaction, choice: int, amount: Amount, name: string, date: Date)
    requires WellFormed(t)
    ensures WellFormed(Edit(t, choice, amount, name, date).1)
  {
  }
}
