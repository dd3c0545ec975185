/**
 * The save file: one line per record, `INCOME,<source>,<amount>,<date>`,
 * `EXPENSE,<category>,<amount>,<date>` and `BUDGET,<category>,<limit>`, and the
 * tolerant line-by-line reading of such a file.
 */
module Storage {
  import opened Wrappers
  import opened Text
  import opened Temporal
  import opened Records

  // ---------------------------------------------------------------------------
  // Amounts as text

  /** The digits after the decimal point of a number of cents below 100, trailing zeros dropped. */
  function CentsText(c: nat): string
    requires c < 100
  {
    if c == 0 then [] else if c % 10 == 0 then "." + [DigitChar(c / 10)] else "." + Padded(c, 2)
  }

  /** An amount as the stream writes it: sign, whole units, and the cents without trailing zeros. */
  function AmountText(a: Amount): string {
    (if a < 0 then "-" else "") + UnsignedText(if a < 0 then -a else a)
  }

  /** A non-negative number of cents: whole units, then the cents without trailing zeros. */
  function UnsignedText(m: nat): string {
    NatText(m / 100) + CentsText(m % 100)
  }

  /** The text of an amount holds only digits, a minus sign and a decimal point. */
  lemma {:induction false} AmountTextChars(a: Amount)
    ensures forall i :: 0 <= i < |AmountText(a)| ==> IsDigit(AmountText(a)[i]) || AmountText(a)[i] in "-."
  {
  }

  /** Fraction digits read as cents: the first two count, any further ones are dropped. */
  function CentsOf(f: string): (c: nat)
    requires AllDigits(f)
    ensures c < 100
  {
    if |f| == 0 then 0
    else if |f| == 1 then 10 * DigitValue(f[0])
    else
      assert AllDigits(f[..2]) by { assert forall i :: 0 <= i < 2 ==> f[..2][i] == f[i]; }
      10 * DigitValue(f[0]) + DigitValue(f[1])
  }

  /** Digits, optionally followed by a point and more digits; at least one digit in all. */
  function ParseUnsigned(u: string): Option<nat> {
    var k := DigitRun(u);
    var rest := u[k..];
    if |rest| > 0 && rest[0] == '.' then
      var frac := Fraction(rest[1..]);
      if k == 0 && frac == [] then None else Some(Value(u[..k]) * 100 + CentsOf(frac))
    else if k == 0 then None
    else Some(Value(u[..k]) * 100)
  }

  /** The digits that follow a decimal point. */
  function Fraction(s: string): (f: string)
    ensures AllDigits(f)
  {
    s[..DigitRun(s)]
  }

  /** The sign applied to an unsigned reading. */
  function Signed(o: Option<nat>, negative: bool): Option<Amount> {
    match o
    case None => None
    case Some(n) => var v: int := n; Some(if negative then -v else v)
  }

  /**
   * `stod` as the loader uses it: leading white space is skipped, a sign is
   * optional, the longest number at the front is read and whatever follows is
   * ignored; no number at the front is a failure.
   */
  function ParseAmount(s: string): Option<Amount> {
    var t := SkipSpace(s);
    var negative := |t| > 0 && t[0] == '-';
    var u := if |t| > 0 && (t[0] == '-' || t[0] == '+') then t[1..] else t;
    Signed(ParseUnsigned(u), negative)
  }

  /** A text that starts with a digit is read without sign or leading white space. */
  lemma {:induction false} ParseAmountDigitFirst(u: string)
    requires |u| > 0 && IsDigit(u[0])
    ensures ParseAmount(u) == Signed(ParseUnsigned(u), false)
  {
    assert !IsSpace(u[0]);
    assert SkipSpace(u) == u;
  }

  /** A minus sign before a text that starts with a digit negates its reading. */
  lemma {:induction false} ParseAmountMinusFirst(u: string)
    requires |u| > 0 && IsDigit(u[0])
    ensures ParseAmount("-" + u) == Signed(ParseUnsigned(u), true)
  {
    var s := "-" + u;
    assert !IsSpace(s[0]);
    assert SkipSpace(s) == s;
    assert s[1..] == u;
  }

  /** Whole units without a fraction. */
  lemma {:induction false} ParseWhole(d: string)
    requires |d| > 0 && AllDigits(d)
    ensures ParseUnsigned(d) == Some(Value(d) * 100)
  {
    DigitRunOf(d, []);
    assert d + [] == d;
    assert d[..|d|] == d;
  }

  /** Whole units, a point and fraction digits, of which the first two count. */
  lemma {:induction false} ParseFraction(d: string, g: string)
    requires |d| > 0 && AllDigits(d) && AllDigits(g)
    ensures ParseUnsigned(d + "." + g) == Some(Value(d) * 100 + CentsOf(g))
  {
    var u := d + "." + g;
    var rest := "." + g;
    assert u == d + rest;
    DigitRunOf(d, rest);
    assert u[..|d|] == d;
    assert u[|d|..] == rest;
    assert rest[1..] == g;
    DigitRunOf(g, []);
    assert g + [] == g;
    ParsePointed(d, g);
  }

  lemma {:induction false} ParsePointed(d: string, g: string)
    requires |d| > 0 && AllDigits(d) && AllDigits(g)
    requires DigitRun(d + "." + g) == |d|
    requires (d + "." + g)[..|d|] == d
    requires (d + "." + g)[|d|..] == "." + g
    requires ("." + g)[1..] == g
    requires DigitRun(g) == |g|
    ensures ParseUnsigned(d + "." + g) == Some(Value(d) * 100 + CentsOf(g))
  {
    assert g[..|g|] == g;
  }

  /** The cents text is empty for no cents, and otherwise a point followed by digits worth them. */
  lemma {:induction false} CentsTextValue(c: nat)
    requires 0 < c < 100
    ensures CentsText(c) == "." + CentsText(c)[1..]
    ensures AllDigits(CentsText(c)[1..]) && CentsOf(CentsText(c)[1..]) == c
  {
    var g := CentsText(c)[1..];
    if c % 10 == 0 {
      assert g == [DigitChar(c / 10)];
    } else {
      assert g == Padded(c, 2);
      assert Value(g) == 10 * DigitValue(g[0]) + DigitValue(g[1]) by {
        assert g[..1] == [g[0]];
        assert [g[0]][..0] == [];
      }
    }
  }

  /** The unsigned text starts with a digit and reads back as the same number of cents. */
  lemma {:induction false} UnsignedRoundTrip(m: nat)
    ensures |UnsignedText(m)| > 0 && IsDigit(UnsignedText(m)[0])
    ensures ParseUnsigned(UnsignedText(m)) == Some(m)
  {
    var d := NatText(m / 100);
    var r := CentsText(m % 100);
    assert UnsignedText(m)[0] == d[0];
    if m % 100 == 0 {
      assert UnsignedText(m) == d;
      ParseWhole(d);
    } else {
      CentsTextValue(m % 100);
      assert UnsignedText(m) == d + "." + r[1..];
      ParseFraction(d, r[1..]);
    }
    assert m / 100 * 100 + m % 100 == m;
  }

  /** An optional minus sign before a text that starts with a digit applies to its reading. */
  lemma {:induction false} ParseSigned(s: string, u: string, negative: bool, m: nat)
    requires s == (if negative then "-" else "") + u
    requires |u| > 0 && IsDigit(u[0])
    requires ParseUnsigned(u) == Some(m)
    ensures ParseAmount(s) == Signed(Some(m), negative)
  {
    if negative {
      ParseAmountMinusFirst(u);
    } else {
      assert s == u;
      ParseAmountDigitFirst(u);
    }
  }

  /** Every amount is read back exactly from its text. */
  lemma {:induction false} AmountRoundTrip(a: Amount)
    ensures ParseAmount(AmountText(a)) == Some(a)
  {
    var m := if a < 0 then -a else a;
    UnsignedRoundTrip(m);
    ParseSigned(AmountText(a), UnsignedText(m), a < 0, m);
  }

  /** Text after the number is ignored. */
  lemma {:induction false} ParseAmountPrefix(a: nat, rest: string)
    requires rest == [] || !(IsDigit(rest[0]) || rest[0] == '.')
    ensures ParseAmount(NatText(a) + rest) == Some(100 * a)
  {
    var d := NatText(a);
    var s := d + rest;
    assert IsDigit(s[0]) by { assert s[0] == d[0]; }
    calc {
      ParseAmount(s);
    == { ParseAmountDigitFirst(s); }
      Signed(ParseUnsigned(s), false);
    == { ParseDigitsThen(d, rest); }
      Signed(Some(Value(d) * 100), false);
    }
  }

  /** Digits followed by neither a digit nor a point are whole units; the rest is ignored. */
  lemma {:induction false} ParseDigitsThen(d: string, rest: string)
    requires |d| > 0 && AllDigits(d)
    requires rest == [] || !(IsDigit(rest[0]) || rest[0] == '.')
    ensures ParseUnsigned(d + rest) == Some(Value(d) * 100)
  {
    var s := d + rest;
    DigitRunOf(d, rest);
    assert s[..|d|] == d;
    assert s[|d|..] == rest;
  }

  /** Text that does not start with a number is refused. */
  lemma {:induction false} ParseAmountRefuses(s: string)
    requires |s| > 0 && !IsSpace(s[0]) && !IsDigit(s[0]) && s[0] !in "-+."
    ensures ParseAmount(s) == None
  {
    assert SkipSpace(s) == s;
    assert DigitRun(s) == 0;
  }

  // ---------------------------------------------------------------------------
  // Lines as saveToFile writes them

  const IncomeTag := "INCOME"
  const ExpenseTag := "EXPENSE"
  const BudgetTag := "BUDGET"

  function TransactionLine(tag: string, t: Transaction): string {
    tag + "," + (t.name + "," + (AmountText(t.amount) + "," + DateText(t.date)))
  }

  function BudgetLine(b: Budget): string {
    BudgetTag + "," + (b.category + "," + AmountText(b.limit))
  }

  /** One line per record, in order. */
  function TransactionLines(tag: string, ts: seq<Transaction>): (r: seq<string>)
    ensures |r| == |ts|
  {
    seq(|ts|, i requires 0 <= i < |ts| => TransactionLine(tag, ts[i]))
  }

  function BudgetLines(bs: seq<Budget>): (r: seq<string>)
    ensures |r| == |bs|
  {
    seq(|bs|, i requires 0 <= i < |bs| => BudgetLine(bs[i]))
  }

  lemma {:induction false} TransactionLinesAppend(tag: string, ts: seq<Transaction>, t: Transaction)
    ensures TransactionLines(tag, ts + [t]) == TransactionLines(tag, ts) + [TransactionLine(tag, t)]
  {
    assert forall i :: 0 <= i < |ts| ==> (ts + [t])[i] == ts[i];
  }

  lemma {:induction false} BudgetLinesAppend(bs: seq<Budget>, b: Budget)
    ensures BudgetLines(bs + [b]) == BudgetLines(bs) + [BudgetLine(b)]
  {
    assert forall i :: 0 <= i < |bs| ==> (bs + [b])[i] == bs[i];
  }

  /** What saveToFile writes: every income, then every expense, then every budget. */
  function SaveLines(l: Ledger): seq<string> {
    TransactionLines(IncomeTag, l.incomes) + TransactionLines(ExpenseTag, l.expenses) + BudgetLines(l.budgets)
  }

  // ---------------------------------------------------------------------------
  // Reading a line

  /** `getline` with ',' as delimiter: the text up to the first comma, and what follows it. */
  function NextField(s: string): (string, string) {
    var k := Find(s, ',');
    if k < |s| then (s[..k], s[k + 1..]) else (s, [])
  }

  datatype Fields = Fields(kind: string, first: string, second: string, rest: string)

  /** The type, first and second comma-separated fields, and the rest of the line. */
  function SplitFields(line: string): Fields {
    var (kind, r1) := NextField(line);
    var (first, r2) := NextField(r1);
    var (second, r3) := NextField(r2);
    Fields(kind, first, second, r3)
  }

  /** What one line contributes: nothing, a warning, or one record. */
  datatype Entry =
    | Ignored
    | BadBudget
    | BadAmount
    | IncomeEntry(t: Transaction)
    | ExpenseEntry(t: Transaction)
    | BudgetEntry(b: Budget)

  /**
   * One line of the file. Blank lines, lines with an empty type or first field and
   * lines of an unknown type are ignored; a budget or transaction whose amount does
   * not parse is refused with a warning; the date is read as far as it goes.
   */
  function ParseLine(line: string): Entry {
    if line == [] then Ignored else EntryOf(SplitFields(line))
  }

  /** The entry for the fields of a non-blank line. */
  function EntryOf(f: Fields): Entry {
    if f.kind == [] || f.first == [] then Ignored
    else if f.kind == BudgetTag then
      match ParseAmount(f.second)
      case None => BadBudget
      case Some(a) => BudgetEntry(Budget(f.first, a))
    else if f.kind == IncomeTag || f.kind == ExpenseTag then
      match ParseAmount(f.second)
      case None => BadAmount
      case Some(a) =>
        var t := Transaction(a, ParseDate(f.rest), f.first);
        if f.kind == IncomeTag then IncomeEntry(t) else ExpenseEntry(t)
    else Ignored
  }

  lemma {:induction false} NextFieldBefore(p: string, rest: string)
    requires ',' !in p
    ensures NextField(p + "," + rest) == (p, rest)
  {
    var s := p + "," + rest;
    assert s == p + [','] + rest;
    FindFirst(p, ',', rest);
    assert s[..|p|] == p;
    assert s[|p| + 1..] == rest;
  }

  lemma {:induction false} NextFieldLast(p: string)
    requires ',' !in p
    ensures NextField(p) == (p, [])
  {
    FindAbsent(p, ',');
  }

  /** A name that survives the line format: non-empty, with no comma and no line break. */
  predicate CleanName(s: string) {
    s != [] && ',' !in s && '\n' !in s
  }

  lemma {:induction false} NoCommaInAmount(a: Amount)
    ensures ',' !in AmountText(a) && '\n' !in AmountText(a)
  {
    AmountTextChars(a);
  }

  lemma {:induction false} NoCommaInDate(d: Date)
    ensures ',' !in DateText(d) && '\n' !in DateText(d)
  {
    DateTextChars(d);
  }

  lemma {:induction false} SplitTransactionLine(tag: string, t: Transaction)
    requires ',' !in tag && ',' !in t.name
    ensures SplitFields(TransactionLine(tag, t)) == Fields(tag, t.name, AmountText(t.amount), DateText(t.date))
  {
    var amount := AmountText(t.amount);
    var date := DateText(t.date);
    NoCommaInAmount(t.amount);
    NextFieldBefore(tag, t.name + "," + (amount + "," + date));
    NextFieldBefore(t.name, amount + "," + date);
    NextFieldBefore(amount, date);
  }

  lemma {:induction false} SplitBudgetLine(b: Budget)
    requires ',' !in b.category
    ensures SplitFields(BudgetLine(b)) == Fields(BudgetTag, b.category, AmountText(b.limit), [])
  {
    var amount := AmountText(b.limit);
    NoCommaInAmount(b.limit);
    NextFieldBefore(BudgetTag, b.category + "," + amount);
    NextFieldBefore(b.category, amount);
    NextFieldLast(amount);
  }

  /** A saved transaction line is read back as the same record. */
  lemma {:induction false} ParseTransactionLine(tag: string, t: Transaction)
    requires tag == IncomeTag || tag == ExpenseTag
    requires CleanName(t.name)
    ensures ParseLine(TransactionLine(tag, t)) == if tag == IncomeTag then IncomeEntry(t) else ExpenseEntry(t)
  {
    var line := TransactionLine(tag, t);
    SplitTransactionLine(tag, t);
    assert line != [] by { assert line[0] == tag[0]; }
    AmountRoundTrip(t.amount);
    DateTextRoundTrip(t.date);
    var f := Fields(tag, t.name, AmountText(t.amount), DateText(t.date));
    EntryOfTransaction(f, t);
  }

  lemma {:induction false} EntryOfTransaction(f: Fields, t: Transaction)
    requires f.kind == IncomeTag || f.kind == ExpenseTag
    requires f.first == t.name && t.name != []
    requires ParseAmount(f.second) == Some(t.amount)
    requires ParseDate(f.rest) == t.date
    ensures EntryOf(f) == if f.kind == IncomeTag then IncomeEntry(t) else ExpenseEntry(t)
  {
  }

  /** A saved budget line is read back as the same budget. */
  lemma {:induction false} ParseBudgetLine(b: Budget)
    requires CleanName(b.category)
    ensures ParseLine(BudgetLine(b)) == BudgetEntry(b)
  {
    var line := BudgetLine(b);
    SplitBudgetLine(b);
    assert line != [] by { assert line[0] == BudgetTag[0]; }
    AmountRoundTrip(b.limit);
    assert EntryOf(Fields(BudgetTag, b.category, AmountText(b.limit), [])) == BudgetEntry(b);
  }

  /** A transaction line whose date field is missing still loads, with the default date. */
  lemma {:induction false} ParseLineWithoutDate(name: string, a: Amount)
    requires CleanName(name)
    ensures ParseLine(IncomeTag + "," + (name + "," + AmountText(a)))
         == IncomeEntry(Transaction(a, DateTime(DefaultYear, DefaultMonth, DefaultDay, TimeOfDay(0, 0, 0)), name))
  {
    var amount := AmountText(a);
    var line := IncomeTag + "," + (name + "," + amount);
    var f := Fields(IncomeTag, name, amount, []);
    var t := Transaction(a, DateTime(DefaultYear, DefaultMonth, DefaultDay, TimeOfDay(0, 0, 0)), name);
    calc {
      ParseLine(line);
    == { assert line != [] by { assert line[0] == IncomeTag[0]; } }
      EntryOf(SplitFields(line));
    == { SplitLineWithoutDate(name, a); }
      EntryOf(f);
    == { AmountRoundTrip(a); ParseDateUnreadable([]); EntryOfTransaction(f, t); }
      IncomeEntry(t);
    }
  }

  lemma {:induction false} SplitLineWithoutDate(name: string, a: Amount)
    requires ',' !in name
    ensures SplitFields(IncomeTag + "," + (name + "," + AmountText(a))) == Fields(IncomeTag, name, AmountText(a), [])
  {
    var amount := AmountText(a);
    NoCommaInAmount(a);
    NextFieldBefore(IncomeTag, name + "," + amount);
    NextFieldBefore(name, amount);
    NextFieldLast(amount);
  }

  /** Blank lines, lines without a type or first field, and unknown types are ignored. */
  lemma {:induction false} IgnoredLines(line: string)
    requires line == [] || SplitFields(line).kind == [] || SplitFields(line).first == []
             || SplitFields(line).kind !in {BudgetTag, IncomeTag, ExpenseTag}
    ensures ParseLine(line) == Ignored
  {
    if line != [] {
      var f := SplitFields(line);
      assert ParseLine(line) == EntryOf(f);
    }
  }

  /** A line of a known type whose amount does not parse is refused with a warning. */
  lemma {:induction false} RefusedLines(line: string)
    requires line != [] && SplitFields(line).kind != [] && SplitFields(line).first != []
    requires ParseAmount(SplitFields(line).second) == None
    ensures SplitFields(line).kind == BudgetTag <==> ParseLine(line) == BadBudget
    ensures SplitFields(line).kind in {IncomeTag, ExpenseTag} <==> ParseLine(line) == BadAmount
  {
    var f := SplitFields(line);
    assert ParseLine(line) == EntryOf(f);
    EntryOfRefused(f);
  }

  lemma {:induction false} EntryOfRefused(f: Fields)
    requires f.kind != [] && f.first != [] && ParseAmount(f.second) == None
    ensures f.kind == BudgetTag <==> EntryOf(f) == BadBudget
    ensures f.kind in {IncomeTag, ExpenseTag} <==> EntryOf(f) == BadAmount
  {
  }

  // ---------------------------------------------------------------------------
  // Reading a whole file

  datatype Warning = InvalidBudget(line: nat) | InvalidAmount(line: nat)

  /** Every line read on its own, in order. */
  function Entries(lines: seq<string>): (es: seq<Entry>)
    ensures |es| == |lines| && forall i :: 0 <= i < |lines| ==> es[i] == ParseLine(lines[i])
  {
    if lines == [] then [] else Entries(lines[..|lines| - 1]) + [ParseLine(lines[|lines| - 1])]
  }

  /** The ledger after one more line: the record, if any, is appended to its sequence. */
  function Apply(l: Ledger, e: Entry): Ledger {
    match e
    case IncomeEntry(t) => l.(incomes := l.incomes + [t])
    case ExpenseEntry(t) => l.(expenses := l.expenses + [t])
    case BudgetEntry(b) => l.(budgets := l.budgets + [b])
    case _ => l
  }

  function LoadEntries(start: Ledger, es: seq<Entry>): Ledger {
    if es == [] then start else Apply(LoadEntries(start, es[..|es| - 1]), es[|es| - 1])
  }

  /** loadFromFile: every line applied in order to the ledger that was already there. */
  function Load(start: Ledger, lines: seq<string>): Ledger {
    LoadEntries(start, Entries(lines))
  }

  /** The warning printed for line number n (counting from 1), if any. */
  function WarningFor(e: Entry, n: nat): seq<Warning> {
    match e
    case BadBudget => [InvalidBudget(n)]
    case BadAmount => [InvalidAmount(n)]
    case _ => []
  }

  function WarningsOf(es: seq<Entry>): seq<Warning> {
    if es == [] then [] else WarningsOf(es[..|es| - 1]) + WarningFor(es[|es| - 1], |es|)
  }

  /** The warnings loadFromFile prints, in order, with 1-based line numbers. */
  function Warnings(lines: seq<string>): seq<Warning> {
    WarningsOf(Entries(lines))
  }

  const Empty := Ledger([], [], [])

  lemma {:induction false} EntriesAppend(a: seq<string>, b: seq<string>)
    ensures Entries(a + b) == Entries(a) + Entries(b)
  {
    if b == [] {
      assert a + b == a;
    } else {
      var b' := b[..|b| - 1];
      assert (a + b)[..|a + b| - 1] == a + b';
      assert (a + b)[|a + b| - 1] == b[|b| - 1];
      EntriesAppend(a, b');
    }
  }

  lemma {:induction false} LoadEntriesAppend(start: Ledger, a: seq<Entry>, b: seq<Entry>)
    ensures LoadEntries(start, a + b) == LoadEntries(LoadEntries(start, a), b)
  {
    if b == [] {
      assert a + b == a;
    } else {
      var b' := b[..|b| - 1];
      assert (a + b)[..|a + b| - 1] == a + b';
      assert (a + b)[|a + b| - 1] == b[|b| - 1];
      LoadEntriesAppend(start, a, b');
    }
  }

  /** Reading two pieces of a file one after the other is reading the whole. */
  lemma {:induction false} LoadAppend(start: Ledger, a: seq<string>, b: seq<string>)
    ensures Load(start, a + b) == Load(Load(start, a), b)
  {
    EntriesAppend(a, b);
    LoadEntriesAppend(start, Entries(a), Entries(b));
  }

  lemma {:induction false} LoadEntriesOnlyAppends(start: Ledger, es: seq<Entry>)
    ensures start.incomes <= LoadEntries(start, es).incomes
    ensures start.expenses <= LoadEntries(start, es).expenses
    ensures start.budgets <= LoadEntries(start, es).budgets
    ensures |LoadEntries(start, es).incomes| + |LoadEntries(start, es).expenses| + |LoadEntries(start, es).budgets|
         <= |start.incomes| + |start.expenses| + |start.budgets| + |es|
  {
    if es != [] {
      LoadEntriesOnlyAppends(start, es[..|es| - 1]);
    }
  }

  /**
   * The loader never changes or removes what is already there, and each line adds
   * at most one record.
   */
  lemma {:induction false} LoadOnlyAppends(start: Ledger, lines: seq<string>)
    ensures start.incomes <= Load(start, lines).incomes
    ensures start.expenses <= Load(start, lines).expenses
    ensures start.budgets <= Load(start, lines).budgets
    ensures |Load(start, lines).incomes| + |Load(start, lines).expenses| + |Load(start, lines).budgets|
         <= |start.incomes| + |start.expenses| + |start.budgets| + |lines|
  {
    LoadEntriesOnlyAppends(start, Entries(lines));
  }

  /** One more line: its entry is applied to the ledger so far, and its warning, if any, is added. */
  lemma {:induction false} LoadNextLine(start: Ledger, lines: seq<string>, line: string)
    ensures Load(start, lines + [line]) == Apply(Load(start, lines), ParseLine(line))
    ensures Warnings(lines + [line]) == Warnings(lines) + WarningFor(ParseLine(line), |lines| + 1)
  {
    EntriesAppend(lines, [line]);
    var es := Entries(lines + [line]);
    assert es[..|es| - 1] == Entries(lines);
  }

  /** A line that is ignored or refused leaves the ledger as it was. */
  lemma {:induction false} LoadSkipsLine(start: Ledger, lines: seq<string>, line: string)
    requires ParseLine(line) in {Ignored, BadBudget, BadAmount}
    ensures Load(start, lines + [line]) == Load(start, lines)
    ensures Warnings(lines + [line]) == Warnings(lines) + WarningFor(ParseLine(line), |lines| + 1)
  {
    LoadNextLine(start, lines, line);
  }

  /** The entry a transaction line of the given type yields. */
  function TransactionEntry(tag: string, t: Transaction): Entry {
    if tag == IncomeTag then IncomeEntry(t) else ExpenseEntry(t)
  }

  /** The ledger with records appended to the sequence the type names. */
  function AddTransactions(l: Ledger, tag: string, ts: seq<Transaction>): Ledger {
    if tag == IncomeTag then l.(incomes := l.incomes + ts) else l.(expenses := l.expenses + ts)
  }

  /** Entries that each hold a transaction of one type append those transactions, in order. */
  lemma {:induction false} LoadTransactions(start: Ledger, tag: string, es: seq<Entry>, ts: seq<Transaction>)
    requires |es| == |ts|
    requires forall i :: 0 <= i < |es| ==> es[i] == TransactionEntry(tag, ts[i])
    ensures LoadEntries(start, es) == AddTransactions(start, tag, ts)
  {
    if es == [] {
      assert start.incomes + ts == start.incomes;
      assert start.expenses + ts == start.expenses;
    } else {
      var n := |es| - 1;
      LoadTransactions(start, tag, es[..n], ts[..n]);
      assert ts[..n] + [ts[n]] == ts;
      assert start.incomes + ts[..n] + [ts[n]] == start.incomes + ts;
      assert start.expenses + ts[..n] + [ts[n]] == start.expenses + ts;
    }
  }

  /** Entries that each hold a budget append those budgets, in order. */
  lemma {:induction false} LoadBudgets(start: Ledger, es: seq<Entry>, bs: seq<Budget>)
    requires |es| == |bs|
    requires forall i :: 0 <= i < |es| ==> es[i] == BudgetEntry(bs[i])
    ensures LoadEntries(start, es) == start.(budgets := start.budgets + bs)
  {
    if es == [] {
      assert start.budgets + bs == start.budgets;
    } else {
      var n := |es| - 1;
      LoadBudgets(start, es[..n], bs[..n]);
      assert bs[..n] + [bs[n]] == bs;
      assert start.budgets + bs[..n] + [bs[n]] == start.budgets + bs;
    }
  }

  /** An entry that holds a record, or nothing, prints no warning. */
  predicate Quiet(e: Entry) {
    !e.BadBudget? && !e.BadAmount?
  }

  /** Entries print no warning exactly when each of them is quiet. */
  lemma {:induction false} WarningsOfQuiet(es: seq<Entry>)
    ensures WarningsOf(es) == [] <==> forall i :: 0 <= i < |es| ==> Quiet(es[i])
  {
    if es != [] {
      var n := |es| - 1;
      WarningsOfQuiet(es[..n]);
      assert forall i :: 0 <= i < n ==> es[..n][i] == es[i];
    }
  }

  /** The entries transactions of one type are read back as, one per record. */
  function TransactionEntries(tag: string, ts: seq<Transaction>): (es: seq<Entry>)
    ensures |es| == |ts| && forall i :: 0 <= i < |ts| ==> es[i] == TransactionEntry(tag, ts[i])
  {
    if ts == [] then [] else TransactionEntries(tag, ts[..|ts| - 1]) + [TransactionEntry(tag, ts[|ts| - 1])]
  }

  function BudgetEntries(bs: seq<Budget>): (es: seq<Entry>)
    ensures |es| == |bs| && forall i :: 0 <= i < |bs| ==> es[i] == BudgetEntry(bs[i])
  {
    if bs == [] then [] else BudgetEntries(bs[..|bs| - 1]) + [BudgetEntry(bs[|bs| - 1])]
  }

  /** Saved transaction lines with clean names read back as their records, in order. */
  lemma {:induction false} TransactionLinesParse(tag: string, ts: seq<Transaction>)
    requires tag == IncomeTag || tag == ExpenseTag
    requires forall i :: 0 <= i < |ts| ==> CleanName(ts[i].name)
    ensures Entries(TransactionLines(tag, ts)) == TransactionEntries(tag, ts)
  {
    forall i | 0 <= i < |ts| ensures ParseLine(TransactionLines(tag, ts)[i]) == TransactionEntry(tag, ts[i]) {
      ParseTransactionLine(tag, ts[i]);
    }
  }

  /** Saved budget lines with clean categories read back as their budgets, in order. */
  lemma {:induction false} BudgetLinesParse(bs: seq<Budget>)
    requires forall i :: 0 <= i < |bs| ==> CleanName(bs[i].category)
    ensures Entries(BudgetLines(bs)) == BudgetEntries(bs)
  {
    forall i | 0 <= i < |bs| ensures ParseLine(BudgetLines(bs)[i]) == BudgetEntry(bs[i]) {
      ParseBudgetLine(bs[i]);
    }
  }

  /** Loading saved transaction lines with clean names appends their records, in order, and prints nothing. */
  lemma {:induction false} LoadTransactionLines(start: Ledger, tag: string, ts: seq<Transaction>)
    requires tag == IncomeTag || tag == ExpenseTag
    requires forall i :: 0 <= i < |ts| ==> CleanName(ts[i].name)
    ensures Load(start, TransactionLines(tag, ts)) == AddTransactions(start, tag, ts)
    ensures Warnings(TransactionLines(tag, ts)) == []
  {
    var es := TransactionEntries(tag, ts);
    assert LoadEntries(start, es) == AddTransactions(start, tag, ts) by {
      LoadTransactions(start, tag, es, ts);
    }
    assert WarningsOf(es) == [] by {
      assert forall i :: 0 <= i < |es| ==> Quiet(es[i]);
      WarningsOfQuiet(es);
    }
    assert Entries(TransactionLines(tag, ts)) == es by { TransactionLinesParse(tag, ts); }
  }

  /**
   * Loading saved budget lines appends their budgets, in order, and prints nothing;
   * no check for a category that is already there is made.
   */
  lemma {:induction false} LoadBudgetLines(start: Ledger, bs: seq<Budget>)
    requires forall i :: 0 <= i < |bs| ==> CleanName(bs[i].category)
    ensures Load(start, BudgetLines(bs)) == start.(budgets := start.budgets + bs)
    ensures Warnings(BudgetLines(bs)) == []
  {
    var es := BudgetEntries(bs);
    assert LoadEntries(start, es) == start.(budgets := start.budgets + bs) by {
      LoadBudgets(start, es, bs);
    }
    assert WarningsOf(es) == [] by {
      assert forall i :: 0 <= i < |es| ==> Quiet(es[i]);
      WarningsOfQuiet(es);
    }
    assert Entries(BudgetLines(bs)) == es by { BudgetLinesParse(bs); }
  }

  /** Every name in the ledger survives the line format. */
  predicate Saveable(l: Ledger) {
    && (forall i :: 0 <= i < |l.incomes| ==> CleanName(l.incomes[i].name))
    && (forall i :: 0 <= i < |l.expenses| ==> CleanName(l.expenses[i].name))
    && (forall i :: 0 <= i < |l.budgets| ==> CleanName(l.budgets[i].category))
  }

  /** The entries of the saved lines: the incomes', then the expenses', then the budgets'. */
  lemma {:induction false} SavedEntries(l: Ledger)
    requires Saveable(l)
    ensures Entries(SaveLines(l))
         == TransactionEntries(IncomeTag, l.incomes) + TransactionEntries(ExpenseTag, l.expenses) + BudgetEntries(l.budgets)
  {
    var li := TransactionLines(IncomeTag, l.incomes);
    var le := TransactionLines(ExpenseTag, l.expenses);
    EntriesAppend(li, le);
    EntriesAppend(li + le, BudgetLines(l.budgets));
    TransactionLinesParse(IncomeTag, l.incomes);
    TransactionLinesParse(ExpenseTag, l.expenses);
    BudgetLinesParse(l.budgets);
  }

  /** The entries of a ledger's records, in saved order, load into an empty ledger as that ledger. */
  lemma {:induction false} LoadRecordEntries(l: Ledger)
    ensures LoadEntries(Empty, TransactionEntries(IncomeTag, l.incomes) + TransactionEntries(ExpenseTag, l.expenses)
                               + BudgetEntries(l.budgets)) == l
  {
    var ei := TransactionEntries(IncomeTag, l.incomes);
    var ee := TransactionEntries(ExpenseTag, l.expenses);
    var eb := BudgetEntries(l.budgets);
    calc {
      LoadEntries(Empty, ei + ee + eb);
    == { LoadEntriesAppend(Empty, ei + ee, eb); LoadEntriesAppend(Empty, ei, ee); }
      LoadEntries(LoadEntries(LoadEntries(Empty, ei), ee), eb);
    == { LoadTransactions(Empty, IncomeTag, ei, l.incomes); assert [] + l.incomes == l.incomes; }
      LoadEntries(LoadEntries(Ledger(l.incomes, [], []), ee), eb);
    == { LoadTransactions(Ledger(l.incomes, [], []), ExpenseTag, ee, l.expenses); assert [] + l.expenses == l.expenses; }
      LoadEntries(Ledger(l.incomes, l.expenses, []), eb);
    == { LoadBudgets(Ledger(l.incomes, l.expenses, []), eb, l.budgets); assert [] + l.budgets == l.budgets; }
      l;
    }
  }

  /** The entries of a ledger's records print no warning. */
  lemma {:induction false} RecordEntriesQuiet(l: Ledger)
    ensures WarningsOf(TransactionEntries(IncomeTag, l.incomes) + TransactionEntries(ExpenseTag, l.expenses)
                       + BudgetEntries(l.budgets)) == []
  {
    var es := TransactionEntries(IncomeTag, l.incomes) + TransactionEntries(ExpenseTag, l.expenses)
              + BudgetEntries(l.budgets);
    forall i | 0 <= i < |es| ensures Quiet(es[i]) {
    }
    WarningsOfQuiet(es);
  }

  /** Loading the saved lines of a ledger into an empty one gives that ledger back, with no warning. */
  lemma {:induction false} SaveLoadRoundTrip(l: Ledger)
    requires Saveable(l)
    ensures Load(Empty, SaveLines(l)) == l
    ensures Warnings(SaveLines(l)) == []
  {
    SavedEntries(l);
    LoadRecordEntries(l);
    RecordEntriesQuiet(l);
  }

  /**
   * The loader keeps what the validating operations would refuse: two lines for
   * the same category become two budgets.
   */
  lemma {:induction false} LoadKeepsDuplicateBudgets(category: string, first: Amount, second: Amount)
    requires CleanName(category)
    ensures Load(Empty, BudgetLines([Budget(category, first), Budget(category, second)])).budgets
         == [Budget(category, first), Budget(category, second)]
    ensures !StoreInvariant(Load(Empty, BudgetLines([Budget(category, first), Budget(category, second)])))
  {
    var bs := [Budget(category, first), Budget(category, second)];
    assert Load(Empty, BudgetLines(bs)).budgets == bs by {
      LoadBudgetLines(Empty, bs);
      assert [] + bs == bs;
    }
    assert !DistinctCategories(bs) by { assert bs[0].category == bs[1].category; }
  }

  /** The loader keeps a negative amount as it is. */
  lemma {:induction false} LoadKeepsNegativeAmount(t: Transaction)
    requires CleanName(t.name) && t.amount < 0
    ensures Load(Empty, TransactionLines(IncomeTag, [t])).incomes == [t]
    ensures !StoreInvariant(Load(Empty, TransactionLines(IncomeTag, [t])))
  {
    assert Load(Empty, TransactionLines(IncomeTag, [t])).incomes == [t] by {
      LoadTransactionLines(Empty, IncomeTag, [t]);
      assert [] + [t] == [t];
    }
    assert !WellFormed([t][0]);
  }

  // ---------------------------------------------------------------------------
  // The file as text

  /** The file's contents: every line followed by a line break. */
  function FileText(lines: seq<string>): string {
    if lines == [] then [] else lines[0] + "\n" + FileText(lines[1..])
  }

  /** The lines `getline` reads from a text: split at line breaks, a last unterminated line included. */
  function SplitLines(text: string): seq<string>
    decreases |text|
  {
    if text == [] then []
    else
      var k := Find(text, '\n');
      if k < |text| then [text[..k]] + SplitLines(text[k + 1..]) else [text]
  }

  /** Lines without line breaks are read back from the file text exactly. */
  lemma {:induction false} SplitFileText(lines: seq<string>)
    requires forall i :: 0 <= i < |lines| ==> '\n' !in lines[i]
    ensures SplitLines(FileText(lines)) == lines
  {
    if lines != [] {
      var rest := FileText(lines[1..]);
      var text := FileText(lines);
      assert text == lines[0] + ['\n'] + rest;
      FindFirst(lines[0], '\n', rest);
      assert text[..|lines[0]|] == lines[0];
      assert text[|lines[0]| + 1..] == rest;
      SplitFileText(lines[1..]);
      assert [lines[0]] + lines[1..] == lines;
    }
  }

  lemma {:induction false} TransactionLineUnbroken(tag: string, t: Transaction)
    requires tag == IncomeTag || tag == ExpenseTag
    requires '\n' !in t.name
    ensures '\n' !in TransactionLine(tag, t)
  {
    NoCommaInAmount(t.amount);
    NoCommaInDate(t.date);
  }

  lemma {:induction false} BudgetLineUnbroken(b: Budget)
    requires '\n' !in b.category
    ensures '\n' !in BudgetLine(b)
  {
    NoCommaInAmount(b.limit);
  }

  /** No saved line of a saveable ledger holds a line break. */
  lemma {:induction false} SavedLinesHaveNoBreaks(l: Ledger)
    requires Saveable(l)
    ensures forall i :: 0 <= i < |SaveLines(l)| ==> '\n' !in SaveLines(l)[i]
  {
    var li := TransactionLines(IncomeTag, l.incomes);
    var le := TransactionLines(ExpenseTag, l.expenses);
    var lb := BudgetLines(l.budgets);
    forall i | 0 <= i < |li| ensures '\n' !in li[i] {
      TransactionLineUnbroken(IncomeTag, l.incomes[i]);
    }
    forall i | 0 <= i < |le| ensures '\n' !in le[i] {
      TransactionLineUnbroken(ExpenseTag, l.expenses[i]);
    }
    forall i | 0 <= i < |lb| ensures '\n' !in lb[i] {
      BudgetLineUnbroken(l.budgets[i]);
    }
    assert SaveLines(l) == li + le + lb;
  }

  /** Writing the file and reading it back gives the ledger back. */
  lemma {:induction false} FileRoundTrip(l: Ledger)
    requires Saveable(l)
    ensures Load(Empty, SplitLines(FileText(SaveLines(l)))) == l
  {
    SavedLinesHaveNoBreaks(l);
    SplitFileText(SaveLines(l));
    SaveLoadRoundTrip(l);
  }
}
