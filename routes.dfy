/**
 * backend/routes.js without its HTTP plumbing: POST /user's get-or-create
 * by email, the create routes' binding of request fields to columns, and
 * the totals, per-category grouping and selections that the read routes
 * compute over one user's rows. A request body is a Json value, a route's
 * answer is the value it computes, and a thrown error is an Err.
 */
module Routes {
  import opened Js
  import opened Store
  import Executor
  import Prompts

  // ---------------------------------------------------------------- binding request fields

  /** Ids are positive, so 0 stands for a stored value that matches no user. */
  function IdOrNoUser(x: real): int {
    if x == x.Floor as real then x.Floor else 0
  }

  /**
   * A request value bound to the INTEGER column `user_id`: `undefined` and
   * null are NULL, an integral number or numeric text is that id, any other
   * number or text is stored as it is and so matches no user (0 here);
   * booleans, arrays and objects cannot be bound.
   */
  function IdValue(v: Option<Json>): (r: Result<Option<int>>)
    ensures r == Ok(None) <==> v.None? || v.value.JNull?
    ensures r.Err? <==> v.Some? && (v.value.JBool? || v.value.JArr? || v.value.JObj?)
    ensures v.Some? && v.value.JNum? && v.value.n == v.value.n.Floor as real ==> r == Ok(Some(v.value.n.Floor))
  {
    match v
    case None => Ok(None)
    case Some(JNull) => Ok(None)
    case Some(JNum(n)) => Ok(Some(IdOrNoUser(n)))
    case Some(JStr(s)) =>
      (match StringToNum(s)
       case Finite(x) => if Trim(s) != "" then Ok(Some(IdOrNoUser(x))) else Ok(Some(0))
       case NaN => Ok(Some(0)))
    case Some(_) => Err(BindError)
  }

  /** `flag ? 1 : 0` */
  function Flag(v: Option<Json>): (b: int)
    ensures b == 1 <==> TruthyOpt(v)
    ensures b == 0 || b == 1
  {
    if TruthyOpt(v) then 1 else 0
  }

  // ---------------------------------------------------------------- POST /user

  /**
   * POST /user: the user with the body's email when there is one, with no
   * insert; otherwise the user inserted from the body's name and email.
   */
  function PostUserStep(t: Tables, body: Json): (r: (Result<User>, Tables))
    ensures r.0.Err? ==> r.1 == t
    ensures r.0.Ok? ==> r.0.value in r.1.users
    ensures r.0.Ok? ==> r.1 == t || r.1 == t.(users := t.users + [r.0.value], lastUserId := r.0.value.id)
    ensures r.0.Ok? ==> TextValue(Field(body, "email")) == Ok(r.0.value.email)
    ensures r.0.Ok? && r.1 != t ==> TextValue(Field(body, "name")) == Ok(Some(r.0.value.name))
  {
    var email := TextValue(Field(body, "email"));
    if email.Err? then (Err(email.error), t)
    else
      var existing := UserByEmail(t, email.value);
      if existing.Some? then (Ok(existing.value), t)
      else
        var name := TextValue(Field(body, "name"));
        if name.Err? then (Err(name.error), t) else AddUser(t, name.value, email.value)
  }

  /** An email that is already registered returns that user and inserts nothing. */
  lemma PostUserFindsExisting(t: Tables, body: Json, e: string)
    requires TextValue(Field(body, "email")) == Ok(Some(e))
    requires FindUserByEmail(t.users, e).Some?
    ensures PostUserStep(t, body) == (Ok(FindUserByEmail(t.users, e).value), t)
  {
  }

  lemma {:induction false} FindUserAfterAppend(users: seq<User>, u: User, e: string)
    requires FindUserByEmail(users, e).None? && u.email == Some(e)
    ensures FindUserByEmail(users + [u], e) == Some(u)
  {
    if users != [] {
      assert (users + [u])[1..] == users[1..] + [u];
      FindUserAfterAppend(users[1..], u, e);
    }
  }

  /**
   * With an email, POST /user is idempotent: repeating a successful call
   * returns the same user and changes nothing.
   */
  lemma PostUserIdempotent(t: Tables, body: Json, e: string)
    requires TextValue(Field(body, "email")) == Ok(Some(e))
    requires PostUserStep(t, body).0.Ok?
    ensures var (r, t') := PostUserStep(t, body);
            PostUserStep(t', body) == (r, t')
  {
    var (r, t') := PostUserStep(t, body);
    if FindUserByEmail(t.users, e).None? {
      FindUserAfterAppend(t.users, r.value, e);
    }
  }

  /** Without an email nothing is found, so every successful call inserts a new user. */
  lemma PostUserWithoutEmailInserts(t: Tables, body: Json)
    requires Field(body, "email").None? || Field(body, "email") == Some(JNull)
    requires PostUserStep(t, body).0.Ok?
    ensures var (r, t') := PostUserStep(t, body);
            r.value.id == t.lastUserId + 1 && t'.users == t.users + [r.value]
  {
  }

  // ---------------------------------------------------------------- the create routes

  /** POST /income: `userId`, `amount`, `source` and `frequency` bound as they are. */
  function PostIncomeStep(t: Tables, body: Json): (r: (Result<IncomeRow>, Tables))
    ensures r.0.Err? ==> r.1 == t
    ensures r.0.Ok? ==> r.1 == t.(income := t.income + [r.0.value], lastIncomeId := r.0.value.id)
    ensures r.0.Ok? ==> && IdValue(Field(body, "userId")) == Ok(Some(r.0.value.userId))
                        && NumberValue(Field(body, "amount")) == Ok(Some(r.0.value.amount))
                        && TextValue(Field(body, "source")) == Ok(Some(r.0.value.source))
                        && TextValue(Field(body, "frequency")) == Ok(Some(r.0.value.frequency))
  {
    var userId := IdValue(Field(body, "userId"));
    var amount := NumberValue(Field(body, "amount"));
    var source := TextValue(Field(body, "source"));
    var frequency := TextValue(Field(body, "frequency"));
    if userId.Err? then (Err(userId.error), t)
    else if amount.Err? then (Err(amount.error), t)
    else if source.Err? then (Err(source.error), t)
    else if frequency.Err? then (Err(frequency.error), t)
    else AddIncome(t, userId.value, amount.value, source.value, frequency.value)
  }

  /** POST /expenses: the fields bound as they are, except `recurring`, which becomes 1 or 0. */
  function PostExpenseStep(t: Tables, body: Json): (r: (Result<ExpenseRow>, Tables))
    ensures r.0.Err? ==> r.1 == t
    ensures r.0.Ok? ==> r.1 == t.(expenses := t.expenses + [r.0.value], lastExpenseId := r.0.value.id)
    ensures r.0.Ok? ==> r.0.value.recurring == (if TruthyOpt(Field(body, "recurring")) then 1 else 0)
    ensures r.0.Ok? ==> && IdValue(Field(body, "userId")) == Ok(Some(r.0.value.userId))
                        && NumberValue(Field(body, "amount")) == Ok(Some(r.0.value.amount))
                        && TextValue(Field(body, "category")) == Ok(Some(r.0.value.category))
                        && TextValue(Field(body, "description")) == Ok(r.0.value.description)
                        && TextValue(Field(body, "date")) == Ok(Some(r.0.value.date))
  {
    var userId := IdValue(Field(body, "userId"));
    var amount := NumberValue(Field(body, "amount"));
    var category := TextValue(Field(body, "category"));
    var description := TextValue(Field(body, "description"));
    var date := TextValue(Field(body, "date"));
    if userId.Err? then (Err(userId.error), t)
    else if amount.Err? then (Err(amount.error), t)
    else if category.Err? then (Err(category.error), t)
    else if description.Err? then (Err(description.error), t)
    else if date.Err? then (Err(date.error), t)
    else AddExpense(t, userId.value, amount.value, category.value, description.value, date.value,
                    Flag(Field(body, "recurring")))
  }

  /** POST /debts: the fields bound as they are; the omitted `due_date` takes its DEFAULT 1. */
  function PostDebtStep(t: Tables, body: Json): (r: (Result<DebtRow>, Tables))
    ensures r.0.Err? ==> r.1 == t
    ensures r.0.Ok? ==> r.1 == t.(debts := t.debts + [r.0.value], lastDebtId := r.0.value.id)
    ensures r.0.Ok? ==> r.0.value.dueDate == Some(1.0)
    ensures r.0.Ok? ==> && IdValue(Field(body, "userId")) == Ok(Some(r.0.value.userId))
                        && TextValue(Field(body, "name")) == Ok(Some(r.0.value.name))
                        && NumberValue(Field(body, "balance")) == Ok(Some(r.0.value.balance))
                        && NumberValue(Field(body, "interestRate")) == Ok(r.0.value.interestRate)
                        && NumberValue(Field(body, "minimumPayment")) == Ok(Some(r.0.value.minimumPayment))
                        && TextValue(Field(body, "type")) == Ok(r.0.value.kind)
  {
    var userId := IdValue(Field(body, "userId"));
    var name := TextValue(Field(body, "name"));
    var balance := NumberValue(Field(body, "balance"));
    var interestRate := NumberValue(Field(body, "interestRate"));
    var minimumPayment := NumberValue(Field(body, "minimumPayment"));
    var kind := TextValue(Field(body, "type"));
    if userId.Err? then (Err(userId.error), t)
    else if name.Err? then (Err(name.error), t)
    else if balance.Err? then (Err(balance.error), t)
    else if interestRate.Err? then (Err(interestRate.error), t)
    else if minimumPayment.Err? then (Err(minimumPayment.error), t)
    else if kind.Err? then (Err(kind.error), t)
    else AddDebt(t, userId.value, name.value, balance.value, interestRate.value, minimumPayment.value, Some(1.0), kind.value)
  }

  /**
   * POST /savings: `currentAmount || 0` is stored, so a missing or falsy
   * current amount is 0, never NULL; the omitted `monthly_contribution`
   * takes its DEFAULT 0.
   */
  function PostSavingsStep(t: Tables, body: Json): (r: (Result<SavingsRow>, Tables))
    ensures r.0.Err? ==> r.1 == t
    ensures r.0.Ok? ==> r.1 == t.(savings := t.savings + [r.0.value], lastSavingsId := r.0.value.id)
    ensures r.0.Ok? && !TruthyOpt(Field(body, "currentAmount")) ==> r.0.value.currentAmount == Some(0.0)
    ensures r.0.Ok? ==> r.0.value.currentAmount.Some? && r.0.value.monthlyContribution == Some(0.0)
    ensures r.0.Ok? && TruthyOpt(Field(body, "currentAmount")) ==>
              NumberValue(Field(body, "currentAmount")) == Ok(r.0.value.currentAmount)
    ensures r.0.Ok? ==> && IdValue(Field(body, "userId")) == Ok(Some(r.0.value.userId))
                        && TextValue(Field(body, "name")) == Ok(Some(r.0.value.name))
                        && NumberValue(Field(body, "targetAmount")) == Ok(Some(r.0.value.targetAmount))
                        && TextValue(Field(body, "targetDate")) == Ok(r.0.value.targetDate)
  {
    var userId := IdValue(Field(body, "userId"));
    var name := TextValue(Field(body, "name"));
    var targetAmount := NumberValue(Field(body, "targetAmount"));
    var currentAmount := NumberValue(Some(Or(Field(body, "currentAmount"), JNum(0.0))));
    var targetDate := TextValue(Field(body, "targetDate"));
    if userId.Err? then (Err(userId.error), t)
    else if name.Err? then (Err(name.error), t)
    else if targetAmount.Err? then (Err(targetAmount.error), t)
    else if currentAmount.Err? then (Err(currentAmount.error), t)
    else if targetDate.Err? then (Err(targetDate.error), t)
    else AddSavings(t, userId.value, name.value, targetAmount.value, currentAmount.value, targetDate.value, Some(0.0))
  }

  /** POST /bills: the fields bound as they are, except `autoPay`, which becomes 1 or 0. */
  function PostBillStep(t: Tables, body: Json): (r: (Result<BillRow>, Tables))
    ensures r.0.Err? ==> r.1 == t
    ensures r.0.Ok? ==> r.1 == t.(bills := t.bills + [r.0.value], lastBillId := r.0.value.id)
    ensures r.0.Ok? ==> r.0.value.autoPay == (if TruthyOpt(Field(body, "autoPay")) then 1 else 0)
    ensures r.0.Ok? ==> && IdValue(Field(body, "userId")) == Ok(Some(r.0.value.userId))
                        && TextValue(Field(body, "name")) == Ok(Some(r.0.value.name))
                        && NumberValue(Field(body, "amount")) == Ok(Some(r.0.value.amount))
                        && NumberValue(Field(body, "dueDate")) == Ok(Some(r.0.value.dueDate))
                        && TextValue(Field(body, "frequency")) == Ok(Some(r.0.value.frequency))
                        && TextValue(Field(body, "category")) == Ok(r.0.value.category)
  {
    var userId := IdValue(Field(body, "userId"));
    var name := TextValue(Field(body, "name"));
    var amount := NumberValue(Field(body, "amount"));
    var dueDate := NumberValue(Field(body, "dueDate"));
    var frequency := TextValue(Field(body, "frequency"));
    var category := TextValue(Field(body, "category"));
    if userId.Err? then (Err(userId.error), t)
    else if name.Err? then (Err(name.error), t)
    else if amount.Err? then (Err(amount.error), t)
    else if dueDate.Err? then (Err(dueDate.error), t)
    else if frequency.Err? then (Err(frequency.error), t)
    else if category.Err? then (Err(category.error), t)
    else AddBill(t, userId.value, name.value, amount.value, dueDate.value, frequency.value, category.value,
                 Flag(Field(body, "autoPay")))
  }

  // ---------------------------------------------------------------- GET /income/:userId

  /** The multiplier of GET /income: 1, 2.17, 4.33, and 12 for every other frequency. */
  function RouteMultiplier(frequency: string): real {
    if frequency == "monthly" then 1.0
    else if frequency == "biweekly" then 2.17
    else if frequency == "weekly" then 4.33
    else 12.0
  }

  /** One row's share of `totalMonthly`: amount × multiplier, divided by 12 for "annual". */
  function MonthlyShare(row: IncomeRow): (m: real)
    ensures row.frequency == "monthly" ==> m == row.amount
    ensures row.frequency == "biweekly" ==> m == row.amount * 2.17
    ensures row.frequency == "weekly" ==> m == row.amount * 4.33
    ensures row.frequency == "annual" ==> m == row.amount
    ensures row.frequency !in {"monthly", "biweekly", "weekly", "annual"} ==> m == row.amount * 12.0
  {
    row.amount * RouteMultiplier(row.frequency) / (if row.frequency == "annual" then 12.0 else 1.0)
  }

  /** `totalMonthly` of GET /income, before `toFixed(2)`. */
  function TotalMonthly(rows: seq<IncomeRow>): real {
    Total(rows, MonthlyShare)
  }

  /** Each further income row adds exactly its monthly share. */
  lemma TotalMonthlyAppend(rows: seq<IncomeRow>, row: IncomeRow)
    ensures TotalMonthly(rows + [row]) == TotalMonthly(rows) + MonthlyShare(row)
  {
    TotalAppend(rows, row, MonthlyShare);
  }

  predicate CommonFrequency(frequency: string) {
    frequency == "monthly" || frequency == "biweekly" || frequency == "weekly"
  }

  /** For monthly, biweekly and weekly income the route and the executor agree. */
  lemma {:induction false} TotalMonthlyAgreesOnCommonFrequencies(rows: seq<IncomeRow>)
    requires forall k :: 0 <= k < |rows| ==> CommonFrequency(rows[k].frequency)
    ensures TotalMonthly(rows) == Executor.MonthlyIncome(rows)
  {
    if rows != [] {
      assert rows == [rows[0]] + rows[1..];
      TotalPrepend(rows[0], rows[1..], MonthlyShare);
      TotalMonthlyAgreesOnCommonFrequencies(rows[1..]);
    }
  }

  /**
   * For one row the route counts annual income at 12 times, and any other
   * frequency at 144 times, what the executor's budget analysis counts.
   */
  lemma TotalMonthlyDisagreesWithExecutor(row: IncomeRow)
    ensures row.frequency == "annual" ==> TotalMonthly([row]) == 12.0 * Executor.MonthlyIncome([row])
    ensures !CommonFrequency(row.frequency) && row.frequency != "annual" ==>
              TotalMonthly([row]) == 144.0 * Executor.MonthlyIncome([row])
  {
    TotalAppend([], row, MonthlyShare);
    assert [row][1..] == [];
  }

  // ---------------------------------------------------------------- grouping expenses by category

  /** One entry of a `byCategory` array. */
  datatype CategoryTotal = CategoryTotal(category: string, amount: real)

  function CategoryAmount(c: CategoryTotal): real { c.amount }

  /** `acc.findIndex((c) => c.category === category)` */
  function FindCategory(acc: seq<CategoryTotal>, category: string): (i: int)
    ensures -1 <= i < |acc|
    ensures i >= 0 ==> acc[i].category == category && forall j :: 0 <= j < i ==> acc[j].category != category
    ensures i < 0 ==> forall j :: 0 <= j < |acc| ==> acc[j].category != category
  {
    if acc == [] then -1
    else if acc[0].category == category then 0
    else
      var k := FindCategory(acc[1..], category);
      if k < 0 then -1 else k + 1
  }

  /** One step of the reducer: a new category is pushed with amount 0, then the amount is added to its entry. */
  function AddToCategory(acc: seq<CategoryTotal>, category: string, amount: real): seq<CategoryTotal> {
    var i := FindCategory(acc, category);
    if i < 0 then acc + [CategoryTotal(category, 0.0 + amount)]
    else acc[i := CategoryTotal(category, acc[i].amount + amount)]
  }

  /** The `byCategory` reducer over the expense rows in order. */
  function Grouped(rows: seq<ExpenseRow>): seq<CategoryTotal>
    decreases |rows|
  {
    if rows == [] then []
    else
      var last := rows[|rows| - 1];
      AddToCategory(Grouped(rows[..|rows| - 1]), last.category, last.amount)
  }

  function GroupName(c: CategoryTotal): string { c.category }

  function RowCategory(row: ExpenseRow): string { row.category }

  /** The names `nameOf` gives the items, in order. */
  function Labels<T>(items: seq<T>, nameOf: T -> string): (names: seq<string>)
    ensures |names| == |items| && forall k :: 0 <= k < |items| ==> names[k] == nameOf(items[k])
  {
    seq(|items|, k requires 0 <= k < |items| => nameOf(items[k]))
  }

  function CategoryNames(acc: seq<CategoryTotal>): seq<string> { Labels(acc, GroupName) }

  function Categories(rows: seq<ExpenseRow>): seq<string> { Labels(rows, RowCategory) }

  predicate Distinct(names: seq<string>) {
    forall i, j :: 0 <= i < j < |names| ==> names[i] != names[j]
  }

  /** The distinct names in order of first appearance. */
  function FirstAppearances(names: seq<string>): (r: seq<string>)
    ensures forall c :: c in r <==> c in names
    ensures Distinct(r)
    decreases |names|
  {
    if names == [] then []
    else
      var prefix := FirstAppearances(names[..|names| - 1]);
      var last := names[|names| - 1];
      assert names == names[..|names| - 1] + [last];
      if last in prefix then prefix else prefix + [last]
  }

  /** The sum of the amounts of the rows in one category. */
  function CategorySum(rows: seq<ExpenseRow>, category: string): real
    decreases |rows|
  {
    if rows == [] then 0.0
    else
      var last := rows[|rows| - 1];
      CategorySum(rows[..|rows| - 1], category) + (if last.category == category then last.amount else 0.0)
  }

  /** The grouped amount of a category: its entry's amount, or 0 when it has none. */
  function AmountOf(acc: seq<CategoryTotal>, category: string): real {
    var i := FindCategory(acc, category);
    if i < 0 then 0.0 else acc[i].amount
  }

  lemma AddToCategoryNames(acc: seq<CategoryTotal>, category: string, amount: real)
    ensures CategoryNames(AddToCategory(acc, category, amount))
            == if category in CategoryNames(acc) then CategoryNames(acc) else CategoryNames(acc) + [category]
  {
    var i := FindCategory(acc, category);
    var names := CategoryNames(acc);
    if i < 0 {
      assert category !in names;
    } else {
      assert names[i] == category;
    }
  }

  /** Finding a category only looks at the names, so a longer array with the same names in front finds the same entry. */
  lemma FindInExtension(a: seq<CategoryTotal>, b: seq<CategoryTotal>, category: string)
    requires |a| <= |b|
    requires forall j :: 0 <= j < |a| ==> b[j].category == a[j].category
    requires forall j :: |a| <= j < |b| ==> b[j].category != category
    ensures FindCategory(b, category) == FindCategory(a, category)
  {
    var k, k' := FindCategory(a, category), FindCategory(b, category);
    if k >= 0 {
      assert b[k].category == category;
    }
  }

  lemma AddToCategoryAmounts(acc: seq<CategoryTotal>, category: string, amount: real, other: string)
    ensures AmountOf(AddToCategory(acc, category, amount), other)
            == AmountOf(acc, other) + (if other == category then amount else 0.0)
  {
    var after := AddToCategory(acc, category, amount);
    if other != category || FindCategory(acc, category) >= 0 {
      FindInExtension(acc, after, other);
    } else {
      assert after[|acc|].category == category;
    }
  }

  lemma AddToCategoryTotal(acc: seq<CategoryTotal>, category: string, amount: real)
    ensures Total(AddToCategory(acc, category, amount), CategoryAmount) == Total(acc, CategoryAmount) + amount
  {
    var i := FindCategory(acc, category);
    if i < 0 {
      TotalAppend(acc, CategoryTotal(category, 0.0 + amount), CategoryAmount);
    } else {
      TotalUpdate(acc, i, CategoryTotal(category, acc[i].amount + amount), CategoryAmount);
    }
  }

  /** The grouping lists the categories once each, in order of first appearance. */
  lemma {:induction false} GroupedByFirstAppearance(rows: seq<ExpenseRow>)
    ensures CategoryNames(Grouped(rows)) == FirstAppearances(Categories(rows))
    decreases |rows|
  {
    if rows != [] {
      var init := rows[..|rows| - 1];
      var last := rows[|rows| - 1];
      assert Categories(rows)[..|rows| - 1] == Categories(init);
      GroupedByFirstAppearance(init);
      AddToCategoryNames(Grouped(init), last.category, last.amount);
    }
  }

  /** Every category's grouped amount is the sum of that category's rows. */
  lemma {:induction false} GroupedAmounts(rows: seq<ExpenseRow>, category: string)
    ensures AmountOf(Grouped(rows), category) == CategorySum(rows, category)
    decreases |rows|
  {
    if rows != [] {
      var init := rows[..|rows| - 1];
      var last := rows[|rows| - 1];
      GroupedAmounts(init, category);
      AddToCategoryAmounts(Grouped(init), last.category, last.amount, category);
    }
  }

  /** The grouped amounts add up to the expense total. */
  lemma {:induction false} GroupedTotal(rows: seq<ExpenseRow>)
    ensures Total(Grouped(rows), CategoryAmount) == Total(rows, ExpenseAmount)
    decreases |rows|
  {
    if rows != [] {
      var init := rows[..|rows| - 1];
      var last := rows[|rows| - 1];
      GroupedTotal(init);
      AddToCategoryTotal(Grouped(init), last.category, last.amount);
    }
  }

  /**
   * The `byCategory` reducer of GET /financial-snapshot: the accumulator
   * array gets a new `{ category, amount: 0 }` for an unseen category, then
   * the row's amount is added to that category's entry in place.
   */
  method GroupByCategory(expenses: seq<ExpenseRow>) returns (acc: seq<CategoryTotal>)
    ensures acc == Grouped(expenses)
  {
    acc := [];
    var n := 0;
    while n < |expenses|
      invariant 0 <= n <= |expenses|
      invariant acc == Grouped(expenses[..n])
    {
      var cat := expenses[n].category;
      if FindCategory(acc, cat) < 0 {
        acc := acc + [CategoryTotal(cat, 0.0)];
        assert acc[|acc| - 1].category == cat;
      }
      var idx := FindCategory(acc, cat);
      acc := acc[idx := CategoryTotal(cat, acc[idx].amount + expenses[n].amount)];
      assert expenses[..n + 1][..n] == expenses[..n];
      n := n + 1;
    }
    assert expenses[..n] == expenses;
  }

  // ---------------------------------------------------------------- GET /expenses/:userId

  /** One entry of GET /expenses' `byCategory`; the percentage is not a finite number when the total is 0. */
  datatype CategoryShare = CategoryShare(name: string, amount: real, percentage: Option<real>)

  datatype ExpenseReport = ExpenseReport(byCategory: seq<CategoryShare>, total: real)

  function Percentage(amount: real, total: real): Option<real> {
    if total == 0.0 then None else Some(amount / total * 100.0)
  }

  function ShareOf(c: CategoryTotal, total: real): CategoryShare {
    CategoryShare(c.category, c.amount, Percentage(c.amount, total))
  }

  function ShareAmount(s: CategoryShare): real { s.amount }

  /**
   * A category that names an inherited property other than "__proto__": the
   * lookup `acc[cat]` finds a function, `+=` turns the entry into a string,
   * and `amount.toFixed(2)` then throws.
   */
  predicate BreaksGrouping(category: string) {
    category in InheritedNames && category != "__proto__"
  }

  /**
   * The rows that reach `Object.entries`: assigning a string to
   * `acc["__proto__"]` is ignored, so rows of that category drop out.
   */
  function Keyed(rows: seq<ExpenseRow>): (kept: seq<ExpenseRow>)
    ensures forall row :: row in kept <==> row in rows && row.category != "__proto__"
    decreases |rows|
  {
    if rows == [] then []
    else
      var init := rows[..|rows| - 1];
      var last := rows[|rows| - 1];
      assert rows == init + [last];
      if last.category == "__proto__" then Keyed(init) else Keyed(init) + [last]
  }

  /**
   * GET /expenses: the entries of the per-category object, and the total of
   * every row, before `toFixed`; a 500 when a category breaks the grouping.
   */
  function ExpenseReportOf(rows: seq<ExpenseRow>): Result<ExpenseReport> {
    if exists k :: 0 <= k < |rows| && BreaksGrouping(rows[k].category) then
      Err("amount.toFixed is not a function")
    else
      var total := Total(rows, ExpenseAmount);
      var groups := Grouped(Keyed(rows));
      Ok(ExpenseReport(seq(|groups|, k requires 0 <= k < |groups| => ShareOf(groups[k], total)), total))
  }

  lemma {:induction false} TotalOfShares(groups: seq<CategoryTotal>, shares: seq<CategoryShare>)
    requires |shares| == |groups| && forall k :: 0 <= k < |groups| ==> shares[k].amount == groups[k].amount
    ensures Total(shares, ShareAmount) == Total(groups, CategoryAmount)
    decreases |groups|
  {
    if groups != [] {
      TotalOfShares(groups[..|groups| - 1], shares[..|shares| - 1]);
    }
  }

  /** Dropping the "__proto__" rows keeps every other category's sum and lowers the total by that category's sum. */
  lemma {:induction false} KeyedSums(rows: seq<ExpenseRow>, category: string)
    ensures category != "__proto__" ==> CategorySum(Keyed(rows), category) == CategorySum(rows, category)
    ensures Total(Keyed(rows), ExpenseAmount) == Total(rows, ExpenseAmount) - CategorySum(rows, "__proto__")
    decreases |rows|
  {
    if rows != [] {
      var init := rows[..|rows| - 1];
      var last := rows[|rows| - 1];
      KeyedSums(init, category);
      if last.category != "__proto__" {
        var kept := Keyed(init) + [last];
        assert kept[..|kept| - 1] == Keyed(init);
        TotalAppend(Keyed(init), last, ExpenseAmount);
      }
    }
  }

  /** Exactly the categories of the kept rows: every category but "__proto__". */
  lemma KeyedCategories(rows: seq<ExpenseRow>, c: string)
    ensures c in Categories(Keyed(rows)) <==> c in Categories(rows) && c != "__proto__"
  {
    var kept := Keyed(rows);
    var cats := Categories(rows);
    if c in cats && c != "__proto__" {
      var i :| 0 <= i < |rows| && cats[i] == c;
      assert rows[i] in kept;
      var j :| 0 <= j < |kept| && kept[j] == rows[i];
      assert Categories(kept)[j] == c;
    }
    if c in Categories(kept) {
      var j :| 0 <= j < |kept| && Categories(kept)[j] == c;
      assert kept[j] in rows;
      var i :| 0 <= i < |rows| && rows[i] == kept[j];
      assert cats[i] == c;
    }
  }

  /** GET /expenses fails iff some category names an inherited property other than "__proto__". */
  lemma ExpenseReportFails(rows: seq<ExpenseRow>)
    ensures ExpenseReportOf(rows).Err? <==> exists c :: c in Categories(rows) && BreaksGrouping(c)
  {
    var cats := Categories(rows);
    if exists c :: c in cats && BreaksGrouping(c) {
      var c :| c in cats && BreaksGrouping(c);
      var k :| 0 <= k < |cats| && cats[k] == c;
      assert BreaksGrouping(rows[k].category);
    } else {
      forall k | 0 <= k < |rows| ensures !BreaksGrouping(rows[k].category) {
        assert cats[k] in cats;
      }
    }
  }

  function ShareName(s: CategoryShare): string { s.name }

  /** The entries of GET /expenses are the grouping of the kept rows, shown with their percentages. */
  lemma ReportIsGrouping(rows: seq<ExpenseRow>)
    requires ExpenseReportOf(rows).Ok?
    ensures var r := ExpenseReportOf(rows).value;
            && Labels(r.byCategory, ShareName) == CategoryNames(Grouped(Keyed(rows)))
            && (forall k :: 0 <= k < |r.byCategory| ==> r.byCategory[k].amount == Grouped(Keyed(rows))[k].amount)
  {
  }

  /**
   * A successful GET /expenses lists each category but "__proto__" exactly
   * once, in order of first appearance.
   */
  lemma ExpenseReportNames(rows: seq<ExpenseRow>)
    requires ExpenseReportOf(rows).Ok?
    ensures var names := Labels(ExpenseReportOf(rows).value.byCategory, ShareName);
            && names == FirstAppearances(Categories(Keyed(rows)))
            && Distinct(names)
            && forall c :: c in names <==> c in Categories(rows) && c != "__proto__"
  {
    var kept := Keyed(rows);
    ReportIsGrouping(rows);
    GroupedByFirstAppearance(kept);
    forall c ensures c in CategoryNames(Grouped(kept)) <==> c in Categories(rows) && c != "__proto__" {
      KeyedCategories(rows, c);
    }
  }

  /** Each entry of a successful GET /expenses carries the sum of its category's rows. */
  lemma ExpenseReportAmounts(rows: seq<ExpenseRow>)
    requires ExpenseReportOf(rows).Ok?
    ensures var r := ExpenseReportOf(rows).value;
            forall k :: 0 <= k < |r.byCategory| ==> r.byCategory[k].amount == CategorySum(rows, r.byCategory[k].name)
  {
    var r := ExpenseReportOf(rows).value;
    var kept := Keyed(rows);
    var groups := Grouped(kept);
    ReportIsGrouping(rows);
    forall k | 0 <= k < |r.byCategory| ensures r.byCategory[k].amount == CategorySum(rows, r.byCategory[k].name) {
      var c := groups[k].category;
      assert r.byCategory[k].name == c;
      GroupedAmounts(kept, c);
      GroupedByFirstAppearance(kept);
      assert CategoryNames(groups)[k] == c;
      assert FindCategory(groups, c) == k;
      KeyedCategories(rows, c);
      KeyedSums(rows, c);
    }
  }

  /** The entries of a successful GET /expenses add up to the total of every row less the "__proto__" rows. */
  lemma ExpenseReportTotal(rows: seq<ExpenseRow>)
    requires ExpenseReportOf(rows).Ok?
    ensures var r := ExpenseReportOf(rows).value;
            && r.total == Total(rows, ExpenseAmount)
            && Total(r.byCategory, ShareAmount) == r.total - CategorySum(rows, "__proto__")
  {
    var kept := Keyed(rows);
    ReportIsGrouping(rows);
    GroupedTotal(kept);
    KeyedSums(rows, "__proto__");
    TotalOfShares(Grouped(kept), ExpenseReportOf(rows).value.byCategory);
  }

  // ---------------------------------------------------------------- GET /debts and GET /savings

  /** `parseFloat` of a numeric column: NULL gives NaN. */
  function ParseFloat(v: Option<real>): Num {
    if v.Some? then Finite(v.value) else NaN
  }

  function AddNum(a: Num, b: Num): Num {
    if a.Finite? && b.Finite? then Finite(a.r + b.r) else NaN
  }

  datatype DebtReport = DebtReport(total: real, monthlyPayment: real)

  /** GET /debts: the sums of `balance` and `minimum_payment`, before `toFixed`. */
  function DebtReportOf(rows: seq<DebtRow>): DebtReport {
    DebtReport(Total(rows, DebtBalance), Total(rows, MinimumPayment))
  }

  /** A further debt raises the total by its balance and the monthly payment by its minimum payment. */
  lemma DebtReportAppend(rows: seq<DebtRow>, row: DebtRow)
    ensures DebtReportOf(rows + [row]).total == DebtReportOf(rows).total + row.balance
    ensures DebtReportOf(rows + [row]).monthlyPayment == DebtReportOf(rows).monthlyPayment + row.minimumPayment
  {
    TotalAppend(rows, row, DebtBalance);
    TotalAppend(rows, row, MinimumPayment);
  }

  /** `goals.reduce((sum, goal) => sum + parseFloat(goal.current_amount), 0)` */
  function CurrentTotal(rows: seq<SavingsRow>): Num
    decreases |rows|
  {
    if rows == [] then Finite(0.0)
    else AddNum(CurrentTotal(rows[..|rows| - 1]), ParseFloat(rows[|rows| - 1].currentAmount))
  }

  datatype SavingsReport = SavingsReport(total: Num, targetTotal: real)

  /** GET /savings: the sums of `current_amount` and `target_amount`, before `toFixed`. */
  function SavingsReportOf(rows: seq<SavingsRow>): SavingsReport {
    SavingsReport(CurrentTotal(rows), Total(rows, TargetAmount))
  }

  /** A goal stored with a NULL current amount makes the savings total NaN; otherwise it is the sum. */
  lemma {:induction false} CurrentTotalIsNaN(rows: seq<SavingsRow>)
    ensures CurrentTotal(rows).NaN? <==> exists k :: 0 <= k < |rows| && rows[k].currentAmount.None?
    decreases |rows|
  {
    if rows != [] {
      var init := rows[..|rows| - 1];
      CurrentTotalIsNaN(init);
      if exists k :: 0 <= k < |init| && init[k].currentAmount.None? {
        var k :| 0 <= k < |init| && init[k].currentAmount.None?;
        assert rows[k] == init[k];
      }
      if exists k :: 0 <= k < |rows| && rows[k].currentAmount.None? {
        var k :| 0 <= k < |rows| && rows[k].currentAmount.None?;
        if k < |init| {
          assert init[k] == rows[k];
        }
      }
    }
  }

  /** A goal with a current amount raises the savings total by it, and the target total by its target. */
  lemma SavingsReportAppend(rows: seq<SavingsRow>, row: SavingsRow)
    requires row.currentAmount.Some?
    ensures var before, after := SavingsReportOf(rows), SavingsReportOf(rows + [row]);
            && (before.total.Finite? ==> after.total == Finite(before.total.r + row.currentAmount.value))
            && after.targetTotal == before.targetTotal + row.targetAmount
  {
    assert (rows + [row])[..|rows|] == rows;
    TotalAppend(rows, row, TargetAmount);
  }

  // ---------------------------------------------------------------- the create routes on the database

  /** POST /user on the shared database. */
  method CreateOrGetUser(db: Database, body: Json) returns (r: Result<User>)
    requires db.Valid()
    modifies db
    ensures db.Valid()
    ensures (r, db.Snapshot()) == PostUserStep(old(db.Snapshot()), body)
  {
    var email := TextValue(Field(body, "email"));
    if email.Err? {
      return Err(email.error);
    }
    var existing := UserByEmail(db.Snapshot(), email.value);
    if existing.Some? {
      return Ok(existing.value);
    }
    var name := TextValue(Field(body, "name"));
    if name.Err? {
      return Err(name.error);
    }
    r := db.InsertUser(name.value, email.value);
  }

  /** POST /income on the shared database. */
  method CreateIncome(db: Database, body: Json) returns (r: Result<IncomeRow>)
    requires db.Valid()
    modifies db
    ensures db.Valid()
    ensures (r, db.Snapshot()) == PostIncomeStep(old(db.Snapshot()), body)
  {
    var userId := IdValue(Field(body, "userId"));
    var amount := NumberValue(Field(body, "amount"));
    var source := TextValue(Field(body, "source"));
    var frequency := TextValue(Field(body, "frequency"));
    if userId.Err? || amount.Err? || source.Err? || frequency.Err? {
      return PostIncomeStep(db.Snapshot(), body).0;
    }
    r := db.InsertIncome(userId.value, amount.value, source.value, frequency.value);
  }

  /** POST /expenses on the shared database. */
  method CreateExpense(db: Database, body: Json) returns (r: Result<ExpenseRow>)
    requires db.Valid()
    modifies db
    ensures db.Valid()
    ensures (r, db.Snapshot()) == PostExpenseStep(old(db.Snapshot()), body)
  {
    var userId := IdValue(Field(body, "userId"));
    var amount := NumberValue(Field(body, "amount"));
    var category := TextValue(Field(body, "category"));
    var description := TextValue(Field(body, "description"));
    var date := TextValue(Field(body, "date"));
    if userId.Err? || amount.Err? || category.Err? || description.Err? || date.Err? {
      return PostExpenseStep(db.Snapshot(), body).0;
    }
    r := db.InsertExpense(userId.value, amount.value, category.value, description.value, date.value,
                          Flag(Field(body, "recurring")));
  }

  /** POST /debts on the shared database. */
  method CreateDebt(db: Database, body: Json) returns (r: Result<DebtRow>)
    requires db.Valid()
    modifies db
    ensures db.Valid()
    ensures (r, db.Snapshot()) == PostDebtStep(old(db.Snapshot()), body)
  {
    var userId := IdValue(Field(body, "userId"));
    var name := TextValue(Field(body, "name"));
    var balance := NumberValue(Field(body, "balance"));
    var interestRate := NumberValue(Field(body, "interestRate"));
    var minimumPayment := NumberValue(Field(body, "minimumPayment"));
    var kind := TextValue(Field(body, "type"));
    if userId.Err? || name.Err? || balance.Err? || interestRate.Err? || minimumPayment.Err? || kind.Err? {
      return PostDebtStep(db.Snapshot(), body).0;
    }
    r := db.InsertDebt(userId.value, name.value, balance.value, interestRate.value, minimumPayment.value,
                       Some(1.0), kind.value);
  }

  /** POST /savings on the shared database. */
  method CreateSavingsGoal(db: Database, body: Json) returns (r: Result<SavingsRow>)
    requires db.Valid()
    modifies db
    ensures db.Valid()
    ensures (r, db.Snapshot()) == PostSavingsStep(old(db.Snapshot()), body)
  {
    var userId := IdValue(Field(body, "userId"));
    var name := TextValue(Field(body, "name"));
    var targetAmount := NumberValue(Field(body, "targetAmount"));
    var currentAmount := NumberValue(Some(Or(Field(body, "currentAmount"), JNum(0.0))));
    var targetDate := TextValue(Field(body, "targetDate"));
    if userId.Err? || name.Err? || targetAmount.Err? || currentAmount.Err? || targetDate.Err? {
      return PostSavingsStep(db.Snapshot(), body).0;
    }
    r := db.InsertSavings(userId.value, name.value, targetAmount.value, currentAmount.value, targetDate.value, Some(0.0));
  }

  /** POST /bills on the shared database. */
  method CreateBill(db: Database, body: Json) returns (r: Result<BillRow>)
    requires db.Valid()
    modifies db
    ensures db.Valid()
    ensures (r, db.Snapshot()) == PostBillStep(old(db.Snapshot()), body)
  {
    var userId := IdValue(Field(body, "userId"));
    var name := TextValue(Field(body, "name"));
    var amount := NumberValue(Field(body, "amount"));
    var dueDate := NumberValue(Field(body, "dueDate"));
    var frequency := TextValue(Field(body, "frequency"));
    var category := TextValue(Field(body, "category"));
    if userId.Err? || name.Err? || amount.Err? || dueDate.Err? || frequency.Err? || category.Err? {
      return PostBillStep(db.Snapshot(), body).0;
    }
    r := db.InsertBill(userId.value, name.value, amount.value, dueDate.value, frequency.value, category.value,
                       Flag(Field(body, "autoPay")));
  }

  // ---------------------------------------------------------------- GET /financial-snapshot/:userId

  /** The `userData` the snapshot route sends to the AI and returns as `snapshot`. */
  datatype SnapshotData = SnapshotData(
    incomeTotal: real, sources: seq<IncomeRow>,
    expensesTotal: real, byCategory: seq<CategoryTotal>,
    debtsTotal: real, debtList: seq<DebtRow>,
    savingsGoals: seq<SavingsRow>, bills: seq<BillRow>)

  function SnapshotDataOf(t: Tables, userId: int): SnapshotData {
    var expenses := ExpensesOf(t, userId);
    SnapshotData(
      Total(IncomeOf(t, userId), IncomeAmount), IncomeOf(t, userId),
      Total(expenses, ExpenseAmount), Grouped(expenses),
      Total(DebtsOf(t, userId), DebtBalance), DebtsOf(t, userId),
      SavingsOf(t, userId), BillsOf(t, userId))
  }

  /** GET /financial-snapshot: the user's rows, their raw totals and the expenses grouped in place. */
  method FinancialSnapshot(db: Database, userId: int) returns (data: SnapshotData)
    ensures data == SnapshotDataOf(db.Snapshot(), userId)
  {
    var t := db.Snapshot();
    var expenses := ExpensesOf(t, userId);
    var byCategory := GroupByCategory(expenses);
    data := SnapshotData(
      Total(IncomeOf(t, userId), IncomeAmount), IncomeOf(t, userId),
      Total(expenses, ExpenseAmount), byCategory,
      Total(DebtsOf(t, userId), DebtBalance), DebtsOf(t, userId),
      SavingsOf(t, userId), BillsOf(t, userId));
  }

  /**
   * The snapshot's `byCategory` names each of the user's expense categories
   * once, in order of first appearance, with the sum of that category's
   * expenses; the amounts add up to the expenses total.
   */
  lemma SnapshotByCategory(t: Tables, userId: int)
    ensures var data := SnapshotDataOf(t, userId);
            && CategoryNames(data.byCategory) == FirstAppearances(Categories(ExpensesOf(t, userId)))
            && Distinct(CategoryNames(data.byCategory))
            && (forall k :: 0 <= k < |data.byCategory| ==>
                  data.byCategory[k].amount == CategorySum(ExpensesOf(t, userId), data.byCategory[k].category))
            && Total(data.byCategory, CategoryAmount) == data.expensesTotal
  {
    var data := SnapshotDataOf(t, userId);
    var rows := ExpensesOf(t, userId);
    GroupedByFirstAppearance(rows);
    GroupedTotal(rows);
    forall k | 0 <= k < |data.byCategory|
      ensures data.byCategory[k].amount == CategorySum(rows, data.byCategory[k].category)
    {
      GroupedAmounts(rows, data.byCategory[k].category);
      assert CategoryNames(data.byCategory)[k] == data.byCategory[k].category;
      assert FindCategory(data.byCategory, data.byCategory[k].category) == k;
    }
  }

  // ---------------------------------------------------------------- POST /debt-payoff-plan

  /** A goal counts as the emergency fund when its lowercased name contains "emergency". */
  predicate IsEmergencyFund(goal: SavingsRow) {
    Contains(Lower(goal.name), "emergency")
  }

  /** `savings.find(isEmergencyFund)`, as the index of the goal found, or -1. */
  function EmergencyIndex(goals: seq<SavingsRow>): (i: int)
    ensures -1 <= i < |goals|
    ensures i >= 0 ==> IsEmergencyFund(goals[i]) && forall j :: 0 <= j < i ==> !IsEmergencyFund(goals[j])
    ensures i < 0 ==> forall j :: 0 <= j < |goals| ==> !IsEmergencyFund(goals[j])
  {
    if goals == [] then -1
    else if IsEmergencyFund(goals[0]) then 0
    else
      var k := EmergencyIndex(goals[1..]);
      if k < 0 then -1 else k + 1
  }

  lemma LowerOccurs(s: string, m: string, i: int)
    requires OccursAt(s, m, i)
    ensures OccursAt(Lower(s), Lower(m), i)
  {
    assert Lower(s)[i..i + |m|] == Lower(m);
  }

  /** The match ignores ASCII case: a name containing "Emergency" or "EMERGENCY" is the emergency fund. */
  lemma EmergencyIgnoresCase(goal: SavingsRow, word: string)
    requires Contains(goal.name, word) && Lower(word) == "emergency"
    ensures IsEmergencyFund(goal)
  {
    var i :| 0 <= i <= |goal.name| - |word| && OccursAt(goal.name, word, i);
    LowerOccurs(goal.name, word, i);
  }

  datatype DebtFigures = DebtFigures(name: string, balance: real, interestRate: Num, minimumPayment: real)
  datatype EmergencyFigures = EmergencyFigures(target: real, current: Num)

  /** The `userData` POST /debt-payoff-plan sends to the AI. */
  datatype PayoffData = PayoffData(
    income: real, expensesTotal: real, debts: seq<DebtFigures>, emergency: Option<EmergencyFigures>)

  function Figures(d: DebtRow): DebtFigures {
    DebtFigures(d.name, d.balance, ParseFloat(d.interestRate), d.minimumPayment)
  }

  /**
   * The payoff plan's data: raw income and expense totals, every debt with
   * its figures in order, and the first emergency-fund goal's target and
   * current amount, or null when no goal is one.
   */
  function PayoffDataOf(t: Tables, userId: int): (r: PayoffData)
    ensures |r.debts| == |DebtsOf(t, userId)|
    ensures forall k :: 0 <= k < |r.debts| ==> r.debts[k] == Figures(DebtsOf(t, userId)[k])
    ensures r.emergency.None? <==> forall j :: 0 <= j < |SavingsOf(t, userId)| ==> !IsEmergencyFund(SavingsOf(t, userId)[j])
    ensures r.emergency.Some? ==>
              exists k :: && 0 <= k < |SavingsOf(t, userId)| && IsEmergencyFund(SavingsOf(t, userId)[k])
                          && (forall j :: 0 <= j < k ==> !IsEmergencyFund(SavingsOf(t, userId)[j]))
                          && r.emergency.value.target == SavingsOf(t, userId)[k].targetAmount
                          && r.emergency.value.current == ParseFloat(SavingsOf(t, userId)[k].currentAmount)
  {
    var debts := DebtsOf(t, userId);
    var goals := SavingsOf(t, userId);
    var i := EmergencyIndex(goals);
    PayoffData(
      Total(IncomeOf(t, userId), IncomeAmount), Total(ExpensesOf(t, userId), ExpenseAmount),
      seq(|debts|, k requires 0 <= k < |debts| => Figures(debts[k])),
      if i < 0 then None
      else Some(EmergencyFigures(goals[i].targetAmount, ParseFloat(goals[i].currentAmount))))
  }

  // ---------------------------------------------------------------- POST /chat

  /** The chat route's totals, present only when the user has income. */
  datatype ChatTotals = ChatTotals(income: real, expenses: real, debts: real, savings: Num)

  /** The chat route's `userData`: null exactly when the user has no income rows. */
  function ChatUserData(t: Tables, userId: int): (r: Option<ChatTotals>)
    ensures r.None? <==> IncomeOf(t, userId) == []
    ensures r.Some? ==> r.value.income == Total(IncomeOf(t, userId), IncomeAmount)
  {
    if |IncomeOf(t, userId)| > 0 then
      Some(ChatTotals(
        Total(IncomeOf(t, userId), IncomeAmount), Total(ExpensesOf(t, userId), ExpenseAmount),
        Total(DebtsOf(t, userId), DebtBalance), CurrentTotal(SavingsOf(t, userId))))
    else None
  }

  /**
   * A total as the prompt reads it. NaN has no Json form and is carried as
   * null: the prompt only reads it through `|| 0`, where both are falsy.
   */
  function NumJson(n: Num): Json {
    if n.Finite? then JNum(n.r) else JNull
  }

  function TotalObject(total: Json): Json {
    JObj(map["total" := total])
  }

  /** `userData` as routes.js builds it: income too is an object `{ total }`. */
  function ChatUserDataAsWritten(d: Option<ChatTotals>): Json {
    if d.None? then JNull
    else
      JObj(map[
        "income" := TotalObject(JNum(d.value.income)),
        "expenses" := TotalObject(JNum(d.value.expenses)),
        "debts" := TotalObject(JNum(d.value.debts)),
        "savings" := TotalObject(NumJson(d.value.savings))])
  }

  /** `userData` with the income total as the number the prompt interpolates. */
  function ChatUserDataJson(d: Option<ChatTotals>): Json {
    if d.None? then JNull
    else
      JObj(map[
        "income" := JNum(d.value.income),
        "expenses" := TotalObject(JNum(d.value.expenses)),
        "debts" := TotalObject(JNum(d.value.debts)),
        "savings" := TotalObject(NumJson(d.value.savings))])
  }

  /** As written, the conversational prompt shows the income as "$[object Object]". */
  lemma ChatIncomeShownAsObject(d: ChatTotals)
    ensures StartsWith(Prompts.FinancialContext(Some(ChatUserDataAsWritten(Some(d)))),
                       "\nMonthly Income: $" + ObjectText + "\n")
  {
    var u := ChatUserDataAsWritten(Some(d));
    assert Field(u, "income") == Some(TotalObject(JNum(d.income)));
    Prompts.FinancialContextIncome(Some(u));
  }

  /** With income as a number, the prompt shows the income total. */
  lemma ChatIncomeShownAsNumber(d: ChatTotals)
    ensures StartsWith(Prompts.FinancialContext(Some(ChatUserDataJson(Some(d)))),
                       "\nMonthly Income: $" + NumText(d.income) + "\n")
  {
    var u := ChatUserDataJson(Some(d));
    assert Field(u, "income") == Some(JNum(d.income));
    Prompts.FinancialContextIncome(Some(u));
  }

  /** A user without income rows gets the prompt's "no financial data" notice. */
  lemma ChatWithoutIncome(t: Tables, userId: int)
    requires IncomeOf(t, userId) == []
    ensures Prompts.FinancialContext(Some(ChatUserDataJson(ChatUserData(t, userId)))) == "No financial data available yet"
  {
  }
}
