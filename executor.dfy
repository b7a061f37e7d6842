/**
 * backend/actionExecutor.js: a command's action picks one of ten handlers.
 * The five create handlers fill in destructuring defaults, reject a
 * non-positive amount or balance where the source checks one, bind the
 * values and insert one row; the plan handlers only read. A missing user id
 * throws before any handler runs; anything a handler throws is caught and
 * reported as a failed result.
 *
 * Each handler is a pure step `Tables -> (outcome, Tables)`, where the
 * outcome `Err(message)` is an exception. The methods of ActionExecutor
 * perform the inserts on the shared Database and are proved to take exactly
 * these steps.
 */
module Executor {
  import opened Js
  import opened Store
  import opened Interpreter

  datatype ResultData =
    | NoData
    | Fields(fields: map<string, Json>)
    | Budget(totalIncome: real, totalExpenses: real, balance: real)
    | DebtList(debtCount: nat, debts: seq<DebtRow>)
    | GoalList(goalCount: nat, goals: seq<SavingsRow>)

  /** The object a handler returns; a flag the source leaves out is false here. */
  datatype ActionResult = ActionResult(
    success: bool,
    action: Option<Json>,
    id: Option<int>,
    message: Option<Json>,
    error: Option<string>,
    data: ResultData,
    needsAIResponse: bool,
    needsResponse: bool,
    needsMoreData: bool)

  /** One entry of `executeCommands`: `{command: command.action, confidence: command.confidence, ...result}`. */
  datatype ExecResult = ExecResult(command: Json, confidence: Json, result: ActionResult)

  /** What a create handler does once its values are known: answer at once, or insert. */
  datatype Plan<A> = Reject(result: ActionResult) | Insert(args: A)

  const UserIdRequired := "User ID is required"

  function Said(success: bool, action: string, message: string): ActionResult {
    ActionResult(success, Some(JStr(action)), None, Some(JStr(message)), None, NoData, false, false, false)
  }

  /** The caught exception: `{success:false, action, error: error.message}`. */
  function Failure(action: Json, error: string): ActionResult {
    ActionResult(false, Some(action), None, None, Some(error), NoData, false, false, false)
  }

  function DestructureError(property: string): string {
    "Cannot destructure property '" + property + "' of 'data' as it is null."
  }

  /** `!v || v <= 0`: a falsy value, or one that converts to a number at most 0 (NaN passes). */
  predicate NotPositive(v: Option<Json>) {
    !TruthyOpt(v) || (ToNumber(v).Finite? && ToNumber(v).r <= 0.0)
  }

  /** `{ key: v }` entries of an object literal, where an `undefined` value is absent. */
  function Put(m: map<string, Json>, key: string, v: Option<Json>): map<string, Json> {
    if v.Some? then m[key := v.value] else m
  }

  function IdJson(id: int): Json { JNum(id as real) }

  // ---------------------------------------------------------------- createIncome

  datatype IncomeArgs = IncomeArgs(
    source: Json, amount: Json, frequency: Json,
    sourceColumn: Option<string>, amountColumn: Option<real>, frequencyColumn: Option<string>)

  const IncomeRejected := "\U{274C} Income amount is required and must be greater than 0"

  /** Defaults source "Income", amount 0, frequency "monthly"; then validation; then binding in VALUES order. */
  function IncomePlan(data: Json): (r: Result<Plan<IncomeArgs>>)
    ensures r.Ok? && r.value.Reject? ==> r.value.result == Said(false, "CREATE_INCOME", IncomeRejected)
  {
    if data == JNull then Err(DestructureError("source"))
    else
      var source := Default(Field(data, "source"), JStr("Income"));
      var amount := Default(Field(data, "amount"), JNum(0.0));
      var frequency := Default(Field(data, "frequency"), JStr("monthly"));
      if NotPositive(Some(amount)) then Ok(Reject(Said(false, "CREATE_INCOME", IncomeRejected)))
      else
        var s := TextValue(Some(source));
        if s.Err? then Err(s.error) else
        var a := NumberValue(Some(amount));
        if a.Err? then Err(a.error) else
        var f := TextValue(Some(frequency));
        if f.Err? then Err(f.error) else
        Ok(Insert(IncomeArgs(source, amount, frequency, s.value, a.value, f.value)))
  }

  function IncomeDone(a: IncomeArgs, row: IncomeRow): ActionResult {
    ActionResult(
      true, Some(JStr("CREATE_INCOME")), Some(row.id),
      Some(JStr("\U{2705} Added income: $" + DisplayText(a.amount) + "/" + DisplayText(a.frequency) + " from " + DisplayText(a.source))),
      None,
      Fields(map["id" := IdJson(row.id), "source" := a.source, "amount" := a.amount, "frequency" := a.frequency]),
      false, false, false)
  }

  function CreateIncomeStep(t: Tables, userId: int, data: Json): (r: (Result<ActionResult>, Tables))
    ensures r.0.Ok? && r.0.value.success ==>
              r.0.value.id == Some(t.lastIncomeId + 1) && AppendedOne(t, r.1, IncomeTable, userId, t.lastIncomeId + 1)
    ensures !(r.0.Ok? && r.0.value.success) ==> r.1 == t
  {
    match IncomePlan(data)
    case Err(e) => (Err(e), t)
    case Ok(Reject(res)) => (Ok(res), t)
    case Ok(Insert(a)) =>
      var insert := AddIncome(t, Some(userId), a.amountColumn, a.sourceColumn, a.frequencyColumn);
      if insert.0.Err? then (Err(insert.0.error), t) else (Ok(IncomeDone(a, insert.0.value)), insert.1)
  }

  // ---------------------------------------------------------------- createExpense

  datatype ExpenseArgs = ExpenseArgs(
    description: Option<Json>, amount: Option<Json>, category: Option<Json>, date: Json, recurring: int,
    descriptionColumn: Option<string>, amountColumn: Option<real>, categoryColumn: Option<string>, dateColumn: Option<string>)

  const ExpenseRejected := "\U{274C} Expense amount is required and must be greater than 0"

  /** No defaults but `recurring = false`; the date falls back to `today`; amount validated. */
  function ExpensePlan(data: Json, today: string): (r: Result<Plan<ExpenseArgs>>)
    ensures r.Ok? && r.value.Reject? ==> r.value.result == Said(false, "CREATE_EXPENSE", ExpenseRejected)
  {
    if data == JNull then Err(DestructureError("description"))
    else
      var description := Field(data, "description");
      var amount := Field(data, "amount");
      var category := Field(data, "category");
      var recurring := Default(Field(data, "recurring"), JBool(false));
      var expenseDate := Or(Field(data, "date"), JStr(today));
      if NotPositive(amount) then Ok(Reject(Said(false, "CREATE_EXPENSE", ExpenseRejected)))
      else
        var d := TextValue(description);
        if d.Err? then Err(d.error) else
        var a := NumberValue(amount);
        if a.Err? then Err(a.error) else
        var c := TextValue(category);
        if c.Err? then Err(c.error) else
        var e := TextValue(Some(expenseDate));
        if e.Err? then Err(e.error) else
        Ok(Insert(ExpenseArgs(description, amount, category, expenseDate, if Truthy(recurring) then 1 else 0,
                              d.value, a.value, c.value, e.value)))
  }

  function ExpenseDone(a: ExpenseArgs, row: ExpenseRow): ActionResult {
    ActionResult(
      true, Some(JStr("CREATE_EXPENSE")), Some(row.id),
      Some(JStr("\U{2705} Added expense: $" + OptText(a.amount) + " for " + OptText(a.description) + " (" + OptText(a.category) + ")")),
      None,
      Fields(Put(Put(Put(map["id" := IdJson(row.id), "date" := a.date], "description", a.description), "amount", a.amount), "category", a.category)),
      false, false, false)
  }

  function CreateExpenseStep(t: Tables, userId: int, data: Json, today: string): (r: (Result<ActionResult>, Tables))
    ensures r.0.Ok? && r.0.value.success ==>
              r.0.value.id == Some(t.lastExpenseId + 1) && AppendedOne(t, r.1, ExpensesTable, userId, t.lastExpenseId + 1)
    ensures !(r.0.Ok? && r.0.value.success) ==> r.1 == t
  {
    match ExpensePlan(data, today)
    case Err(e) => (Err(e), t)
    case Ok(Reject(res)) => (Ok(res), t)
    case Ok(Insert(a)) =>
      var insert := AddExpense(t, Some(userId), a.amountColumn, a.categoryColumn, a.descriptionColumn, a.dateColumn, a.recurring);
      if insert.0.Err? then (Err(insert.0.error), t) else (Ok(ExpenseDone(a, insert.0.value)), insert.1)
  }

  // ---------------------------------------------------------------- createDebt

  datatype DebtArgs = DebtArgs(
    name: Option<Json>, balance: Option<Json>, interestRate: Json, minimumPayment: Json, dueDate: Json,
    nameColumn: Option<string>, balanceColumn: Option<real>, interestRateColumn: Option<real>,
    minimumPaymentColumn: Option<real>, dueDateColumn: Option<real>)

  const DebtRejected := "\U{274C} Debt balance is required and must be greater than 0"

  /**
   * `balance * 0.02`. A NaN product (a balance that is no number) is shown
   * as null, which is how SQLite stores a NaN; validation and the binding of
   * the balance stop every such case before it is inserted.
   */
  function TwoPercentOf(balance: Option<Json>): Json {
    match ToNumber(balance)
    case Finite(x) => JNum(x * 0.02)
    case NaN => JNull
  }

  /** Defaults interestRate 0, minimumPayment balance × 0.02, dueDate 1; balance validated. */
  function DebtPlan(data: Json): (r: Result<Plan<DebtArgs>>)
    ensures r.Ok? && r.value.Reject? ==> r.value.result == Said(false, "CREATE_DEBT", DebtRejected)
  {
    if data == JNull then Err(DestructureError("name"))
    else
      var name := Field(data, "name");
      var balance := Field(data, "balance");
      var interestRate := Default(Field(data, "interestRate"), JNum(0.0));
      var minimumPayment := Default(Field(data, "minimumPayment"), TwoPercentOf(balance));
      var dueDate := Default(Field(data, "dueDate"), JNum(1.0));
      if NotPositive(balance) then Ok(Reject(Said(false, "CREATE_DEBT", DebtRejected)))
      else
        var n := TextValue(name);
        if n.Err? then Err(n.error) else
        var b := NumberValue(balance);
        if b.Err? then Err(b.error) else
        var i := NumberValue(Some(interestRate));
        if i.Err? then Err(i.error) else
        var m := NumberValue(Some(minimumPayment));
        if m.Err? then Err(m.error) else
        var d := NumberValue(Some(dueDate));
        if d.Err? then Err(d.error) else
        Ok(Insert(DebtArgs(name, balance, interestRate, minimumPayment, dueDate, n.value, b.value, i.value, m.value, d.value)))
  }

  /** The confirmation names the rate only when the rate is truthy. */
  function DebtMessage(name: Option<Json>, balance: Option<Json>, interestRate: Json): string {
    "\U{2705} Added debt: " + OptText(name) + " - $" + OptText(balance)
    + (if Truthy(interestRate) then " at " + DisplayText(interestRate) + "% APR" else "")
  }

  function DebtDone(a: DebtArgs, row: DebtRow): ActionResult {
    ActionResult(
      true, Some(JStr("CREATE_DEBT")), Some(row.id),
      Some(JStr(DebtMessage(a.name, a.balance, a.interestRate))),
      None,
      Fields(Put(Put(map["id" := IdJson(row.id), "interestRate" := a.interestRate, "minimumPayment" := a.minimumPayment],
                     "name", a.name), "balance", a.balance)),
      false, false, false)
  }

  function CreateDebtStep(t: Tables, userId: int, data: Json): (r: (Result<ActionResult>, Tables))
    ensures r.0.Ok? && r.0.value.success ==>
              r.0.value.id == Some(t.lastDebtId + 1) && AppendedOne(t, r.1, DebtsTable, userId, t.lastDebtId + 1)
    ensures !(r.0.Ok? && r.0.value.success) ==> r.1 == t
  {
    match DebtPlan(data)
    case Err(e) => (Err(e), t)
    case Ok(Reject(res)) => (Ok(res), t)
    case Ok(Insert(a)) =>
      var insert := AddDebt(t, Some(userId), a.nameColumn, a.balanceColumn, a.interestRateColumn,
                               a.minimumPaymentColumn, a.dueDateColumn, None);
      if insert.0.Err? then (Err(insert.0.error), t) else (Ok(DebtDone(a, insert.0.value)), insert.1)
  }

  // ---------------------------------------------------------------- createSavingsGoal

  datatype SavingsArgs = SavingsArgs(
    name: Option<Json>, targetAmount: Option<Json>, currentAmount: Json, targetDate: Option<Json>,
    nameColumn: Option<string>, targetAmountColumn: Option<real>, currentAmountColumn: Option<real>,
    targetDateColumn: Option<string>, monthlyContributionColumn: Option<real>)

  /** Defaults currentAmount 0 and monthlyContribution 0; no validation at all. */
  function SavingsPlan(data: Json): (r: Result<Plan<SavingsArgs>>)
    ensures r.Ok? ==> r.value.Insert?
  {
    if data == JNull then Err(DestructureError("name"))
    else
      var name := Field(data, "name");
      var targetAmount := Field(data, "targetAmount");
      var currentAmount := Default(Field(data, "currentAmount"), JNum(0.0));
      var targetDate := Field(data, "targetDate");
      var monthlyContribution := Default(Field(data, "monthlyContribution"), JNum(0.0));
      var n := TextValue(name);
      if n.Err? then Err(n.error) else
      var g := NumberValue(targetAmount);
      if g.Err? then Err(g.error) else
      var c := NumberValue(Some(currentAmount));
      if c.Err? then Err(c.error) else
      var d := TextValue(targetDate);
      if d.Err? then Err(d.error) else
      var m := NumberValue(Some(monthlyContribution));
      if m.Err? then Err(m.error) else
      Ok(Insert(SavingsArgs(name, targetAmount, currentAmount, targetDate, n.value, g.value, c.value, d.value, m.value)))
  }

  function SavingsDone(a: SavingsArgs, row: SavingsRow): ActionResult {
    ActionResult(
      true, Some(JStr("CREATE_SAVINGS_GOAL")), Some(row.id),
      Some(JStr("\U{2705} Added savings goal: " + OptText(a.name) + " - Target $" + OptText(a.targetAmount))),
      None,
      Fields(Put(Put(Put(map["id" := IdJson(row.id), "currentAmount" := a.currentAmount], "name", a.name),
                     "targetAmount", a.targetAmount), "targetDate", a.targetDate)),
      false, false, false)
  }

  function CreateSavingsGoalStep(t: Tables, userId: int, data: Json): (r: (Result<ActionResult>, Tables))
    ensures r.0.Ok? && r.0.value.success ==>
              r.0.value.id == Some(t.lastSavingsId + 1) && AppendedOne(t, r.1, SavingsTable, userId, t.lastSavingsId + 1)
    ensures !(r.0.Ok? && r.0.value.success) ==> r.1 == t
  {
    match SavingsPlan(data)
    case Err(e) => (Err(e), t)
    case Ok(Reject(res)) => (Ok(res), t)
    case Ok(Insert(a)) =>
      var insert := AddSavings(t, Some(userId), a.nameColumn, a.targetAmountColumn, a.currentAmountColumn,
                                  a.targetDateColumn, a.monthlyContributionColumn);
      if insert.0.Err? then (Err(insert.0.error), t) else (Ok(SavingsDone(a, insert.0.value)), insert.1)
  }

  // ---------------------------------------------------------------- createBill

  datatype BillArgs = BillArgs(
    name: Json, amount: Json, dueDate: Json, frequency: Json, autoPay: int,
    nameColumn: Option<string>, amountColumn: Option<real>, dueDateColumn: Option<real>,
    frequencyColumn: Option<string>, categoryColumn: Option<string>)

  /** Defaults name "Unnamed Bill", amount 0, dueDate 1, frequency "monthly", autoPay false, category "Other"; no validation. */
  function BillPlan(data: Json): (r: Result<Plan<BillArgs>>)
    ensures r.Ok? ==> r.value.Insert?
  {
    if data == JNull then Err(DestructureError("name"))
    else
      var name := Default(Field(data, "name"), JStr("Unnamed Bill"));
      var amount := Default(Field(data, "amount"), JNum(0.0));
      var dueDate := Default(Field(data, "dueDate"), JNum(1.0));
      var frequency := Default(Field(data, "frequency"), JStr("monthly"));
      var autoPay := Default(Field(data, "autoPay"), JBool(false));
      var category := Default(Field(data, "category"), JStr("Other"));
      var n := TextValue(Some(name));
      if n.Err? then Err(n.error) else
      var a := NumberValue(Some(amount));
      if a.Err? then Err(a.error) else
      var d := NumberValue(Some(dueDate));
      if d.Err? then Err(d.error) else
      var f := TextValue(Some(frequency));
      if f.Err? then Err(f.error) else
      var c := TextValue(Some(category));
      if c.Err? then Err(c.error) else
      Ok(Insert(BillArgs(name, amount, dueDate, frequency, if Truthy(autoPay) then 1 else 0,
                         n.value, a.value, d.value, f.value, c.value)))
  }

  function BillDone(a: BillArgs, row: BillRow): ActionResult {
    ActionResult(
      true, Some(JStr("CREATE_BILL")), Some(row.id),
      Some(JStr("\U{2705} Added bill: " + DisplayText(a.name) + " - $" + DisplayText(a.amount) + "/" + DisplayText(a.frequency)
                + " (Due: " + DisplayText(a.dueDate) + "th)")),
      None,
      Fields(map["id" := IdJson(row.id), "name" := a.name, "amount" := a.amount, "dueDate" := a.dueDate, "frequency" := a.frequency]),
      false, false, false)
  }

  function CreateBillStep(t: Tables, userId: int, data: Json): (r: (Result<ActionResult>, Tables))
    ensures r.0.Ok? && r.0.value.success ==>
              r.0.value.id == Some(t.lastBillId + 1) && AppendedOne(t, r.1, BillsTable, userId, t.lastBillId + 1)
    ensures !(r.0.Ok? && r.0.value.success) ==> r.1 == t
  {
    match BillPlan(data)
    case Err(e) => (Err(e), t)
    case Ok(Reject(res)) => (Ok(res), t)
    case Ok(Insert(a)) =>
      var insert := AddBill(t, Some(userId), a.nameColumn, a.amountColumn, a.dueDateColumn, a.frequencyColumn,
                               a.categoryColumn, a.autoPay);
      if insert.0.Err? then (Err(insert.0.error), t) else (Ok(BillDone(a, insert.0.value)), insert.1)
  }

  // ---------------------------------------------------------------- read-only handlers

  /** The executor's frequency factors: monthly 1, biweekly 2.17, weekly 4.33, anything else 1/12. */
  function Multiplier(frequency: string): real {
    if frequency == "monthly" then 1.0
    else if frequency == "biweekly" then 2.17
    else if frequency == "weekly" then 4.33
    else 1.0 / 12.0
  }

  /** Σ amount × Multiplier(frequency). */
  function MonthlyIncome(rows: seq<IncomeRow>): real {
    if rows == [] then 0.0 else rows[0].amount * Multiplier(rows[0].frequency) + MonthlyIncome(rows[1..])
  }

  /** Σ amount. */
  function ExpenseTotal(rows: seq<ExpenseRow>): real {
    if rows == [] then 0.0 else rows[0].amount + ExpenseTotal(rows[1..])
  }

  function Verdict(totalIncome: real, totalExpenses: real): string {
    if totalIncome > totalExpenses then "surplus" else "deficit"
  }

  function BudgetMessage(totalIncome: real, totalExpenses: real): string {
    "\U{1F4CA} Budget Analysis: Monthly income $" + Fixed2(totalIncome) + ", expenses $" + Fixed2(totalExpenses)
    + ", " + Verdict(totalIncome, totalExpenses) + " $" + Fixed2(Abs(totalIncome - totalExpenses))
  }

  function BudgetAnalysis(income: seq<IncomeRow>, expenses: seq<ExpenseRow>): ActionResult {
    var ti := MonthlyIncome(income);
    var te := ExpenseTotal(expenses);
    ActionResult(true, Some(JStr("GENERATE_BUDGET_ANALYSIS")), None, Some(JStr(BudgetMessage(ti, te))), None,
                 Budget(ti, te, ti - te), true, false, false)
  }

  function DebtPlanResult(debts: seq<DebtRow>): ActionResult {
    if |debts| == 0 then
      ActionResult(false, Some(JStr("GENERATE_DEBT_PLAN")), None, Some(JStr("\U{274C} No debts found. Add your debts first.")),
                   None, NoData, false, false, true)
    else
      ActionResult(true, Some(JStr("GENERATE_DEBT_PLAN")), None,
                   Some(JStr("\U{1F4CB} Generating debt payoff plan for " + NatToString(|debts|) + " debt(s)...")),
                   None, DebtList(|debts|, debts), true, false, false)
  }

  function SavingsPlanResult(goals: seq<SavingsRow>): ActionResult {
    if |goals| == 0 then
      ActionResult(false, Some(JStr("GENERATE_SAVINGS_PLAN")), None, Some(JStr("\U{274C} No savings goals found. Add your goals first.")),
                   None, NoData, false, false, true)
    else
      ActionResult(true, Some(JStr("GENERATE_SAVINGS_PLAN")), None,
                   Some(JStr("\U{1F4B0} Generating savings plan for " + NatToString(|goals|) + " goal(s)...")),
                   None, GoalList(|goals|, goals), true, false, false)
  }

  const DefaultQuestion := "I need more information. Can you provide more details?"

  /** ASK_QUESTION answers with `data.question || <default>`; reading it from null data throws. */
  function AskQuestion(data: Json): Result<ActionResult> {
    if data == JNull then Err("Cannot read properties of null (reading 'question')")
    else Ok(ActionResult(true, Some(JStr("ASK_QUESTION")), None, Some(Or(Field(data, "question"), JStr(DefaultQuestion))),
                         None, NoData, false, true, false))
  }

  const ConversationReply := "I understand. How can I help you with your finances?"

  function Conversation(): ActionResult {
    ActionResult(true, Some(JStr("CONVERSATION")), None, Some(JStr(ConversationReply)), None, NoData, true, false, false)
  }

  /** `getFinancialSnapshot`: every table's rows of one user. */
  datatype Snapshot = Snapshot(
    income: seq<IncomeRow>, expenses: seq<ExpenseRow>, debts: seq<DebtRow>,
    savings: seq<SavingsRow>, bills: seq<BillRow>)

  function FinancialSnapshot(t: Tables, userId: int): (s: Snapshot)
    ensures forall row :: row in s.income <==> row in t.income && row.userId == userId
    ensures forall row :: row in s.expenses <==> row in t.expenses && row.userId == userId
    ensures forall row :: row in s.debts <==> row in t.debts && row.userId == userId
    ensures forall row :: row in s.savings <==> row in t.savings && row.userId == userId
    ensures forall row :: row in s.bills <==> row in t.bills && row.userId == userId
  {
    Snapshot(IncomeOf(t, userId), ExpensesOf(t, userId), DebtsOf(t, userId), SavingsOf(t, userId), BillsOf(t, userId))
  }

  // ---------------------------------------------------------------- executeCommand / executeCommands

  /** The ten actions the `switch` handles. */
  datatype Action =
    | AddsIncome | AddsExpense | AddsDebt | AddsSavingsGoal | AddsBill
    | AnalyzesBudget | PlansDebt | PlansSavings | AsksQuestion | Converses

  function ActionName(a: Action): string {
    match a
    case AddsIncome => "CREATE_INCOME"
    case AddsExpense => "CREATE_EXPENSE"
    case AddsDebt => "CREATE_DEBT"
    case AddsSavingsGoal => "CREATE_SAVINGS_GOAL"
    case AddsBill => "CREATE_BILL"
    case AnalyzesBudget => "GENERATE_BUDGET_ANALYSIS"
    case PlansDebt => "GENERATE_DEBT_PLAN"
    case PlansSavings => "GENERATE_SAVINGS_PLAN"
    case AsksQuestion => "ASK_QUESTION"
    case Converses => "CONVERSATION"
  }

  /** The `case` label `action === <name>` selects; None falls to `default`. */
  function ActionOf(action: Json): (r: Option<Action>)
    ensures r.Some? ==> action == JStr(ActionName(r.value))
  {
    if action == JStr("CREATE_INCOME") then Some(AddsIncome)
    else if action == JStr("CREATE_EXPENSE") then Some(AddsExpense)
    else if action == JStr("CREATE_DEBT") then Some(AddsDebt)
    else if action == JStr("CREATE_SAVINGS_GOAL") then Some(AddsSavingsGoal)
    else if action == JStr("CREATE_BILL") then Some(AddsBill)
    else if action == JStr("GENERATE_BUDGET_ANALYSIS") then Some(AnalyzesBudget)
    else if action == JStr("GENERATE_DEBT_PLAN") then Some(PlansDebt)
    else if action == JStr("GENERATE_SAVINGS_PLAN") then Some(PlansSavings)
    else if action == JStr("ASK_QUESTION") then Some(AsksQuestion)
    else if action == JStr("CONVERSATION") then Some(Converses)
    else None
  }

  /** Every action is selected by its own name and by no other. */
  lemma ActionNamesSelect(a: Action)
    ensures ActionOf(JStr(ActionName(a))) == Some(a)
  {
  }

  predicate Creates(a: Action) {
    a.AddsIncome? || a.AddsExpense? || a.AddsDebt? || a.AddsSavingsGoal? || a.AddsBill?
  }

  /** `!userId` is false: an id is given and it is not 0. */
  predicate UserIdGiven(userId: Option<int>) {
    userId.Some? && userId.value != 0
  }

  /** The `switch (action)` inside the `try`; `Err` is an exception the `catch` receives. */
  function HandlerStep(t: Tables, action: Json, data: Json, userId: int, today: string): (Result<ActionResult>, Tables) {
    match ActionOf(action)
    case Some(AddsIncome) => CreateIncomeStep(t, userId, data)
    case Some(AddsExpense) => CreateExpenseStep(t, userId, data, today)
    case Some(AddsDebt) => CreateDebtStep(t, userId, data)
    case Some(AddsSavingsGoal) => CreateSavingsGoalStep(t, userId, data)
    case Some(AddsBill) => CreateBillStep(t, userId, data)
    case Some(AnalyzesBudget) => (Ok(BudgetAnalysis(IncomeOf(t, userId), ExpensesOf(t, userId))), t)
    case Some(PlansDebt) => (Ok(DebtPlanResult(DebtsOf(t, userId))), t)
    case Some(PlansSavings) => (Ok(SavingsPlanResult(SavingsOf(t, userId))), t)
    case Some(AsksQuestion) => (AskQuestion(data), t)
    case Some(Converses) => (Ok(Conversation()), t)
    case None => (Ok(UnknownAction(action)), t)
  }

  function UnknownAction(action: Json): ActionResult {
    ActionResult(false, None, None, None, Some("Unknown action: " + DisplayText(action)), NoData, false, false, false)
  }

  /** `executeCommand`: `Err` only for the missing user id, which is thrown to the caller. */
  function ExecuteStep(t: Tables, command: Command, userId: Option<int>, today: string): (r: (Result<ActionResult>, Tables))
    ensures r.0.Err? <==> !UserIdGiven(userId)
    ensures r.0.Err? ==> r == (Err(UserIdRequired), t)
  {
    if !UserIdGiven(userId) then (Err(UserIdRequired), t)
    else
      var handled := HandlerStep(t, command.action, command.data, userId.value, today);
      if handled.0.Err? then (Ok(Failure(command.action, handled.0.error)), handled.1) else handled
  }

  /** `executeCommands`, one command after the other; an exception ends the whole call. */
  function ExecuteAllStep(t: Tables, commands: seq<Command>, userId: Option<int>, today: string): (Result<seq<ExecResult>>, Tables)
    decreases |commands|
  {
    if commands == [] then (Ok([]), t)
    else
      var prefix := ExecuteAllStep(t, commands[..|commands| - 1], userId, today);
      if prefix.0.Err? then prefix
      else
        var last := commands[|commands| - 1];
        var next := ExecuteStep(prefix.1, last, userId, today);
        if next.0.Err? then (Err(next.0.error), next.1)
        else (Ok(prefix.0.value + [ExecResult(last.action, last.confidence, next.0.value)]), next.1)
  }

  // ---------------------------------------------------------------- what the steps promise

  /** The table each create action writes to. */
  datatype Table = IncomeTable | ExpensesTable | DebtsTable | SavingsTable | BillsTable

  /**
   * `t'` is `t` with exactly one row appended to `table`, owned by `userId`
   * and numbered `id`, that table's counter moved to `id`, and nothing else changed.
   */
  predicate AppendedOne(t: Tables, t': Tables, table: Table, userId: int, id: int) {
    match table
    case IncomeTable =>
      && |t'.income| == |t.income| + 1 && t'.income[..|t.income|] == t.income
      && t'.income[|t.income|].id == id && t'.income[|t.income|].userId == userId
      && t' == t.(income := t'.income, lastIncomeId := id)
    case ExpensesTable =>
      && |t'.expenses| == |t.expenses| + 1 && t'.expenses[..|t.expenses|] == t.expenses
      && t'.expenses[|t.expenses|].id == id && t'.expenses[|t.expenses|].userId == userId
      && t' == t.(expenses := t'.expenses, lastExpenseId := id)
    case DebtsTable =>
      && |t'.debts| == |t.debts| + 1 && t'.debts[..|t.debts|] == t.debts
      && t'.debts[|t.debts|].id == id && t'.debts[|t.debts|].userId == userId
      && t' == t.(debts := t'.debts, lastDebtId := id)
    case SavingsTable =>
      && |t'.savings| == |t.savings| + 1 && t'.savings[..|t.savings|] == t.savings
      && t'.savings[|t.savings|].id == id && t'.savings[|t.savings|].userId == userId
      && t' == t.(savings := t'.savings, lastSavingsId := id)
    case BillsTable =>
      && |t'.bills| == |t.bills| + 1 && t'.bills[..|t.bills|] == t.bills
      && t'.bills[|t.bills|].id == id && t'.bills[|t.bills|].userId == userId
      && t' == t.(bills := t'.bills, lastBillId := id)
  }

  /** Only the five create actions can write; every other command leaves the store as it was. */
  lemma OnlyCreatesWrite(t: Tables, command: Command, userId: Option<int>, today: string)
    requires ActionOf(command.action).None? || !Creates(ActionOf(command.action).value)
    ensures ExecuteStep(t, command, userId, today).1 == t
  {
  }

  /**
   * createIncome, createExpense and createDebt accept the amount (the
   * balance for a debt) exactly when `!amount || amount <= 0` is false; a
   * refused amount is answered with the handler's message and writes
   * nothing. Null data cannot be destructured and throws instead.
   */
  lemma IncomeAmountRejected(t: Tables, userId: int, data: Json)
    ensures data == JNull ==> CreateIncomeStep(t, userId, data) == (Err(DestructureError("source")), t)
    ensures data != JNull ==>
              (CreateIncomeStep(t, userId, data) == (Ok(Said(false, "CREATE_INCOME", IncomeRejected)), t)
               <==> NotPositive(Field(data, "amount")))
  {
  }

  lemma ExpenseAmountRejected(t: Tables, userId: int, data: Json, today: string)
    ensures data == JNull ==> CreateExpenseStep(t, userId, data, today) == (Err(DestructureError("description")), t)
    ensures data != JNull ==>
              (CreateExpenseStep(t, userId, data, today) == (Ok(Said(false, "CREATE_EXPENSE", ExpenseRejected)), t)
               <==> NotPositive(Field(data, "amount")))
  {
  }

  lemma DebtBalanceRejected(t: Tables, userId: int, data: Json)
    ensures data == JNull ==> CreateDebtStep(t, userId, data) == (Err(DestructureError("name")), t)
    ensures data != JNull ==>
              (CreateDebtStep(t, userId, data) == (Ok(Said(false, "CREATE_DEBT", DebtRejected)), t)
               <==> NotPositive(Field(data, "balance")))
  {
  }

  /**
   * createIncome succeeds exactly when the data can be destructured, the
   * amount (default 0) passes validation, source (default "Income"), amount
   * and frequency (default "monthly") bind to values and the user exists.
   * It then appends the one row holding those values, confirms them and
   * returns them with the new id.
   */
  lemma IncomeStored(t: Tables, userId: int, data: Json)
    ensures var r := CreateIncomeStep(t, userId, data);
            var source := Default(Field(data, "source"), JStr("Income"));
            var amount := Default(Field(data, "amount"), JNum(0.0));
            var frequency := Default(Field(data, "frequency"), JStr("monthly"));
            && (r.0.Ok? && r.0.value.success
                <==> && data != JNull && !NotPositive(Some(amount))
                     && Binds(TextValue(Some(source))) && Binds(NumberValue(Some(amount))) && Binds(TextValue(Some(frequency)))
                     && HasUser(t.users, userId))
            && (r.0.Ok? && r.0.value.success ==>
                  && r.1 == t.(income := t.income + [IncomeRow(t.lastIncomeId + 1, userId, NumberValue(Some(amount)).value.value,
                                                               TextValue(Some(source)).value.value,
                                                               TextValue(Some(frequency)).value.value)],
                               lastIncomeId := t.lastIncomeId + 1)
                  && r.0.value.id == Some(t.lastIncomeId + 1)
                  && r.0.value.message == Some(JStr("\U{2705} Added income: $" + DisplayText(amount) + "/" + DisplayText(frequency)
                                                    + " from " + DisplayText(source)))
                  && r.0.value.data == Fields(map["id" := IdJson(t.lastIncomeId + 1), "source" := source,
                                                  "amount" := amount, "frequency" := frequency]))
  {
  }

  /**
   * createExpense succeeds exactly when the data can be destructured, the
   * amount passes validation, description (nullable), amount, category and
   * the date (`date || today`) bind and the user exists. The row holds
   * those values and `recurring` as 1 when truthy (default false), else 0.
   */
  lemma ExpenseStored(t: Tables, userId: int, data: Json, today: string)
    ensures var r := CreateExpenseStep(t, userId, data, today);
            var amount := Field(data, "amount");
            var date := Or(Field(data, "date"), JStr(today));
            && (r.0.Ok? && r.0.value.success
                <==> && data != JNull && !NotPositive(amount)
                     && TextValue(Field(data, "description")).Ok? && Binds(NumberValue(amount))
                     && Binds(TextValue(Field(data, "category"))) && Binds(TextValue(Some(date)))
                     && HasUser(t.users, userId))
            && (r.0.Ok? && r.0.value.success ==>
                  && r.1 == t.(expenses := t.expenses + [ExpenseRow(t.lastExpenseId + 1, userId, NumberValue(amount).value.value,
                                                                   TextValue(Field(data, "category")).value.value,
                                                                   TextValue(Field(data, "description")).value,
                                                                   TextValue(Some(date)).value.value,
                                                                   if Truthy(Default(Field(data, "recurring"), JBool(false))) then 1 else 0)],
                               lastExpenseId := t.lastExpenseId + 1)
                  && r.0.value.id == Some(t.lastExpenseId + 1)
                  && r.0.value.message == Some(JStr("\U{2705} Added expense: $" + OptText(amount) + " for "
                                                    + OptText(Field(data, "description")) + " (" + OptText(Field(data, "category")) + ")")))
  {
  }

  /**
   * createDebt succeeds exactly when the data can be destructured, the
   * balance passes validation, name, balance and minimumPayment (default
   * balance × 0.02) bind to values, interestRate (default 0) and dueDate
   * (default 1) bind, and the user exists; the row holds those values.
   */
  lemma DebtStored(t: Tables, userId: int, data: Json)
    ensures var r := CreateDebtStep(t, userId, data);
            var balance := Field(data, "balance");
            var rate := Default(Field(data, "interestRate"), JNum(0.0));
            var minimum := Default(Field(data, "minimumPayment"), TwoPercentOf(balance));
            var due := Default(Field(data, "dueDate"), JNum(1.0));
            && (r.0.Ok? && r.0.value.success
                <==> && data != JNull && !NotPositive(balance)
                     && Binds(TextValue(Field(data, "name"))) && Binds(NumberValue(balance))
                     && NumberValue(Some(rate)).Ok? && Binds(NumberValue(Some(minimum))) && NumberValue(Some(due)).Ok?
                     && HasUser(t.users, userId))
            && (r.0.Ok? && r.0.value.success ==>
                  && r.1 == t.(debts := t.debts + [DebtRow(t.lastDebtId + 1, userId, TextValue(Field(data, "name")).value.value,
                                                           NumberValue(balance).value.value, NumberValue(Some(rate)).value,
                                                           NumberValue(Some(minimum)).value.value, NumberValue(Some(due)).value, None)],
                               lastDebtId := t.lastDebtId + 1)
                  && r.0.value.id == Some(t.lastDebtId + 1)
                  && r.0.value.message == Some(JStr(DebtMessage(Field(data, "name"), balance, rate))))
  {
  }

  /**
   * createSavingsGoal validates nothing: it succeeds exactly when the data
   * can be destructured, name and targetAmount bind to values, currentAmount
   * (default 0), targetDate and monthlyContribution (default 0) bind, and
   * the user exists; the row holds those values.
   */
  lemma SavingsGoalStored(t: Tables, userId: int, data: Json)
    ensures var r := CreateSavingsGoalStep(t, userId, data);
            var current := Default(Field(data, "currentAmount"), JNum(0.0));
            var monthly := Default(Field(data, "monthlyContribution"), JNum(0.0));
            && (r.0.Ok? && r.0.value.success
                <==> && data != JNull
                     && Binds(TextValue(Field(data, "name"))) && Binds(NumberValue(Field(data, "targetAmount")))
                     && NumberValue(Some(current)).Ok? && TextValue(Field(data, "targetDate")).Ok?
                     && NumberValue(Some(monthly)).Ok?
                     && HasUser(t.users, userId))
            && (r.0.Ok? && r.0.value.success ==>
                  && r.1 == t.(savings := t.savings + [SavingsRow(t.lastSavingsId + 1, userId, TextValue(Field(data, "name")).value.value,
                                                                  NumberValue(Field(data, "targetAmount")).value.value,
                                                                  NumberValue(Some(current)).value,
                                                                  TextValue(Field(data, "targetDate")).value,
                                                                  NumberValue(Some(monthly)).value)],
                               lastSavingsId := t.lastSavingsId + 1)
                  && r.0.value.id == Some(t.lastSavingsId + 1)
                  && r.0.value.message == Some(JStr("\U{2705} Added savings goal: " + OptText(Field(data, "name"))
                                                    + " - Target $" + OptText(Field(data, "targetAmount")))))
  {
  }

  /**
   * createBill validates nothing: with name "Unnamed Bill", amount 0, dueDate
   * 1, frequency "monthly", autoPay false and category "Other" as defaults,
   * it succeeds exactly when the data can be destructured, the five NOT NULL
   * values bind, category binds and the user exists; the row holds them.
   */
  lemma BillStored(t: Tables, userId: int, data: Json)
    ensures var r := CreateBillStep(t, userId, data);
            var name := Default(Field(data, "name"), JStr("Unnamed Bill"));
            var amount := Default(Field(data, "amount"), JNum(0.0));
            var due := Default(Field(data, "dueDate"), JNum(1.0));
            var frequency := Default(Field(data, "frequency"), JStr("monthly"));
            var category := Default(Field(data, "category"), JStr("Other"));
            && (r.0.Ok? && r.0.value.success
                <==> && data != JNull
                     && Binds(TextValue(Some(name))) && Binds(NumberValue(Some(amount))) && Binds(NumberValue(Some(due)))
                     && Binds(TextValue(Some(frequency))) && TextValue(Some(category)).Ok?
                     && HasUser(t.users, userId))
            && (r.0.Ok? && r.0.value.success ==>
                  && r.1 == t.(bills := t.bills + [BillRow(t.lastBillId + 1, userId, TextValue(Some(name)).value.value,
                                                           NumberValue(Some(amount)).value.value, NumberValue(Some(due)).value.value,
                                                           TextValue(Some(frequency)).value.value, TextValue(Some(category)).value,
                                                           if Truthy(Default(Field(data, "autoPay"), JBool(false))) then 1 else 0)],
                               lastBillId := t.lastBillId + 1)
                  && r.0.value.id == Some(t.lastBillId + 1)
                  && r.0.value.message == Some(JStr("\U{2705} Added bill: " + DisplayText(name) + " - $" + DisplayText(amount) + "/"
                                                    + DisplayText(frequency) + " (Due: " + DisplayText(due) + "th)")))
  {
  }

  /**
   * What a create adds is what the reads see next: after a successful
   * createIncome the user's income rows gain exactly the new row at the end,
   * so the budget analysis's monthly income grows by the row's own share
   * (its amount times its frequency factor, MonthlyIncomeOfOne), and every
   * other user's rows stay as they were.
   */
  lemma CreatedIncomeIsAnalysed(t: Tables, userId: int, data: Json, other: int)
    requires CreateIncomeStep(t, userId, data).0.Ok? && CreateIncomeStep(t, userId, data).0.value.success
    ensures var t' := CreateIncomeStep(t, userId, data).1;
            var row := t'.income[|t.income|];
            && IncomeOf(t', userId) == IncomeOf(t, userId) + [row]
            && MonthlyIncome(IncomeOf(t', userId)) == MonthlyIncome(IncomeOf(t, userId)) + MonthlyIncome([row])
            && (other != userId ==> IncomeOf(t', other) == IncomeOf(t, other))
  {
    var step := CreateIncomeStep(t, userId, data);
    AppendedRow(t, step.1, userId, t.lastIncomeId + 1);
    IncomeRowAdded(t, step.1, step.1.income[|t.income|], userId, other);
  }

  /** An appended income row is the table's last row. */
  lemma AppendedRow(t: Tables, t': Tables, userId: int, id: int)
    requires AppendedOne(t, t', IncomeTable, userId, id)
    ensures t'.income == t.income + [t'.income[|t.income|]] && t'.income[|t.income|].userId == userId
  {
    assert t'.income == t'.income[..|t.income|] + [t'.income[|t.income|]];
  }

  lemma IncomeRowAdded(t: Tables, t': Tables, row: IncomeRow, userId: int, other: int)
    requires t'.income == t.income + [row] && row.userId == userId
    ensures IncomeOf(t', userId) == IncomeOf(t, userId) + [row]
    ensures MonthlyIncome(IncomeOf(t', userId)) == MonthlyIncome(IncomeOf(t, userId)) + MonthlyIncome([row])
    ensures other != userId ==> IncomeOf(t', other) == IncomeOf(t, other)
  {
    WhereConcat(t.income, [row], (r: IncomeRow) => r.userId, userId);
    WhereConcat(t.income, [row], (r: IncomeRow) => r.userId, other);
    MonthlyIncomeAppend(IncomeOf(t, userId), [row]);
  }

  /** After a successful createExpense the user's expense total grows by exactly the new amount. */
  lemma CreatedExpenseIsAnalysed(t: Tables, userId: int, data: Json, today: string, other: int)
    requires CreateExpenseStep(t, userId, data, today).0.Ok? && CreateExpenseStep(t, userId, data, today).0.value.success
    ensures var t' := CreateExpenseStep(t, userId, data, today).1;
            var row := t'.expenses[|t.expenses|];
            && ExpensesOf(t', userId) == ExpensesOf(t, userId) + [row]
            && ExpenseTotal(ExpensesOf(t', userId)) == ExpenseTotal(ExpensesOf(t, userId)) + row.amount
            && (other != userId ==> ExpensesOf(t', other) == ExpensesOf(t, other))
  {
    var t' := CreateExpenseStep(t, userId, data, today).1;
    var row := t'.expenses[|t.expenses|];
    assert t'.expenses == t.expenses + [row];
    WhereConcat(t.expenses, [row], (r: ExpenseRow) => r.userId, userId);
    WhereConcat(t.expenses, [row], (r: ExpenseRow) => r.userId, other);
    ExpenseTotalAppend(ExpensesOf(t, userId), [row]);
  }

  /** After a successful createDebt the debt plan counts one more debt and succeeds. */
  lemma CreatedDebtIsPlanned(t: Tables, userId: int, data: Json)
    requires CreateDebtStep(t, userId, data).0.Ok? && CreateDebtStep(t, userId, data).0.value.success
    ensures var t' := CreateDebtStep(t, userId, data).1;
            && DebtsOf(t', userId) == DebtsOf(t, userId) + [t'.debts[|t.debts|]]
            && DebtPlanResult(DebtsOf(t', userId)).success
            && DebtPlanResult(DebtsOf(t', userId)).data.debtCount == |DebtsOf(t, userId)| + 1
  {
    var t' := CreateDebtStep(t, userId, data).1;
    var row := t'.debts[|t.debts|];
    assert t'.debts == t.debts + [row];
    WhereConcat(t.debts, [row], (r: DebtRow) => r.userId, userId);
  }

  /** The defaults createBill fills in when only an amount is given. */
  lemma BillPlanDefaults(amount: real)
    ensures BillPlan(JObj(map["amount" := JNum(amount)]))
            == Ok(Insert(BillArgs(JStr("Unnamed Bill"), JNum(amount), JNum(1.0), JStr("monthly"), 0,
                                  Some("Unnamed Bill"), Some(amount), Some(1.0), Some("monthly"), Some("Other"))))
  {
    var data := JObj(map["amount" := JNum(amount)]);
    assert Field(data, "name").None? && Field(data, "dueDate").None? && Field(data, "frequency").None?;
    assert Field(data, "autoPay").None? && Field(data, "category").None?;
  }

  /**
   * A bill with only an amount gets every default and is stored whatever
   * the amount, even a negative one, as long as the user exists.
   */
  lemma BillDefaults(t: Tables, userId: int, amount: real)
    requires HasUser(t.users, userId)
    ensures var r := CreateBillStep(t, userId, JObj(map["amount" := JNum(amount)]));
            && r.0.Ok? && r.0.value.success
            && r.1 == t.(bills := t.bills + [BillRow(t.lastBillId + 1, userId, "Unnamed Bill", amount, 1.0, "monthly", Some("Other"), 0)],
                         lastBillId := t.lastBillId + 1)
  {
    BillPlanDefaults(amount);
  }

  /** The defaults createDebt fills in when only a name and a positive balance are given. */
  lemma DebtPlanDefaults(name: string, balance: real)
    requires balance > 0.0
    ensures DebtPlan(JObj(map["name" := JStr(name), "balance" := JNum(balance)]))
            == Ok(Insert(DebtArgs(Some(JStr(name)), Some(JNum(balance)), JNum(0.0), JNum(balance * 0.02), JNum(1.0),
                                  Some(name), Some(balance), Some(0.0), Some(balance * 0.02), Some(1.0))))
  {
    var data := JObj(map["name" := JStr(name), "balance" := JNum(balance)]);
    assert Field(data, "name") == Some(JStr(name)) && Field(data, "balance") == Some(JNum(balance));
    assert Field(data, "interestRate").None? && Field(data, "minimumPayment").None? && Field(data, "dueDate").None?;
  }

  /**
   * A debt given only a name and a positive balance stores interest rate 0,
   * a minimum payment of 2% of the balance and due day 1, and its
   * confirmation has no "at X% APR" clause.
   */
  lemma DebtDefaults(t: Tables, userId: int, name: string, balance: real)
    requires HasUser(t.users, userId) && balance > 0.0
    ensures var r := CreateDebtStep(t, userId, JObj(map["name" := JStr(name), "balance" := JNum(balance)]));
            && r.0.Ok? && r.0.value.success
            && r.0.value.message == Some(JStr("\U{2705} Added debt: " + name + " - $" + NumText(balance)))
            && r.1 == t.(debts := t.debts + [DebtRow(t.lastDebtId + 1, userId, name, balance, Some(0.0), balance * 0.02, Some(1.0), None)],
                         lastDebtId := t.lastDebtId + 1)
  {
    DebtPlanDefaults(name, balance);
    var a := DebtArgs(Some(JStr(name)), Some(JNum(balance)), JNum(0.0), JNum(balance * 0.02), JNum(1.0),
                      Some(name), Some(balance), Some(0.0), Some(balance * 0.02), Some(1.0));
    var insert := AddDebt(t, Some(userId), a.nameColumn, a.balanceColumn, a.interestRateColumn, a.minimumPaymentColumn, a.dueDateColumn, None);
    assert insert.0.value == DebtRow(t.lastDebtId + 1, userId, name, balance, Some(0.0), balance * 0.02, Some(1.0), None);
    DebtRateShown(Some(JStr(name)), Some(JNum(balance)), 0.0);
    assert OptText(Some(JStr(name))) == name && OptText(Some(JNum(balance))) == NumText(balance);
  }

  /** A truthy interest rate is named in the confirmation; 0 (the default) is not. */
  lemma DebtRateShown(name: Option<Json>, balance: Option<Json>, rate: real)
    ensures rate != 0.0 ==> DebtMessage(name, balance, JNum(rate)) == DebtMessage(name, balance, JNum(0.0)) + " at " + NumText(rate) + "% APR"
    ensures DebtMessage(name, balance, JNum(0.0)) == "\U{2705} Added debt: " + OptText(name) + " - $" + OptText(balance)
  {
  }

  /** An unknown action answers `{success:false, error:"Unknown action: <action>"}` and writes nothing. */
  lemma UnknownActionRejected(t: Tables, command: Command, userId: int, today: string)
    requires userId != 0
    requires forall a: Action :: command.action != JStr(ActionName(a))
    ensures ExecuteStep(t, command, Some(userId), today) == (Ok(UnknownAction(command.action)), t)
  {
  }

  /** Without a user id every command throws before anything is read or written. */
  lemma MissingUserIdThrows(t: Tables, command: Command, userId: Option<int>, today: string)
    ensures !UserIdGiven(userId) <==> ExecuteStep(t, command, userId, today).0.Err?
    ensures ExecuteStep(t, command, userId, today).0.Err? ==> ExecuteStep(t, command, userId, today) == (Err(UserIdRequired), t)
  {
  }

  /**
   * `executeCommands` returns one result per command, in input order, each
   * carrying that command's action and confidence; it throws exactly when
   * there is a command and no user id, and then nothing was written.
   */
  lemma {:induction false} ExecuteAllShape(t: Tables, commands: seq<Command>, userId: Option<int>, today: string)
    ensures var r, t' := ExecuteAllStep(t, commands, userId, today).0, ExecuteAllStep(t, commands, userId, today).1;
            && (r.Err? <==> commands != [] && !UserIdGiven(userId))
            && (r.Err? ==> r.error == UserIdRequired && t' == t)
            && (r.Ok? ==> |r.value| == |commands|
                          && forall i :: 0 <= i < |commands| ==>
                               r.value[i].command == commands[i].action && r.value[i].confidence == commands[i].confidence)
  {
    if UserIdGiven(userId) {
      ExecuteAllWithUser(t, commands, userId, today);
    } else if commands != [] {
      ExecuteAllWithoutUser(t, commands, userId, today);
    }
  }

  /** Without a user id the first command throws, and nothing runs. */
  lemma {:induction false} ExecuteAllWithoutUser(t: Tables, commands: seq<Command>, userId: Option<int>, today: string)
    requires commands != [] && !UserIdGiven(userId)
    ensures ExecuteAllStep(t, commands, userId, today) == (Err(UserIdRequired), t)
    decreases |commands|
  {
    var init := commands[..|commands| - 1];
    if init != [] {
      ExecuteAllWithoutUser(t, init, userId, today);
    }
  }

  /** With a user id no command throws, and every command gets its own result, in order. */
  lemma {:induction false} ExecuteAllWithUser(t: Tables, commands: seq<Command>, userId: Option<int>, today: string)
    requires UserIdGiven(userId)
    ensures var r := ExecuteAllStep(t, commands, userId, today).0;
            && r.Ok? && |r.value| == |commands|
            && forall i :: 0 <= i < |commands| ==>
                 r.value[i].command == commands[i].action && r.value[i].confidence == commands[i].confidence
    decreases |commands|
  {
    if commands != [] {
      var init := commands[..|commands| - 1];
      var last := commands[|commands| - 1];
      ExecuteAllWithUser(t, init, userId, today);
      var prefix := ExecuteAllStep(t, init, userId, today);
      var next := ExecuteStep(prefix.1, last, userId, today);
      var all := prefix.0.value + [ExecResult(last.action, last.confidence, next.0.value)];
      assert ExecuteAllStep(t, commands, userId, today).0 == Ok(all);
      forall i | 0 <= i < |commands|
        ensures all[i].command == commands[i].action && all[i].confidence == commands[i].confidence
      {
        if i < |init| {
          assert commands[i] == init[i];
        }
      }
    }
  }

  /** The executor's monthly income is additive over rows, so it does not depend on how rows are split. */
  lemma {:induction false} MonthlyIncomeAppend(a: seq<IncomeRow>, b: seq<IncomeRow>)
    ensures MonthlyIncome(a + b) == MonthlyIncome(a) + MonthlyIncome(b)
    decreases |a|
  {
    if a != [] {
      assert (a + b)[1..] == a[1..] + b;
      MonthlyIncomeAppend(a[1..], b);
    } else {
      assert a + b == b;
    }
  }

  lemma {:induction false} ExpenseTotalAppend(a: seq<ExpenseRow>, b: seq<ExpenseRow>)
    ensures ExpenseTotal(a + b) == ExpenseTotal(a) + ExpenseTotal(b)
    decreases |a|
  {
    if a != [] {
      assert (a + b)[1..] == a[1..] + b;
      ExpenseTotalAppend(a[1..], b);
    } else {
      assert a + b == b;
    }
  }

  /** One income row contributes its amount times the executor's factor; an unknown frequency counts one twelfth. */
  lemma MonthlyIncomeOfOne(row: IncomeRow)
    ensures MonthlyIncome([row]) == row.amount * Multiplier(row.frequency)
    ensures row.frequency !in {"monthly", "biweekly", "weekly"} ==> MonthlyIncome([row]) == row.amount / 12.0
  {
  }

  /**
   * Budget analysis reports balance = income − expenses, calls the result
   * a surplus only when income is strictly greater (equal totals are a
   * deficit), and asks for an AI reply.
   */
  lemma BudgetAnalysisFacts(income: seq<IncomeRow>, expenses: seq<ExpenseRow>)
    ensures var r := BudgetAnalysis(income, expenses);
            var ti, te := MonthlyIncome(income), ExpenseTotal(expenses);
            && r.success && r.needsAIResponse && r.data == Budget(ti, te, ti - te)
            && r.message == Some(JStr(BudgetMessage(ti, te)))
            && (Verdict(ti, te) == "surplus" <==> ti > te)
            && (ti == te ==> Verdict(ti, te) == "deficit")
  {
  }

  /**
   * The plans need data: without rows they fail with needsMoreData; with
   * rows they succeed, carry the rows and their count, and ask for an AI reply.
   */
  lemma PlanFacts(debts: seq<DebtRow>, goals: seq<SavingsRow>)
    ensures var r := DebtPlanResult(debts);
            && (r.success <==> debts != [])
            && (debts == [] ==> r.needsMoreData && !r.needsAIResponse && r.data == NoData)
            && (debts != [] ==> r.needsAIResponse && r.data == DebtList(|debts|, debts))
    ensures var r := SavingsPlanResult(goals);
            && (r.success <==> goals != [])
            && (goals == [] ==> r.needsMoreData && !r.needsAIResponse && r.data == NoData)
            && (goals != [] ==> r.needsAIResponse && r.data == GoalList(|goals|, goals))
  {
  }

  // ---------------------------------------------------------------- the executor object

  class ActionExecutor {
    const db: Database

    constructor (db: Database)
      ensures this.db == db
    {
      this.db := db;
    }

    method CreateIncome(userId: int, data: Json) returns (r: Result<ActionResult>)
      requires db.Valid()
      modifies db
      ensures db.Valid()
      ensures (r, db.Snapshot()) == CreateIncomeStep(old(db.Snapshot()), userId, data)
    {
      var plan := IncomePlan(data);
      if plan.Err? { return Err(plan.error); }
      match plan.value {
        case Reject(res) => r := Ok(res);
        case Insert(a) =>
          var ins := db.InsertIncome(Some(userId), a.amountColumn, a.sourceColumn, a.frequencyColumn);
          r := if ins.Err? then Err(ins.error) else Ok(IncomeDone(a, ins.value));
      }
    }

    method CreateExpense(userId: int, data: Json, today: string) returns (r: Result<ActionResult>)
      requires db.Valid()
      modifies db
      ensures db.Valid()
      ensures (r, db.Snapshot()) == CreateExpenseStep(old(db.Snapshot()), userId, data, today)
    {
      var plan := ExpensePlan(data, today);
      if plan.Err? { return Err(plan.error); }
      match plan.value {
        case Reject(res) => r := Ok(res);
        case Insert(a) =>
          var ins := db.InsertExpense(Some(userId), a.amountColumn, a.categoryColumn, a.descriptionColumn, a.dateColumn, a.recurring);
          r := if ins.Err? then Err(ins.error) else Ok(ExpenseDone(a, ins.value));
      }
    }

    method CreateDebt(userId: int, data: Json) returns (r: Result<ActionResult>)
      requires db.Valid()
      modifies db
      ensures db.Valid()
      ensures (r, db.Snapshot()) == CreateDebtStep(old(db.Snapshot()), userId, data)
    {
      var plan := DebtPlan(data);
      if plan.Err? { return Err(plan.error); }
      match plan.value {
        case Reject(res) => r := Ok(res);
        case Insert(a) =>
          var ins := db.InsertDebt(Some(userId), a.nameColumn, a.balanceColumn, a.interestRateColumn,
                                   a.minimumPaymentColumn, a.dueDateColumn, None);
          r := if ins.Err? then Err(ins.error) else Ok(DebtDone(a, ins.value));
      }
    }

    method CreateSavingsGoal(userId: int, data: Json) returns (r: Result<ActionResult>)
      requires db.Valid()
      modifies db
      ensures db.Valid()
      ensures (r, db.Snapshot()) == CreateSavingsGoalStep(old(db.Snapshot()), userId, data)
    {
      var plan := SavingsPlan(data);
      if plan.Err? { return Err(plan.error); }
      match plan.value {
        case Reject(res) => r := Ok(res);
        case Insert(a) =>
          var ins := db.InsertSavings(Some(userId), a.nameColumn, a.targetAmountColumn, a.currentAmountColumn,
                                      a.targetDateColumn, a.monthlyContributionColumn);
          r := if ins.Err? then Err(ins.error) else Ok(SavingsDone(a, ins.value));
      }
    }

    method CreateBill(userId: int, data: Json) returns (r: Result<ActionResult>)
      requires db.Valid()
      modifies db
      ensures db.Valid()
      ensures (r, db.Snapshot()) == CreateBillStep(old(db.Snapshot()), userId, data)
    {
      var plan := BillPlan(data);
      if plan.Err? { return Err(plan.error); }
      match plan.value {
        case Reject(res) => r := Ok(res);
        case Insert(a) =>
          var ins := db.InsertBill(Some(userId), a.nameColumn, a.amountColumn, a.dueDateColumn, a.frequencyColumn,
                                   a.categoryColumn, a.autoPay);
          r := if ins.Err? then Err(ins.error) else Ok(BillDone(a, ins.value));
      }
    }

    /** `executeCommand`: `Err` is the exception thrown for a missing user id. */
    method ExecuteCommand(command: Command, userId: Option<int>, today: string) returns (r: Result<ActionResult>)
      requires db.Valid()
      modifies db
      ensures db.Valid()
      ensures (r, db.Snapshot()) == ExecuteStep(old(db.Snapshot()), command, userId, today)
    {
      if !UserIdGiven(userId) {
        return Err(UserIdRequired);
      }
      var u := userId.value;
      var action := command.action;
      var res: Result<ActionResult>;
      match ActionOf(action) {
        case Some(AddsIncome) => res := CreateIncome(u, command.data);
        case Some(AddsExpense) => res := CreateExpense(u, command.data, today);
        case Some(AddsDebt) => res := CreateDebt(u, command.data);
        case Some(AddsSavingsGoal) => res := CreateSavingsGoal(u, command.data);
        case Some(AddsBill) => res := CreateBill(u, command.data);
        case Some(AnalyzesBudget) => res := Ok(BudgetAnalysis(IncomeOf(db.Snapshot(), u), ExpensesOf(db.Snapshot(), u)));
        case Some(PlansDebt) => res := Ok(DebtPlanResult(DebtsOf(db.Snapshot(), u)));
        case Some(PlansSavings) => res := Ok(SavingsPlanResult(SavingsOf(db.Snapshot(), u)));
        case Some(AsksQuestion) => res := AskQuestion(command.data);
        case Some(Converses) => res := Ok(Conversation());
        case None => res := Ok(UnknownAction(action));
      }
      r := if res.Err? then Ok(Failure(action, res.error)) else res;
    }

    /** `executeCommands`: the results in command order, or the exception of the first command that throws. */
    method ExecuteCommands(commands: seq<Command>, userId: Option<int>, today: string) returns (r: Result<seq<ExecResult>>)
      requires db.Valid()
      modifies db
      ensures db.Valid()
      ensures (r, db.Snapshot()) == ExecuteAllStep(old(db.Snapshot()), commands, userId, today)
    {
      var results: seq<ExecResult> := [];
      var i := 0;
      while i < |commands|
        invariant 0 <= i <= |commands|
        invariant db.Valid()
        invariant (Ok(results), db.Snapshot()) == ExecuteAllStep(old(db.Snapshot()), commands[..i], userId, today)
      {
        ghost var before := db.Snapshot();
        var result := ExecuteCommand(commands[i], userId, today);
        if result.Err? {
          ExecuteAllThrowsAt(old(db.Snapshot()), commands, i, userId, today, results, before);
          r := Err(result.error);
          return;
        }
        ExecuteAllExtends(old(db.Snapshot()), commands, i, userId, today, results, before, result.value, db.Snapshot());
        results := results + [ExecResult(commands[i].action, commands[i].confidence, result.value)];
        i := i + 1;
      }
      assert commands[..i] == commands;
      r := Ok(results);
    }
  }

  /** A command that does not throw appends its result to those of the commands before it. */
  lemma ExecuteAllExtends(t: Tables, commands: seq<Command>, i: nat, userId: Option<int>, today: string,
                          results: seq<ExecResult>, t1: Tables, result: ActionResult, t2: Tables)
    requires i < |commands|
    requires ExecuteAllStep(t, commands[..i], userId, today) == (Ok(results), t1)
    requires ExecuteStep(t1, commands[i], userId, today) == (Ok(result), t2)
    ensures ExecuteAllStep(t, commands[..i + 1], userId, today)
            == (Ok(results + [ExecResult(commands[i].action, commands[i].confidence, result)]), t2)
  {
    assert commands[..i + 1][..i] == commands[..i];
  }

  /** A command that throws ends the whole list with its exception and tables. */
  lemma ExecuteAllThrowsAt(t: Tables, commands: seq<Command>, i: nat, userId: Option<int>, today: string,
                           results: seq<ExecResult>, t1: Tables)
    requires i < |commands|
    requires ExecuteAllStep(t, commands[..i], userId, today) == (Ok(results), t1)
    requires ExecuteStep(t1, commands[i], userId, today).0.Err?
    ensures ExecuteAllStep(t, commands, userId, today)
            == (Err(ExecuteStep(t1, commands[i], userId, today).0.error), ExecuteStep(t1, commands[i], userId, today).1)
  {
    assert commands[..i + 1][..i] == commands[..i];
    ExecuteAllThrowStops(t, commands, i + 1, userId, today);
  }

  /** Once a prefix throws, the whole list throws the same exception with the same tables. */
  lemma {:induction false} ExecuteAllThrowStops(t: Tables, commands: seq<Command>, n: nat, userId: Option<int>, today: string)
    requires n <= |commands|
    requires ExecuteAllStep(t, commands[..n], userId, today).0.Err?
    ensures ExecuteAllStep(t, commands, userId, today) == ExecuteAllStep(t, commands[..n], userId, today)
    decreases |commands| - n
  {
    if n < |commands| {
      assert commands[..n + 1][..n] == commands[..n];
      ExecuteAllThrowStops(t, commands, n + 1, userId, today);
    } else {
      assert commands[..n] == commands;
    }
  }
}
