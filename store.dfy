/**
 * The SQLite database of backend/database.js as an in-memory store: one
 * sequence of rows per table, one AUTOINCREMENT counter per table, and the
 * constraints an INSERT can violate (NOT NULL, checked in column order, then
 * the FOREIGN KEY to users and the UNIQUE email). A failed INSERT changes
 * nothing and consumes no id. Values reach a column through better-sqlite3's
 * binding, modelled by TextValue and NumberValue.
 */
module Store {
  import opened Js

  datatype User = User(id: int, name: string, email: Option<string>)

  datatype IncomeRow = IncomeRow(id: int, userId: int, amount: real, source: string, frequency: string)

  datatype ExpenseRow = ExpenseRow(
    id: int, userId: int, amount: real, category: string,
    description: Option<string>, date: string, recurring: int)

  datatype DebtRow = DebtRow(
    id: int, userId: int, name: string, balance: real, interestRate: Option<real>,
    minimumPayment: real, dueDate: Option<real>, kind: Option<string>)

  datatype SavingsRow = SavingsRow(
    id: int, userId: int, name: string, targetAmount: real, currentAmount: Option<real>,
    targetDate: Option<string>, monthlyContribution: Option<real>)

  datatype BillRow = BillRow(
    id: int, userId: int, name: string, amount: real, dueDate: real, frequency: string,
    category: Option<string>, autoPay: int)

  /** The column values the backend's totals add up. */
  function IncomeAmount(r: IncomeRow): real { r.amount }
  function ExpenseAmount(r: ExpenseRow): real { r.amount }
  function DebtBalance(r: DebtRow): real { r.balance }
  function MinimumPayment(r: DebtRow): real { r.minimumPayment }
  function TargetAmount(r: SavingsRow): real { r.targetAmount }

  // ---------------------------------------------------------------- binding

  const BindError := "SQLite3 can only bind numbers, strings, bigints, buffers, and null"
  const TextInNumericColumn := "cannot store non-numeric TEXT in a NUMERIC column"
  const ForeignKeyError := "FOREIGN KEY constraint failed"

  function NotNullError(column: string): string {
    "NOT NULL constraint failed: " + column
  }

  /**
   * A JavaScript value bound to a TEXT column: `undefined` and null are NULL,
   * a number is stored as its text; booleans, arrays and objects cannot be bound.
   */
  function TextValue(v: Option<Json>): (r: Result<Option<string>>)
    ensures r.Err? <==> v.Some? && (v.value.JBool? || v.value.JArr? || v.value.JObj?)
    ensures r == Ok(None) <==> v.None? || v.value.JNull?
  {
    match v
    case None => Ok(None)
    case Some(JNull) => Ok(None)
    case Some(JStr(s)) => Ok(Some(s))
    case Some(JNum(n)) => Ok(Some(NumText(n)))
    case Some(_) => Err(BindError)
  }

  /**
   * A JavaScript value bound to a NUMERIC column: `undefined` and null are
   * NULL, a number is kept, a numeric text is converted; booleans, arrays and
   * objects cannot be bound, and other text is refused.
   */
  function NumberValue(v: Option<Json>): (r: Result<Option<real>>)
    ensures v.Some? && v.value.JNum? ==> r == Ok(Some(v.value.n))
    ensures r == Ok(None) <==> v.None? || v.value.JNull?
  {
    match v
    case None => Ok(None)
    case Some(JNull) => Ok(None)
    case Some(JNum(n)) => Ok(Some(n))
    case Some(JStr(s)) =>
      (match StringToNum(s)
       case Finite(x) => if Trim(s) != "" then Ok(Some(x)) else Err(TextInNumericColumn)
       case NaN => Err(TextInNumericColumn))
    case Some(_) => Err(BindError)
  }

  /** A bound value that fills a NOT NULL column. */
  predicate Binds<T>(r: Result<Option<T>>) {
    r.Ok? && r.value.Some?
  }

  predicate HasUser(users: seq<User>, id: int) {
    exists k :: 0 <= k < |users| && users[k].id == id
  }

  lemma HasUserAppend(users: seq<User>, u: User, id: int)
    requires HasUser(users, id)
    ensures HasUser(users + [u], id)
  {
    var k :| 0 <= k < |users| && users[k].id == id;
    assert (users + [u])[k] == users[k];
  }

  /** The FOREIGN KEY check on `user_id`, made once every NOT NULL column has a value. */
  function ForeignKey(users: seq<User>, userId: int): (r: Option<string>)
    ensures r.None? <==> HasUser(users, userId)
  {
    if HasUser(users, userId) then None else Some(ForeignKeyError)
  }

  /** The rows of a table that belong to one user, in table order (`WHERE user_id = ?`). */
  function Where<T>(rows: seq<T>, owner: T -> int, userId: int): (r: seq<T>)
    ensures |r| <= |rows|
    ensures forall x :: x in r ==> x in rows && owner(x) == userId
    ensures forall x :: x in rows && owner(x) == userId ==> x in r
  {
    if rows == [] then []
    else if owner(rows[0]) == userId then [rows[0]] + Where(rows[1..], owner, userId)
    else Where(rows[1..], owner, userId)
  }

  /**
   * Selection keeps each row that belongs to the user, once and in table
   * order: it distributes over concatenation and keeps a single row exactly
   * when the row is the user's.
   */
  lemma {:induction false} WhereConcat<T>(a: seq<T>, b: seq<T>, owner: T -> int, userId: int)
    ensures Where(a + b, owner, userId) == Where(a, owner, userId) + Where(b, owner, userId)
    ensures forall x :: Where([x], owner, userId) == if owner(x) == userId then [x] else []
  {
    if a == [] {
      assert a + b == b;
    } else {
      assert (a + b)[1..] == a[1..] + b;
      WhereConcat(a[1..], b, owner, userId);
    }
  }

  function FindUserByEmail(users: seq<User>, email: string): (r: Option<User>)
    ensures r.Some? ==> r.value in users && r.value.email == Some(email)
    ensures r.None? ==> forall k :: 0 <= k < |users| ==> users[k].email != Some(email)
  {
    if users == [] then None
    else if users[0].email == Some(email) then Some(users[0])
    else FindUserByEmail(users[1..], email)
  }

  /** The contents of every table and every AUTOINCREMENT counter. */
  datatype Tables = Tables(
    users: seq<User>, income: seq<IncomeRow>, expenses: seq<ExpenseRow>,
    debts: seq<DebtRow>, savings: seq<SavingsRow>, bills: seq<BillRow>,
    lastUserId: int, lastIncomeId: int, lastExpenseId: int,
    lastDebtId: int, lastSavingsId: int, lastBillId: int)

  const EmptyTables := Tables([], [], [], [], [], [], 0, 0, 0, 0, 0, 0)

  /**
   * Ids are positive, increasing in insertion order and never above their
   * table's counter; every row's user exists; non-null emails are unique.
   */
  ghost predicate Consistent(t: Tables) {
    UsersConsistent(t) && IncomeConsistent(t) && ExpensesConsistent(t)
    && DebtsConsistent(t) && SavingsConsistent(t) && BillsConsistent(t)
  }

  ghost predicate UsersConsistent(t: Tables) {
    && t.lastUserId >= 0
    && (forall i :: 0 <= i < |t.users| ==> 0 < t.users[i].id <= t.lastUserId)
    && (forall i, j :: 0 <= i < j < |t.users| ==> t.users[i].id < t.users[j].id)
    && (forall i, j :: 0 <= i < j < |t.users| && t.users[i].email.Some? ==> t.users[i].email != t.users[j].email)
  }

  ghost predicate IncomeConsistent(t: Tables) {
    && t.lastIncomeId >= 0
    && (forall i :: 0 <= i < |t.income| ==> 0 < t.income[i].id <= t.lastIncomeId && HasUser(t.users, t.income[i].userId))
    && (forall i, j :: 0 <= i < j < |t.income| ==> t.income[i].id < t.income[j].id)
  }

  ghost predicate ExpensesConsistent(t: Tables) {
    && t.lastExpenseId >= 0
    && (forall i :: 0 <= i < |t.expenses| ==> 0 < t.expenses[i].id <= t.lastExpenseId && HasUser(t.users, t.expenses[i].userId))
    && (forall i, j :: 0 <= i < j < |t.expenses| ==> t.expenses[i].id < t.expenses[j].id)
  }

  ghost predicate DebtsConsistent(t: Tables) {
    && t.lastDebtId >= 0
    && (forall i :: 0 <= i < |t.debts| ==> 0 < t.debts[i].id <= t.lastDebtId && HasUser(t.users, t.debts[i].userId))
    && (forall i, j :: 0 <= i < j < |t.debts| ==> t.debts[i].id < t.debts[j].id)
  }

  ghost predicate SavingsConsistent(t: Tables) {
    && t.lastSavingsId >= 0
    && (forall i :: 0 <= i < |t.savings| ==> 0 < t.savings[i].id <= t.lastSavingsId && HasUser(t.users, t.savings[i].userId))
    && (forall i, j :: 0 <= i < j < |t.savings| ==> t.savings[i].id < t.savings[j].id)
  }

  ghost predicate BillsConsistent(t: Tables) {
    && t.lastBillId >= 0
    && (forall i :: 0 <= i < |t.bills| ==> 0 < t.bills[i].id <= t.lastBillId && HasUser(t.users, t.bills[i].userId))
    && (forall i, j :: 0 <= i < j < |t.bills| ==> t.bills[i].id < t.bills[j].id)
  }

  // ---------------------------------------------------------------- reads (`SELECT * FROM <table> WHERE user_id = ?`)

  function IncomeOf(t: Tables, userId: int): seq<IncomeRow> { Where(t.income, (r: IncomeRow) => r.userId, userId) }
  function ExpensesOf(t: Tables, userId: int): seq<ExpenseRow> { Where(t.expenses, (r: ExpenseRow) => r.userId, userId) }
  function DebtsOf(t: Tables, userId: int): seq<DebtRow> { Where(t.debts, (r: DebtRow) => r.userId, userId) }
  function SavingsOf(t: Tables, userId: int): seq<SavingsRow> { Where(t.savings, (r: SavingsRow) => r.userId, userId) }
  function BillsOf(t: Tables, userId: int): seq<BillRow> { Where(t.bills, (r: BillRow) => r.userId, userId) }

  /** `SELECT * FROM users WHERE email = ?`; a NULL email matches no row. */
  function UserByEmail(t: Tables, email: Option<string>): Option<User> {
    if email.None? then None else FindUserByEmail(t.users, email.value)
  }

  // ---------------------------------------------------------------- inserts

  const UniqueEmailError := "UNIQUE constraint failed: users.email"

  /** `INSERT INTO users (name, email)` */
  function AddUser(t: Tables, name: Option<string>, email: Option<string>): (r: (Result<User>, Tables))
    ensures r.0.Err? ==> r.1 == t
    ensures r.0.Ok? <==> name.Some? && UserByEmail(t, email).None?
    ensures r.0.Ok? ==> && r.0.value.id == t.lastUserId + 1 && r.0.value.email == email
                        && r.0.value.name == name.value
                        && r.1 == t.(users := t.users + [r.0.value], lastUserId := r.0.value.id)
  {
    if name.None? then (Err(NotNullError("users.name")), t)
    else if UserByEmail(t, email).Some? then (Err(UniqueEmailError), t)
    else
      var u := User(t.lastUserId + 1, name.value, email);
      (Ok(u), t.(users := t.users + [u], lastUserId := u.id))
  }

  /** `INSERT INTO income (user_id, source, amount, frequency)` */
  function AddIncome(t: Tables, userId: Option<int>, amount: Option<real>, source: Option<string>,
                     frequency: Option<string>): (r: (Result<IncomeRow>, Tables))
    ensures r.0.Err? ==> r.1 == t
    ensures r.0.Ok? <==> userId.Some? && amount.Some? && source.Some? && frequency.Some? && HasUser(t.users, userId.value)
    ensures r.0.Ok? ==> && r.0.value == IncomeRow(t.lastIncomeId + 1, userId.value, amount.value, source.value, frequency.value)
                        && r.1 == t.(income := t.income + [r.0.value], lastIncomeId := r.0.value.id)
  {
    match Violation(t.users, "income", userId, [("amount", amount.Some?), ("source", source.Some?), ("frequency", frequency.Some?)])
    case Some(e) => (Err(e), t)
    case None =>
      var row := IncomeRow(t.lastIncomeId + 1, userId.value, amount.value, source.value, frequency.value);
      (Ok(row), t.(income := t.income + [row], lastIncomeId := row.id))
  }

  /** `INSERT INTO expenses (user_id, description, amount, category, date, recurring)` */
  function AddExpense(t: Tables, userId: Option<int>, amount: Option<real>, category: Option<string>,
                      description: Option<string>, date: Option<string>, recurring: int): (r: (Result<ExpenseRow>, Tables))
    ensures r.0.Err? ==> r.1 == t
    ensures r.0.Ok? <==> userId.Some? && amount.Some? && category.Some? && date.Some? && HasUser(t.users, userId.value)
    ensures r.0.Ok? ==> && r.0.value == ExpenseRow(t.lastExpenseId + 1, userId.value, amount.value, category.value, description, date.value, recurring)
                        && r.1 == t.(expenses := t.expenses + [r.0.value], lastExpenseId := r.0.value.id)
  {
    match Violation(t.users, "expenses", userId, [("amount", amount.Some?), ("category", category.Some?), ("date", date.Some?)])
    case Some(e) => (Err(e), t)
    case None =>
      var row := ExpenseRow(t.lastExpenseId + 1, userId.value, amount.value, category.value, description, date.value, recurring);
      (Ok(row), t.(expenses := t.expenses + [row], lastExpenseId := row.id))
  }

  /**
   * `INSERT INTO debts (...)`; a column the statement leaves out is passed
   * by the caller as its DEFAULT (interest_rate 0, due_date 1) or NULL (type).
   */
  function AddDebt(t: Tables, userId: Option<int>, name: Option<string>, balance: Option<real>, interestRate: Option<real>,
                   minimumPayment: Option<real>, dueDate: Option<real>, kind: Option<string>): (r: (Result<DebtRow>, Tables))
    ensures r.0.Err? ==> r.1 == t
    ensures r.0.Ok? <==> userId.Some? && name.Some? && balance.Some? && minimumPayment.Some? && HasUser(t.users, userId.value)
    ensures r.0.Ok? ==> && r.0.value == DebtRow(t.lastDebtId + 1, userId.value, name.value, balance.value, interestRate,
                                                minimumPayment.value, dueDate, kind)
                        && r.1 == t.(debts := t.debts + [r.0.value], lastDebtId := r.0.value.id)
  {
    match Violation(t.users, "debts", userId, [("name", name.Some?), ("balance", balance.Some?), ("minimum_payment", minimumPayment.Some?)])
    case Some(e) => (Err(e), t)
    case None =>
      var row := DebtRow(t.lastDebtId + 1, userId.value, name.value, balance.value, interestRate, minimumPayment.value, dueDate, kind);
      (Ok(row), t.(debts := t.debts + [row], lastDebtId := row.id))
  }

  /** `INSERT INTO savings_goals (...)`; an omitted current_amount or monthly_contribution is passed as 0. */
  function AddSavings(t: Tables, userId: Option<int>, name: Option<string>, targetAmount: Option<real>, currentAmount: Option<real>,
                      targetDate: Option<string>, monthlyContribution: Option<real>): (r: (Result<SavingsRow>, Tables))
    ensures r.0.Err? ==> r.1 == t
    ensures r.0.Ok? <==> userId.Some? && name.Some? && targetAmount.Some? && HasUser(t.users, userId.value)
    ensures r.0.Ok? ==> && r.0.value == SavingsRow(t.lastSavingsId + 1, userId.value, name.value, targetAmount.value, currentAmount,
                                                   targetDate, monthlyContribution)
                        && r.1 == t.(savings := t.savings + [r.0.value], lastSavingsId := r.0.value.id)
  {
    match Violation(t.users, "savings_goals", userId, [("name", name.Some?), ("target_amount", targetAmount.Some?)])
    case Some(e) => (Err(e), t)
    case None =>
      var row := SavingsRow(t.lastSavingsId + 1, userId.value, name.value, targetAmount.value, currentAmount, targetDate, monthlyContribution);
      (Ok(row), t.(savings := t.savings + [row], lastSavingsId := row.id))
  }

  /** `INSERT INTO bills (...)`; an omitted auto_pay is passed as 0. */
  function AddBill(t: Tables, userId: Option<int>, name: Option<string>, amount: Option<real>, dueDate: Option<real>,
                   frequency: Option<string>, category: Option<string>, autoPay: int): (r: (Result<BillRow>, Tables))
    ensures r.0.Err? ==> r.1 == t
    ensures r.0.Ok? <==> userId.Some? && name.Some? && amount.Some? && dueDate.Some? && frequency.Some? && HasUser(t.users, userId.value)
    ensures r.0.Ok? ==> && r.0.value == BillRow(t.lastBillId + 1, userId.value, name.value, amount.value, dueDate.value,
                                                frequency.value, category, autoPay)
                        && r.1 == t.(bills := t.bills + [r.0.value], lastBillId := r.0.value.id)
  {
    match Violation(t.users, "bills", userId, [("name", name.Some?), ("amount", amount.Some?), ("due_date", dueDate.Some?), ("frequency", frequency.Some?)])
    case Some(e) => (Err(e), t)
    case None =>
      var row := BillRow(t.lastBillId + 1, userId.value, name.value, amount.value, dueDate.value, frequency.value, category, autoPay);
      (Ok(row), t.(bills := t.bills + [row], lastBillId := row.id))
  }

  // ---------------------------------------------------------------- what an insert preserves

  /** A new user keeps every table consistent: existing rows keep their user. */
  lemma AddUserConsistent(t: Tables, name: Option<string>, email: Option<string>)
    requires Consistent(t)
    ensures Consistent(AddUser(t, name, email).1)
    ensures AddUser(t, name, email).0.Ok? ==> AddUser(t, name, email).0.value.id !in UserIds(t.users)
  {
    var (r, t') := AddUser(t, name, email);
    if r.Ok? {
      var u := r.value;
      assert email.Some? ==> FindUserByEmail(t.users, email.value).None?;
      forall i | 0 <= i < |t.income| ensures HasUser(t'.users, t.income[i].userId) {
        HasUserAppend(t.users, u, t.income[i].userId);
      }
      forall i | 0 <= i < |t.expenses| ensures HasUser(t'.users, t.expenses[i].userId) {
        HasUserAppend(t.users, u, t.expenses[i].userId);
      }
      forall i | 0 <= i < |t.debts| ensures HasUser(t'.users, t.debts[i].userId) {
        HasUserAppend(t.users, u, t.debts[i].userId);
      }
      forall i | 0 <= i < |t.savings| ensures HasUser(t'.users, t.savings[i].userId) {
        HasUserAppend(t.users, u, t.savings[i].userId);
      }
      forall i | 0 <= i < |t.bills| ensures HasUser(t'.users, t.bills[i].userId) {
        HasUserAppend(t.users, u, t.bills[i].userId);
      }
    }
  }

  function UserIds(users: seq<User>): set<int> {
    set k | 0 <= k < |users| :: users[k].id
  }

  /** A successful income insert keeps the tables consistent and its id is new. */
  lemma AddIncomeConsistent(t: Tables, userId: Option<int>, amount: Option<real>, source: Option<string>, frequency: Option<string>)
    requires Consistent(t)
    ensures Consistent(AddIncome(t, userId, amount, source, frequency).1)
    ensures var r := AddIncome(t, userId, amount, source, frequency).0;
            r.Ok? ==> forall i :: 0 <= i < |t.income| ==> t.income[i].id < r.value.id
  {
  }

  lemma AddExpenseConsistent(t: Tables, userId: Option<int>, amount: Option<real>, category: Option<string>,
                             description: Option<string>, date: Option<string>, recurring: int)
    requires Consistent(t)
    ensures Consistent(AddExpense(t, userId, amount, category, description, date, recurring).1)
    ensures var r := AddExpense(t, userId, amount, category, description, date, recurring).0;
            r.Ok? ==> forall i :: 0 <= i < |t.expenses| ==> t.expenses[i].id < r.value.id
  {
  }

  lemma AddDebtConsistent(t: Tables, userId: Option<int>, name: Option<string>, balance: Option<real>, interestRate: Option<real>,
                          minimumPayment: Option<real>, dueDate: Option<real>, kind: Option<string>)
    requires Consistent(t)
    ensures Consistent(AddDebt(t, userId, name, balance, interestRate, minimumPayment, dueDate, kind).1)
    ensures var r := AddDebt(t, userId, name, balance, interestRate, minimumPayment, dueDate, kind).0;
            r.Ok? ==> forall i :: 0 <= i < |t.debts| ==> t.debts[i].id < r.value.id
  {
  }

  lemma AddSavingsConsistent(t: Tables, userId: Option<int>, name: Option<string>, targetAmount: Option<real>, currentAmount: Option<real>,
                             targetDate: Option<string>, monthlyContribution: Option<real>)
    requires Consistent(t)
    ensures Consistent(AddSavings(t, userId, name, targetAmount, currentAmount, targetDate, monthlyContribution).1)
    ensures var r := AddSavings(t, userId, name, targetAmount, currentAmount, targetDate, monthlyContribution).0;
            r.Ok? ==> forall i :: 0 <= i < |t.savings| ==> t.savings[i].id < r.value.id
  {
  }

  lemma AddBillConsistent(t: Tables, userId: Option<int>, name: Option<string>, amount: Option<real>, dueDate: Option<real>,
                          frequency: Option<string>, category: Option<string>, autoPay: int)
    requires Consistent(t)
    ensures Consistent(AddBill(t, userId, name, amount, dueDate, frequency, category, autoPay).1)
    ensures var r := AddBill(t, userId, name, amount, dueDate, frequency, category, autoPay).0;
            r.Ok? ==> forall i :: 0 <= i < |t.bills| ==> t.bills[i].id < r.value.id
  {
  }

  // ---------------------------------------------------------------- the database object

  /** The one database connection the backend shares; its tables change in place. */
  class Database {
    var users: seq<User>
    var income: seq<IncomeRow>
    var expenses: seq<ExpenseRow>
    var debts: seq<DebtRow>
    var savings: seq<SavingsRow>
    var bills: seq<BillRow>
    var lastUserId: int
    var lastIncomeId: int
    var lastExpenseId: int
    var lastDebtId: int
    var lastSavingsId: int
    var lastBillId: int

    function Snapshot(): Tables
      reads this
    {
      Tables(users, income, expenses, debts, savings, bills,
             lastUserId, lastIncomeId, lastExpenseId, lastDebtId, lastSavingsId, lastBillId)
    }

    ghost predicate Valid()
      reads this
    {
      Consistent(Snapshot())
    }

    constructor ()
      ensures Valid() && Snapshot() == EmptyTables
    {
      users, income, expenses, debts, savings, bills := [], [], [], [], [], [];
      lastUserId, lastIncomeId, lastExpenseId, lastDebtId, lastSavingsId, lastBillId := 0, 0, 0, 0, 0, 0;
    }

    method InsertUser(name: Option<string>, email: Option<string>) returns (r: Result<User>)
      requires Valid()
      modifies this
      ensures Valid()
      ensures (r, Snapshot()) == AddUser(old(Snapshot()), name, email)
    {
      AddUserConsistent(Snapshot(), name, email);
      if name.None? {
        return Err(NotNullError("users.name"));
      }
      if email.Some? && FindUserByEmail(users, email.value).Some? {
        return Err(UniqueEmailError);
      }
      var u := User(lastUserId + 1, name.value, email);
      users := users + [u];
      lastUserId := u.id;
      r := Ok(u);
    }

    method InsertIncome(userId: Option<int>, amount: Option<real>, source: Option<string>, frequency: Option<string>)
      returns (r: Result<IncomeRow>)
      requires Valid()
      modifies this
      ensures Valid()
      ensures (r, Snapshot()) == AddIncome(old(Snapshot()), userId, amount, source, frequency)
    {
      AddIncomeConsistent(Snapshot(), userId, amount, source, frequency);
      var v := Violation(users, "income", userId, [("amount", amount.Some?), ("source", source.Some?), ("frequency", frequency.Some?)]);
      if v.Some? {
        return Err(v.value);
      }
      var row := IncomeRow(lastIncomeId + 1, userId.value, amount.value, source.value, frequency.value);
      income := income + [row];
      lastIncomeId := row.id;
      r := Ok(row);
    }

    method InsertExpense(userId: Option<int>, amount: Option<real>, category: Option<string>,
                         description: Option<string>, date: Option<string>, recurring: int)
      returns (r: Result<ExpenseRow>)
      requires Valid()
      modifies this
      ensures Valid()
      ensures (r, Snapshot()) == AddExpense(old(Snapshot()), userId, amount, category, description, date, recurring)
    {
      AddExpenseConsistent(Snapshot(), userId, amount, category, description, date, recurring);
      var v := Violation(users, "expenses", userId, [("amount", amount.Some?), ("category", category.Some?), ("date", date.Some?)]);
      if v.Some? {
        return Err(v.value);
      }
      var row := ExpenseRow(lastExpenseId + 1, userId.value, amount.value, category.value, description, date.value, recurring);
      expenses := expenses + [row];
      lastExpenseId := row.id;
      r := Ok(row);
    }

    method InsertDebt(userId: Option<int>, name: Option<string>, balance: Option<real>, interestRate: Option<real>,
                      minimumPayment: Option<real>, dueDate: Option<real>, kind: Option<string>)
      returns (r: Result<DebtRow>)
      requires Valid()
      modifies this
      ensures Valid()
      ensures (r, Snapshot()) == AddDebt(old(Snapshot()), userId, name, balance, interestRate, minimumPayment, dueDate, kind)
    {
      AddDebtConsistent(Snapshot(), userId, name, balance, interestRate, minimumPayment, dueDate, kind);
      var v := Violation(users, "debts", userId, [("name", name.Some?), ("balance", balance.Some?), ("minimum_payment", minimumPayment.Some?)]);
      if v.Some? {
        return Err(v.value);
      }
      var row := DebtRow(lastDebtId + 1, userId.value, name.value, balance.value, interestRate, minimumPayment.value, dueDate, kind);
      debts := debts + [row];
      lastDebtId := row.id;
      r := Ok(row);
    }

    method InsertSavings(userId: Option<int>, name: Option<string>, targetAmount: Option<real>, currentAmount: Option<real>,
                         targetDate: Option<string>, monthlyContribution: Option<real>)
      returns (r: Result<SavingsRow>)
      requires Valid()
      modifies this
      ensures Valid()
      ensures (r, Snapshot()) == AddSavings(old(Snapshot()), userId, name, targetAmount, currentAmount, targetDate, monthlyContribution)
    {
      AddSavingsConsistent(Snapshot(), userId, name, targetAmount, currentAmount, targetDate, monthlyContribution);
      var v := Violation(users, "savings_goals", userId, [("name", name.Some?), ("target_amount", targetAmount.Some?)]);
      if v.Some? {
        return Err(v.value);
      }
      var row := SavingsRow(lastSavingsId + 1, userId.value, name.value, targetAmount.value, currentAmount, targetDate, monthlyContribution);
      savings := savings + [row];
      lastSavingsId := row.id;
      r := Ok(row);
    }

    method InsertBill(userId: Option<int>, name: Option<string>, amount: Option<real>, dueDate: Option<real>,
                      frequency: Option<string>, category: Option<string>, autoPay: int)
      returns (r: Result<BillRow>)
      requires Valid()
      modifies this
      ensures Valid()
      ensures (r, Snapshot()) == AddBill(old(Snapshot()), userId, name, amount, dueDate, frequency, category, autoPay)
    {
      AddBillConsistent(Snapshot(), userId, name, amount, dueDate, frequency, category, autoPay);
      var v := Violation(users, "bills", userId, [("name", name.Some?), ("amount", amount.Some?), ("due_date", dueDate.Some?), ("frequency", frequency.Some?)]);
      if v.Some? {
        return Err(v.value);
      }
      var row := BillRow(lastBillId + 1, userId.value, name.value, amount.value, dueDate.value, frequency.value, category, autoPay);
      bills := bills + [row];
      lastBillId := row.id;
      r := Ok(row);
    }
  }

  /**
   * The constraint an INSERT violates first: a missing user_id, then the
   * first of the table's other NOT NULL columns (in declared order, each
   * with whether it has a value) that has none, then the FOREIGN KEY.
   */
  function Violation(users: seq<User>, table: string, userId: Option<int>, notNull: seq<(string, bool)>): (r: Option<string>)
    ensures r.None? <==> userId.Some? && (forall c :: c in notNull ==> c.1) && HasUser(users, userId.value)
  {
    if userId.None? then Some(NotNullError(table + ".user_id"))
    else match FirstMissing(table, notNull)
      case Some(e) => Some(e)
      case None => ForeignKey(users, userId.value)
  }

  /** The error of the first column without a value, if any. */
  function FirstMissing(table: string, notNull: seq<(string, bool)>): (r: Option<string>)
    ensures r.None? <==> forall c :: c in notNull ==> c.1
    ensures r.Some? ==> exists c :: c in notNull && !c.1 && r == Some(NotNullError(table + "." + c.0))
  {
    if notNull == [] then None
    else if !notNull[0].1 then Some(NotNullError(table + "." + notNull[0].0))
    else
      assert forall c :: c in notNull ==> c == notNull[0] || c in notNull[1..];
      FirstMissing(table, notNull[1..])
  }
}
