# FinancialHub backend core, modelled in Dafny

FinancialHub is a chat-driven personal-finance assistant. A user types a message. The backend asks a
language model to turn it into commands (`CREATE_INCOME`, `GENERATE_BUDGET_ANALYSIS`, `CONVERSATION`, ...). It
runs each command against an SQLite store and answers with the commands' messages, plus a model
reply when one is needed. This project models the deterministic part of that pipeline:

- `store.dfy` (module `Store`): the six tables of `backend/database.js`. Rows are datatypes. A
  `Database` class holds them in `seq` fields, with one AUTOINCREMENT counter per table. Its inserts
  check NOT NULL columns, email uniqueness and the user foreign key.
- `interpreter.dfy` (module `Interpreter`): what `backend/commandInterpreter.js` does with the
  model's reply: trim, fence stripping, JSON decoding, command normalisation and the fallback
  command. Also `isQuestion`, `extractAmount` and `validateCommand`.
- `executor.dfy` (module `Executor`): `backend/actionExecutor.js`. The dispatch of `executeCommand`,
  the five create handlers with their defaults and amount checks, the budget, debt-plan and
  savings-plan results, and `executeCommands`. An `ActionExecutor` class writes to the shared
  `Database`. Each handler is specified by a step function on table snapshots.
- `prompts.dfy` (module `Prompts`): `backend/promptPatterns.js`. The prompt builders are string
  functions. Their lemmas say which figures and lines each prompt contains. Also `extractJSON` and
  the `generatePrompt` switch.
- `conversation.dfy` (module `Manager`): `backend/conversationManager.js`. A `ConversationManager`
  class holds the in-memory map of conversation contexts. `processMessage` is specified by a turn
  function `ProcessStep`. Also `buildResponse`, the financial summary, the contextual chat request,
  `guideNewUser` and `suggestNextActions`.
- `routes.dfy` (module `Routes`): the computations in `backend/routes.js`. These are the
  get-or-create user route, the create routes' coercions, the read routes' totals, the grouping of
  expenses by category, the snapshot, the debt-payoff data and the chat route's user data.
- `js.dfy` (module `Js`): the JavaScript semantics the others rely on. It covers JSON values,
  truthiness, `||` defaults, `String()` of numbers, `toFixed(2)`, `trim`, ASCII `toLowerCase`,
  `includes`, `startsWith`, `join`, `split` and `Number()` of decimal strings.

Outside influences are passed in as parameters:

- The language model: its reply text is an `Option<string>`, and the chat reply is a `Result`.
- The JSON decoder: a function `string -> Option<Json>`.
- The clock: `now` and `today` strings.
- The fixed prompt wording and the welcome text: a `Texts` value and a constructor argument.

Numbers are `real` (the `Num` type adds NaN where `parseFloat` can produce it). User ids are
`Option<int>`, where `None` stands for a missing id.

Where the code's behaviour is easy to misread, the model follows the code:

- The executor's monthly income divides every frequency other than monthly, biweekly and weekly by
  12 (`backend/actionExecutor.js:320-330`). `GET /income` instead multiplies such rows by 12 and
  leaves annual rows as they are (`backend/routes.js:96-110`). Both are modelled as written;
  `Routes.TotalMonthlyDisagreesWithExecutor` states the gap.
- `buildFinancialSummary` adds income amounts as stored, without normalising frequency
  (`Manager.SummaryIsNotNormalised`).
- `isQuestion` matches question words as prefixes, so "Canada is nice" counts as a question
  (`Interpreter.PrefixMatchIsNotAWordMatch`).
- The second pattern of `extractAmount` (`5k`) can never fire, because the first already matches
  any text with a digit (`Interpreter.ThousandsPatternUnreachable`).

## Model

| member | source | states |
|---|---|---|
| Store.TextValue | backend/routes.js:56-60 | binding a request value to a column: booleans, arrays and objects are refused as the binder does; an absent or null value binds NULL |
| Store.NumberValue | backend/routes.js:56-60 | a number binds as itself; an absent or null value binds NULL |
| Store.HasUserAppend | backend/database.js:14-21 | inserting a user keeps every existing user id present |
| Store.ForeignKey | backend/database.js:9 | with foreign keys on, a row is refused exactly when its user id names no user |
| Store.Where | backend/routes.js:448-462 | `SELECT * ... WHERE user_id = ?` returns only rows of that user, every one of them, and no more rows than the table has |
| Store.WhereConcat | backend/routes.js:448-462 | the selection keeps table order and multiplicity: it distributes over concatenation, and a single row is kept iff it is the user's |
| Store.FindUserByEmail | backend/routes.js:14-16 | a found user is in the table and has that email; no result means no user has it |
| Store.AddUser | backend/database.js:14-21 | the insert succeeds iff name is not NULL and no user already has the (non-NULL) email; on success the id is the next AUTOINCREMENT value, the name and email are the ones given and the user is appended; on failure nothing changes |
| Store.AddIncome | backend/database.js:24-34 | succeeds iff user_id, amount, source, frequency are non-NULL and the user exists; new id is next; failure changes nothing |
| Store.AddExpense | backend/database.js:37-49 | succeeds iff user_id, amount, category, date are non-NULL and the user exists; new id is next; failure changes nothing |
| Store.AddDebt | backend/database.js:52-65 | succeeds iff user_id, name, balance, minimum_payment are non-NULL and the user exists; new id is next; failure changes nothing |
| Store.AddSavings | backend/database.js:68-80 | succeeds iff user_id, name, target_amount are non-NULL and the user exists; new id is next; failure changes nothing |
| Store.AddBill | backend/database.js:83-96 | succeeds iff user_id, name, amount, due_date, frequency are non-NULL and the user exists; new id is next; failure changes nothing |
| Store.AddUserConsistent | backend/database.js:14-21 | the user insert preserves consistency (ids positive, increasing and never above the counter; non-NULL emails unique) and the new id is fresh |
| Store.AddIncomeConsistent | backend/database.js:24-34 | the income insert preserves consistency (ids positive, increasing and never above the counter; every row's user exists) and the new id is fresh |
| Store.AddExpenseConsistent | backend/database.js:37-49 | the expense insert preserves consistency and the new id is fresh |
| Store.AddDebtConsistent | backend/database.js:52-65 | the debt insert preserves consistency and the new id is fresh |
| Store.AddSavingsConsistent | backend/database.js:68-80 | the savings-goal insert preserves consistency and the new id is fresh |
| Store.AddBillConsistent | backend/database.js:83-96 | the bill insert preserves consistency and the new id is fresh |
| Store.Database.constructor | backend/database.js:12-96 | a new database is consistent and has empty tables |
| Store.Database.InsertUser | backend/database.js:14-21 | the in-place insert keeps the database valid and leaves exactly the state `AddUser` describes |
| Store.Database.InsertIncome | backend/database.js:24-34 | keeps validity; new state as `AddIncome` |
| Store.Database.InsertExpense | backend/database.js:37-49 | keeps validity; new state as `AddExpense` |
| Store.Database.InsertDebt | backend/database.js:52-65 | keeps validity; new state as `AddDebt` |
| Store.Database.InsertSavings | backend/database.js:68-80 | keeps validity; new state as `AddSavings` |
| Store.Database.InsertBill | backend/database.js:83-96 | keeps validity; new state as `AddBill` |
| Store.FirstMissing | backend/database.js:24-96 | no NOT NULL column is missing iff every listed column is given; otherwise the error names a missing column of the table |
| Store.Violation | backend/database.js:24-96 | an insert violates no constraint iff the user id is given, every NOT NULL column of the table is given, and the user exists |
| Interpreter.RemoveMarker | backend/commandInterpreter.js:96-100 | a global literal replace never lengthens the text |
| Interpreter.RemoveFenceHead | backend/commandInterpreter.js:97-100 | after removing fences the text starts with a backtick only if the input did |
| Interpreter.KeptHeadStartsNoFence | backend/commandInterpreter.js:97-100 | a text not starting with a fence does not start with one after the removal |
| Interpreter.ConsAddsOnlyAtFront | backend/commandInterpreter.js:97-100 | putting one character before a fence-free text can only create a fence at the front |
| Interpreter.RemoveFenceComplete | backend/commandInterpreter.js:97-100 | after `replace(/```\n?/g, "")` no fence remains anywhere |
| Interpreter.NoOccurrenceInSlice | backend/commandInterpreter.js:98 | a slice of a fence-free text is fence-free |
| Interpreter.NoOccurrenceAfterTrim | backend/commandInterpreter.js:98 | trimming cannot create a fence |
| Interpreter.StripFencesRemovesAll | backend/commandInterpreter.js:93-101 | the text handed to `JSON.parse` contains no code fence, whichever branch ran |
| Interpreter.Fallback | backend/commandInterpreter.js:119-131 | the fallback is one CONVERSATION command with confidence 1.0 carrying the user's text |
| Interpreter.Normalize | backend/commandInterpreter.js:112-117 | a normalised command always has a truthy action, confidence and data, and carries the user's text |
| Interpreter.StripFences | backend/commandInterpreter.js:93-101 | the fence handling before decoding; `StripFencesRemovesAll` states that no fence survives it |
| Interpreter.ParseCommands | backend/commandInterpreter.js:17-132 | `parseCommands` with the model reply and the decoder as parameters; `ParseKeepsCommands`, `ParseFailureFallsBack` and `ParseShape` state its outcomes |
| Interpreter.ParseKeepsCommands | backend/commandInterpreter.js:103-118 | a decoded array without null elements gives one command per element, in order, each with the user's text; a truthy action, confidence or data is kept as it is, and a falsy one becomes "CONVERSATION", 0.5 or {} |
| Interpreter.ParseFailureFallsBack | backend/commandInterpreter.js:103-131 | no reply, a decode failure, a non-array or a null element all give the fallback command |
| Interpreter.ParseShape | backend/commandInterpreter.js:17-132 | the result is the fallback or one command per decoded element; every command has a truthy action and the user's text |
| Interpreter.LowerKeepsQuestionMark | backend/commandInterpreter.js:149-153 | lower-casing keeps every '?' |
| Interpreter.IsQuestion | backend/commandInterpreter.js:137-155 | `isQuestion`; `IsQuestionCases` states exactly when it holds |
| Interpreter.IsQuestionCases | backend/commandInterpreter.js:137-155 | a text is a question iff it contains '?' or starts, in any case, with one of the nine question words |
| Interpreter.PrefixMatchIsNotAWordMatch | backend/commandInterpreter.js:152 | "Canada is nice" counts as a question, since the match tests prefixes |
| Interpreter.FirstWhere | backend/commandInterpreter.js:163 | the leftmost position at which a character test holds, or the end |
| Interpreter.RunLength | backend/commandInterpreter.js:163 | the length of the longest prefix whose characters pass a test |
| Interpreter.MatchAmountPattern | backend/commandInterpreter.js:163 | `/\$?([\d,]+\.?\d*)/` matches iff the text has a digit or a comma |
| Interpreter.ThousandsPatternNeedsDigit | backend/commandInterpreter.js:164 | `/\$?([\d]+)k/i` matches only a text with a digit |
| Interpreter.ThousandsPatternUnreachable | backend/commandInterpreter.js:162-176 | wherever the second pattern matches the first one does, so the second is never used |
| Interpreter.RemoveCommas | backend/commandInterpreter.js:170 | no comma remains, only characters of the input appear, and a text without commas is kept as it is |
| Interpreter.RemoveCommasConcat | backend/commandInterpreter.js:170 | removal distributes over concatenation, so each part of a text keeps its non-comma characters in order |
| Interpreter.RemoveCommasOne | backend/commandInterpreter.js:170 | a comma alone disappears and any other character alone is kept |
| Interpreter.ExtractAmount | backend/commandInterpreter.js:160-179 | null iff the text has neither digit nor comma; otherwise the first pattern's group without commas, times 1000 when the text has a k |
| Interpreter.LowerFindsEitherK | backend/commandInterpreter.js:171 | a 'k' or 'K' anywhere in the text triggers the factor 1000 |
| Interpreter.ActionNamesNotInherited | backend/commandInterpreter.js:193 | no upper-case action name collides with a name every object inherits |
| Interpreter.MissingFields | backend/commandInterpreter.js:196 | a field is listed iff it is required and its value is falsy |
| Interpreter.ValidateCommand | backend/commandInterpreter.js:184-207 | `validateCommand`; `ValidateCommandCases` states every outcome |
| Interpreter.ValidateCommandCases | backend/commandInterpreter.js:184-207 | an action gives `true` iff it has no list of required fields and is not an inherited name; for a listed action null data throws V8's "Cannot read properties of null (reading '<first required field>')"; otherwise the command is valid iff every required field is truthy and invalid iff some is falsy, listing exactly the falsy ones in the "Missing required fields: " message |
| Interpreter.ZeroAmountIsMissing | backend/commandInterpreter.js:196 | a bill with amount 0 is reported as missing its amount |
| Executor.IncomePlan | backend/actionExecutor.js:105-115 | a refused amount yields the handler's "Income amount is required..." result |
| Executor.CreateIncomeStep | backend/actionExecutor.js:105-131 | success appends exactly one income row for the user with the next id and changes nothing else; any other outcome leaves the tables untouched |
| Executor.ExpensePlan | backend/actionExecutor.js:136-147 | a refused amount yields the expense rejection result |
| Executor.CreateExpenseStep | backend/actionExecutor.js:136-176 | success appends one expense row with the next id; otherwise nothing changes |
| Executor.DebtPlan | backend/actionExecutor.js:181-197 | a refused balance yields the debt rejection result |
| Executor.CreateDebtStep | backend/actionExecutor.js:181-228 | success appends one debt row with the next id; otherwise nothing changes |
| Executor.SavingsPlan | backend/actionExecutor.js:233-245 | createSavingsGoal never refuses: a plan is always an insert |
| Executor.CreateSavingsGoalStep | backend/actionExecutor.js:233-269 | success appends one savings row with the next id; otherwise nothing changes |
| Executor.BillPlan | backend/actionExecutor.js:274-283 | createBill never refuses: a plan is always an insert |
| Executor.CreateBillStep | backend/actionExecutor.js:274-306 | success appends one bill row with the next id; otherwise nothing changes |
| Executor.ActionOf | backend/actionExecutor.js:25-73 | an action is recognised only by its exact name |
| Executor.ActionNamesSelect | backend/actionExecutor.js:25-73 | every action name selects its own case |
| Executor.HandlerStep | backend/actionExecutor.js:25-73 | the `switch` on the action; `ActionNamesSelect`, `OnlyCreatesWrite` and `UnknownActionRejected` state its cases |
| Executor.ExecuteStep | backend/actionExecutor.js:12-82 | executeCommand throws iff the user id is falsy, and then writes nothing |
| Executor.OnlyCreatesWrite | backend/actionExecutor.js:25-73 | every command other than the five creates leaves the store unchanged |
| Executor.IncomeAmountRejected | backend/actionExecutor.js:105-115 | null data throws while destructuring `source`; otherwise an income is refused with its message, writing nothing, iff `!amount \|\| amount <= 0` |
| Executor.ExpenseAmountRejected | backend/actionExecutor.js:136-147 | null data throws while destructuring `description`; otherwise an expense is refused, writing nothing, iff `!amount \|\| amount <= 0` |
| Executor.DebtBalanceRejected | backend/actionExecutor.js:181-197 | null data throws while destructuring `name`; otherwise a debt is refused, writing nothing, iff `!balance \|\| balance <= 0` |
| Executor.IncomeStored | backend/actionExecutor.js:105-131 | createIncome succeeds iff the data is not null, the amount passes the check, amount, source (default "Income") and frequency (default "monthly") bind to values and the user exists; the appended row holds exactly those values with the next id, and the result carries that id, the "Added income" message and the data |
| Executor.ExpenseStored | backend/actionExecutor.js:136-176 | createExpense succeeds iff the data is not null, the amount passes the check, the description binds, amount, category and date (`date \|\| today`) bind to values and the user exists; the appended row holds those values and `recurring` as 1 iff truthy, with the next id and the "Added expense" message |
| Executor.DebtStored | backend/actionExecutor.js:181-228 | createDebt succeeds iff the data is not null, the balance passes the check, name, balance and minimum payment (default balance × 0.02) bind to values, rate (default 0) and due day (default 1) bind, and the user exists; the row holds those values with the next id and the message with its APR clause |
| Executor.SavingsGoalStored | backend/actionExecutor.js:233-269 | createSavingsGoal succeeds iff the data is not null, name and target bind to values, the current amount (default 0), target date and contribution (default 0) bind, and the user exists; the row holds those values with the next id and the confirmation message |
| Executor.BillStored | backend/actionExecutor.js:274-306 | createBill succeeds iff the data is not null, the five defaulted columns bind (name "Unnamed Bill", due day 1, "monthly", auto-pay false, category "Other") with amount, name, due day and frequency given, and the user exists; the row holds those values with the next id and the confirmation message |
| Executor.CreatedIncomeIsAnalysed | backend/actionExecutor.js:105-131 | after a stored income the user's income rows are the old ones plus the new row, the budget analysis's monthly income grows by that row's share, and other users' rows are unchanged |
| Executor.IncomeRowAdded | backend/actionExecutor.js:311-330 | appending a user's income row extends exactly that user's selection and adds its monthly share |
| Executor.CreatedExpenseIsAnalysed | backend/actionExecutor.js:136-176 | after a stored expense the user's expenses are the old ones plus the new row, the analysed expense total grows by its amount, and other users' rows are unchanged |
| Executor.CreatedDebtIsPlanned | backend/actionExecutor.js:181-228 | after a stored debt the user's debts gain the new row, and the debt plan succeeds and counts one more debt |
| Executor.BillPlanDefaults | backend/actionExecutor.js:275-282 | the bill defaults: "Unnamed Bill", due day 1, monthly, no auto-pay, category "Other" |
| Executor.BillDefaults | backend/actionExecutor.js:274-306 | a bill with only an amount, even a negative one, is stored with every default |
| Executor.DebtPlanDefaults | backend/actionExecutor.js:182-188 | the debt defaults: rate 0, minimum payment 2% of the balance, due day 1 |
| Executor.DebtDefaults | backend/actionExecutor.js:181-228 | a debt with only name and positive balance is stored with those defaults and its message has no APR clause |
| Executor.DebtRateShown | backend/actionExecutor.js:215-219 | a non-zero rate adds " at X% APR" to the confirmation; rate 0 does not |
| Executor.UnknownActionRejected | backend/actionExecutor.js:68-72 | an unknown action gives the "Unknown action" failure and writes nothing |
| Executor.MissingUserIdThrows | backend/actionExecutor.js:13-15 | a command throws iff the user id is falsy, before reading or writing |
| Executor.ExecuteAllShape | backend/actionExecutor.js:87-100 | one result per command, in order, each with its command's action and confidence; throws iff there is a command and no user id, and then nothing was written |
| Executor.ExecuteAllWithoutUser | backend/actionExecutor.js:87-100 | with commands and no user id the first command throws and the store is unchanged |
| Executor.ExecuteAllWithUser | backend/actionExecutor.js:87-100 | with a user id no command throws and every command gets its own result, in order |
| Executor.ExecuteAllStep | backend/actionExecutor.js:87-100 | `executeCommands` on table snapshots; `ExecuteAllShape`, `ExecuteAllExtends`, `ExecuteAllThrowsAt` and `ExecuteAllThrowStops` state it |
| Executor.MonthlyIncomeAppend | backend/actionExecutor.js:320-330 | the executor's monthly income is additive over rows |
| Executor.ExpenseTotalAppend | backend/actionExecutor.js:332 | the expense total is additive over rows |
| Executor.MonthlyIncome | backend/actionExecutor.js:320-330 | the executor's monthly income; `MonthlyIncomeAppend` and `MonthlyIncomeOfOne` state its value |
| Executor.BudgetAnalysis | backend/actionExecutor.js:311-349 | `generateBudgetAnalysis`'s result; `BudgetAnalysisFacts` states it |
| Executor.DebtPlanResult | backend/actionExecutor.js:354-375 | `generateDebtPlan`'s result; `PlanFacts` states it |
| Executor.SavingsPlanResult | backend/actionExecutor.js:380-401 | `generateSavingsPlan`'s result; `PlanFacts` states it |
| Executor.FinancialSnapshot | backend/actionExecutor.js:406-418 | each of the five lists holds exactly the rows of that table that belong to the user |
| Executor.MonthlyIncomeOfOne | backend/actionExecutor.js:320-330 | one row contributes amount times its multiplier; any frequency other than monthly, biweekly, weekly counts as amount/12 |
| Executor.BudgetAnalysisFacts | backend/actionExecutor.js:311-349 | the analysis succeeds, asks for AI, reports income, expenses and their difference, and says surplus iff income exceeds expenses (equal is a deficit) |
| Executor.PlanFacts | backend/actionExecutor.js:354-401 | the debt and savings plans succeed iff there are rows; without rows they ask for more data; with rows they carry the rows and their count and ask for AI |
| Executor.ActionExecutor.constructor | backend/actionExecutor.js:1 | the executor works on the given database |
| Executor.ActionExecutor.CreateIncome | backend/actionExecutor.js:105-131 | keeps the database valid; result and new state are those of `CreateIncomeStep` |
| Executor.ActionExecutor.CreateExpense | backend/actionExecutor.js:136-176 | result and new state are those of `CreateExpenseStep` |
| Executor.ActionExecutor.CreateDebt | backend/actionExecutor.js:181-228 | result and new state are those of `CreateDebtStep` |
| Executor.ActionExecutor.CreateSavingsGoal | backend/actionExecutor.js:233-269 | result and new state are those of `CreateSavingsGoalStep` |
| Executor.ActionExecutor.CreateBill | backend/actionExecutor.js:274-306 | result and new state are those of `CreateBillStep` |
| Executor.ActionExecutor.ExecuteCommand | backend/actionExecutor.js:12-82 | result and new state are those of `ExecuteStep` |
| Executor.ActionExecutor.ExecuteCommands | backend/actionExecutor.js:87-100 | the loop's results and final state are those of `ExecuteAllStep` |
| Executor.ExecuteAllExtends | backend/actionExecutor.js:90-97 | a successful command extends the results of the commands before it by one |
| Executor.ExecuteAllThrowsAt | backend/actionExecutor.js:90-97 | a throwing command makes the whole call throw with the store as it was before that command |
| Executor.ExecuteAllThrowStops | backend/actionExecutor.js:90-97 | once a prefix throws, later commands change neither result nor state |
| Prompts.Get | backend/promptPatterns.js:108 | reading a property of null or undefined throws; otherwise gives the property |
| Prompts.ArrayItems | backend/promptPatterns.js:36 | `.map` works iff the value is an array, and then sees its items |
| Prompts.MapAll | backend/promptPatterns.js:120 | a map over items succeeds iff every item does, giving one result per item in order |
| Prompts.Minus | backend/promptPatterns.js:134 | subtraction is finite iff both operands are, and is then the difference |
| Prompts.ApplyPersona | backend/promptPatterns.js:26-30 | the prompt starts with the persona and ends with a blank line and the user's message |
| Prompts.ListPromptJoin | backend/promptPatterns.js:33-50 | the list prompts' template equals a join of their lines by newline |
| Prompts.ListPrompt | backend/promptPatterns.js:33-50 | the list prompt is its first line, intro, list, blank line and closing lines joined by newline |
| Prompts.RecipeLines | backend/promptPatterns.js:36 | the i-th known step is shown as "(i+1). step" |
| Prompts.RecipePrompt | backend/promptPatterns.js:33-40 | the recipe prompt throws unless the known steps are an array |
| Prompts.FlippedLines | backend/promptPatterns.js:46 | every item is shown as "- item", in order |
| Prompts.FlippedInteractionPrompt | backend/promptPatterns.js:43-50 | the flipped prompt throws unless the needed information is an array |
| Prompts.BudgetPromptReports | backend/promptPatterns.js:107-129 | a built budget prompt shows the monthly income and one line per expense category |
| Prompts.BudgetAnalysisPrompt | backend/promptPatterns.js:107-129 | `createBudgetAnalysisPrompt`; `BudgetPromptReports` states what it shows |
| Prompts.StrategyLabel | backend/promptPatterns.js:153-159 | avalanche and snowball get their labels; every other value gets "Recommend optimal strategy" |
| Prompts.AvailableForDebt | backend/promptPatterns.js:134 | `income - expenses.total`, with NaN when either is not a number |
| Prompts.DebtPromptReports | backend/promptPatterns.js:131-191 | a built debt prompt shows the available amount, the preference line and one entry per debt |
| Prompts.DebtPayoffPrompt | backend/promptPatterns.js:131-191 | `createDebtPayoffPrompt`; `DebtPromptReports` and `StrategyLabel` state what it shows |
| Prompts.AvailableFunds | backend/promptPatterns.js:195 | `income - expenses.total - debts.monthlyPayment`, with NaN when any is not a number |
| Prompts.SavingsPromptReports | backend/promptPatterns.js:193-210 | the savings prompt throws iff userData, expenses or debts is null or missing, and otherwise shows the monthly surplus |
| Prompts.SavingsGoalPrompt | backend/promptPatterns.js:193-210 | `createSavingsGoalPrompt`; `SavingsPromptReports` states when it throws and what it shows |
| Prompts.FinancialContext | backend/promptPatterns.js:222-231 | the context reads "No financial data available yet" iff userData is falsy |
| Prompts.Figure | backend/promptPatterns.js:226-228 | `${userData.x?.total \|\| 0}`: a truthy total is shown as it is, and a missing section, a missing total or a falsy one as 0 |
| Prompts.OtherFigures | backend/promptPatterns.js:226-229 | the expenses, debt and savings lines, each showing its `Figure` |
| Prompts.NoFiguresShowZero | backend/promptPatterns.js:226-229 | a user without expenses, debts or savings totals sees "$0" on all three lines |
| Prompts.FinancialContextIncome | backend/promptPatterns.js:224-225 | with user data the context starts with the "Monthly Income: $" line showing `userData.income` |
| Js.LastFive | backend/promptPatterns.js:238 | `slice(-5)`: the last min(n, 5) items, in order |
| Prompts.HistorySection | backend/promptPatterns.js:233-243 | the section is empty iff the history has no entries; otherwise it shows every one of the last five entries |
| Prompts.HistoryKeepsLastFive | backend/promptPatterns.js:237-238 | with more than five entries only the last five count |
| Prompts.HistoryOfText | backend/promptPatterns.js:234-237 | a non-empty string history yields the header and no entries |
| Prompts.ConversationalPrompt | backend/promptPatterns.js:212-249 | the prompt is built iff its history section is; it then contains the user message, the financial context and the history section |
| Prompts.GeneratePromptOtherAction | backend/promptPatterns.js:284-285 | any other action returns `data.message` |
| Prompts.DebtPlanDefaultStrategy | backend/promptPatterns.js:270-271 | without a strategy the debt prompt uses "optimal" |
| Prompts.ConversationWithoutHistory | backend/promptPatterns.js:274-279 | without a history the conversational prompt gets an empty one |
| Prompts.GeneratePrompt | backend/promptPatterns.js:266-287 | the `generatePrompt` switch; `GeneratePromptOtherAction`, `DebtPlanDefaultStrategy` and `ConversationWithoutHistory` state its cases |
| Prompts.LastIndexOf | backend/promptPatterns.js:253 | the last position of a character, or -1 when it is absent |
| Prompts.JsonSpan | backend/promptPatterns.js:253 | `/\{[\s\S]*\}/` matches from the first '{' to the last '}' after it, and fails iff no '}' follows any '{' |
| Prompts.NoBraceAfterBrace | backend/promptPatterns.js:253-254 | when the first '{' is absent or after the last '}', no '}' follows any '{' |
| Prompts.ExtractJson | backend/promptPatterns.js:252-263 | null without a match; otherwise the decoding of the matched span (null when that fails) |
| Prompts.ExtractJsonEmbedded | backend/promptPatterns.js:252-263 | a brace-delimited body between brace-free text decodes as the body alone |
| Manager.GetOrCreate | backend/conversationManager.js:163-175 | an existing context is kept as it is; a missing one is created empty, stage "initial", at `now`; other users are untouched |
| Manager.GetOrCreateIdempotent | backend/conversationManager.js:163-175 | getting a context twice is the same as once and keeps the history |
| Manager.ClearedHistoryIsEmpty | backend/conversationManager.js:180-191 | after clearing, the user's history is empty and others' histories are unchanged |
| Manager.SummaryAddsIncomeRaw | backend/conversationManager.js:109-126 | one more income row raises the income count by 1 and total income and net cash flow by its raw amount, and nothing else |
| Manager.SummaryAddsExpense | backend/conversationManager.js:109-126 | one more expense raises the count by 1 and the total by its amount, and lowers the net cash flow by it |
| Manager.SummaryCountsUnfundedGoal | backend/conversationManager.js:121-123 | a goal without a current amount is counted and adds 0 to savings |
| Manager.SummaryIsNotNormalised | backend/conversationManager.js:112-116 | a weekly income counts once in the summary but 4.33 times in the budget analysis |
| Manager.BuildFinancialSummary | backend/conversationManager.js:109-126 | `buildFinancialSummary`; `SummaryAddsIncomeRaw`, `SummaryAddsExpense` and `SummaryCountsUnfundedGoal` state how it moves |
| Manager.Successful | backend/conversationManager.js:132 | the successful results are exactly those with success set |
| Manager.Failed | backend/conversationManager.js:133 | the failed results are exactly those without success |
| Manager.SuccessFailPartition | backend/conversationManager.js:132-133 | the two filters partition the results as a multiset |
| Manager.Compose | backend/conversationManager.js:131-158 | the response lists all actions, counts the successful ones, and lists the errors of the failed ones, in order, iff some failed |
| Manager.BuildResponseAsWritten | backend/conversationManager.js:131-158 | the as-written response lists every action |
| Manager.BuildResponse | backend/conversationManager.js:131-158 | the corrected response lists every action |
| Manager.ReplyObjectShown | backend/conversationManager.js:145-149 | as written, an AI reply alone is shown as "[object Object]"; corrected, as its trimmed text |
| Manager.ObjectTextTrimmed | backend/conversationManager.js:157 | "[object Object]" is unchanged by trimming |
| Manager.QuietTurnGetsDefault | backend/conversationManager.js:145-149 | with no messages, no failures and no reply the default reply is shown |
| Manager.FailuresAloneGiveEmptyMessage | backend/conversationManager.js:136-157 | with only failures and no reply the message is empty |
| Manager.ReplyAloneIsTrimmed | backend/conversationManager.js:145-157 | with no action messages the message is the trimmed reply |
| Manager.ActionMessagesThenReply | backend/conversationManager.js:136-157 | action messages and a reply give the messages joined by newline, a blank line, then the reply |
| Manager.ActionMessagesAlone | backend/conversationManager.js:136-157 | action messages without a reply give the messages joined by newline and trimmed, whatever white space they hold |
| Manager.ContextualRequest | backend/conversationManager.js:88-104 | the chat request has one recent action per result, keeping its success flag |
| Manager.RecentActions | backend/conversationManager.js:92-96 | one entry per result, in order, with its action, success flag and message |
| Manager.ContextualRequestContents | backend/conversationManager.js:88-104 | the request carries the user id and message, every result's action, success and message in order, the summary of the user's data, and the last five messages of the context |
| Manager.FinishShape | backend/conversationManager.js:21-83 | an apology keeps only the recorded user message; an answer also records the assistant's message |
| Manager.AnsweredTurnRecordsBoth | backend/conversationManager.js:24-71 | an answered turn appends the user's message and then the assistant's, sets the activity time, and keeps the rest of the context |
| Manager.FailedTurnKeepsUserMessage | backend/conversationManager.js:24-82 | a failed turn shows the apology and keeps the user's message in the history |
| Manager.TurnLeavesOthers | backend/conversationManager.js:21-83 | a turn adds at most the user's own context, leaves others unchanged, and leaves the store the executor produced |
| Manager.ChatOnlyWhenNeeded | backend/conversationManager.js:40-57 | when no result needs AI and no command is a conversation, the chat reply is never consulted |
| Manager.AiReplyNotNeeded | backend/conversationManager.js:40-44 | when no result needs AI and no command is a conversation, no reply is asked for |
| Manager.AiReplyAsked | backend/conversationManager.js:40-57 | when a reply is needed it is the chat service's answer to the turn's request, or the error it threw |
| Manager.ChatErrorApologises | backend/conversationManager.js:44-82 | a needed reply whose chat call throws ends the turn with the apology carrying that error |
| Manager.ChatAnswerComposed | backend/conversationManager.js:44-71 | a needed reply that arrives is composed with the results into the response |
| Manager.ApologyIffThrown | backend/conversationManager.js:37-82 | a turn apologises iff the executor threw, or a reply was needed and the chat service threw |
| Manager.AiReply | backend/conversationManager.js:40-57 | the reply step of `processMessage`; `AiReplyNotNeeded` and `AiReplyAsked` state both cases |
| Manager.Finish | backend/conversationManager.js:37-82 | `processMessage` after execution; `FinishShape`, `ApologyIffThrown`, `AnsweredTurnRecordsBoth` and `TurnLeavesOthers` state it |
| Manager.ProcessStep | backend/conversationManager.js:21-83 | `processMessage` as a turn function; `MissingUserIdApologises` and the lemmas about `Finish` state it |
| Manager.RequestEndsWithUserTurn | backend/conversationManager.js:24-97 | the history sent to the model holds at most five messages and ends with the user's new message |
| Manager.MissingUserIdApologises | backend/conversationManager.js:37-82 | without a user id the turn apologises with "User ID is required" and the store is unchanged |
| Manager.SuggestionsFollowData | backend/conversationManager.js:248-273 | each suggestion appears iff its condition on the user's data holds |
| Manager.SuggestionsInOrder | backend/conversationManager.js:248-273 | the suggestions come in the fixed order of the checks |
| Manager.Suggestions | backend/conversationManager.js:248-273 | the suggestions for a user's data; `SuggestionsFollowData` and `SuggestionsInOrder` state them |
| Manager.ConversationManager.constructor | backend/conversationManager.js:12-16 | a new manager has no conversations |
| Manager.ConversationManager.GetConversationContext | backend/conversationManager.js:163-175 | the map becomes `GetOrCreate` of the old one, and the user's context is returned |
| Manager.ConversationManager.ClearConversation | backend/conversationManager.js:180-183 | the user's context is removed and success is acknowledged |
| Manager.ConversationManager.GetConversationHistory | backend/conversationManager.js:188-191 | the user's messages, or none when there is no context |
| Manager.ConversationManager.ProcessMessage | backend/conversationManager.js:21-83 | response, conversations and store after the call are those of `ProcessStep` on the state before |
| Manager.ConversationManager.RecordUserMessage | backend/conversationManager.js:24-31 | the user's context gains the new user message |
| Manager.ConversationManager.Conclude | backend/conversationManager.js:37-82 | response and conversations are those of `Finish` for the executor's outcome |
| Manager.ConversationManager.AskAi | backend/conversationManager.js:40-57 | the chat service is asked only when a reply is needed, and the outcome is the turn's `AiReply` |
| Manager.ConversationManager.GuideNewUser | backend/conversationManager.js:222-243 | the welcome is returned iff the user has no income, expenses or debts |
| Manager.ConversationManager.SuggestNextActions | backend/conversationManager.js:248-273 | the sequence of checks yields `Suggestions` for the user's current data |
| Routes.IdValue | backend/routes.js:54-60 | binding `userId`: absent or null binds NULL, booleans, arrays and objects throw, an integer binds as itself |
| Routes.Flag | backend/routes.js:137 | `recurring ? 1 : 0` is 1 iff the value is truthy |
| Routes.PostUserStep | backend/routes.js:10-32 | an error changes nothing; a returned user is in the table and has the body's email; either nothing changed or that user was appended, and then its name is the body's name |
| Routes.PostUserFindsExisting | backend/routes.js:14-19 | an existing email returns that user and inserts nothing |
| Routes.FindUserAfterAppend | backend/routes.js:14-26 | a user inserted with a new email is found by it afterwards |
| Routes.PostUserIdempotent | backend/routes.js:10-32 | repeating POST /user with the same email returns the same user and changes nothing |
| Routes.PostUserWithoutEmailInserts | backend/routes.js:10-32 | without an email every successful call inserts a new user |
| Routes.PostIncomeStep | backend/routes.js:52-69 | success appends exactly the row whose columns are the request's values bound as they are; failure changes nothing |
| Routes.PostExpenseStep | backend/routes.js:129-146 | success appends exactly the row whose user id, amount, category, description and date are the request's values bound as they are, with `recurring` stored as 1 iff truthy; failure changes nothing |
| Routes.PostDebtStep | backend/routes.js:217-235 | success appends the row whose user id, name, balance, rate, minimum payment and type are the request's values, with the due date taking its column default 1; failure changes nothing |
| Routes.PostSavingsStep | backend/routes.js:293-310 | success appends the row whose user id, name, target and target date are the request's values, a truthy current amount as given and a falsy one as 0, and the contribution defaulting to 0; failure changes nothing |
| Routes.PostBillStep | backend/routes.js:368-386 | success appends the row whose user id, name, amount, due date, frequency and category are the request's values, with `autoPay` stored as 1 iff truthy; failure changes nothing |
| Routes.MonthlyShare | backend/routes.js:96-110 | monthly ×1, biweekly ×2.17, weekly ×4.33, annual ×12/12, anything else ×12 |
| Routes.TotalMonthlyAppend | backend/routes.js:96-110 | the route's monthly total is a sum of per-row shares |
| Routes.TotalMonthly | backend/routes.js:96-110 | `totalMonthly` of GET /income; `TotalMonthlyAppend` and the two comparisons with the executor state it |
| Routes.TotalMonthlyAgreesOnCommonFrequencies | backend/routes.js:96-110 | for monthly, biweekly and weekly rows the route agrees with the executor |
| Routes.TotalMonthlyDisagreesWithExecutor | backend/routes.js:96-110 | an annual row counts 12 times and any other frequency 144 times what the executor counts |
| Routes.FindCategory | backend/routes.js:481-485 | the first entry with that category, or -1 when there is none |
| Routes.Labels | backend/routes.js:480-488 | the names of the items, one per item, in order |
| Routes.FirstAppearances | backend/routes.js:480-488 | the distinct categories, each once |
| Routes.AddToCategoryNames | backend/routes.js:482-484 | adding an amount appends its category only when new |
| Routes.FindInExtension | backend/routes.js:485 | appending other categories does not change which entry is found |
| Routes.AddToCategoryAmounts | backend/routes.js:485-486 | adding moves only that category's amount, by the added value |
| Routes.AddToCategoryTotal | backend/routes.js:485-486 | adding raises the grand total by the added value |
| Routes.GroupedByFirstAppearance | backend/routes.js:480-488 | the grouped categories are the distinct categories in order of first appearance |
| Routes.GroupedAmounts | backend/routes.js:480-488 | each group's amount is the sum of that category's rows |
| Routes.GroupedTotal | backend/routes.js:480-488 | the groups add up to the expense total |
| Routes.GroupByCategory | backend/routes.js:480-488 | the reduce loop computes `Grouped` of the rows |
| Routes.TotalOfShares | backend/routes.js:194-198 | the shares carry the group amounts, so they add up to the same total |
| Routes.Keyed | backend/routes.js:179-184 | the rows whose category is not "__proto__", the only rows an object key can take |
| Routes.KeyedSums | backend/routes.js:179-189 | dropping the "__proto__" rows keeps every other category's sum and lowers the total by that category's sum |
| Routes.KeyedCategories | backend/routes.js:179-184 | the kept rows have exactly the categories other than "__proto__" |
| Routes.ExpenseReportOf | backend/routes.js:171-204 | GET /expenses before `toFixed`; the four lemmas below state it |
| Routes.ExpenseReportFails | backend/routes.js:179-204 | GET /expenses fails iff some category names an inherited `Object.prototype` member other than "__proto__", whose entry turns into a string without `toFixed` |
| Routes.ReportIsGrouping | backend/routes.js:179-198 | a successful report's entries are the per-category groups of the kept rows, name for name and amount for amount |
| Routes.ExpenseReportNames | backend/routes.js:179-198 | a successful report lists every category except "__proto__" exactly once, in order of first appearance among the kept rows |
| Routes.ExpenseReportAmounts | backend/routes.js:179-198 | each entry carries the sum of its category's rows |
| Routes.ExpenseReportTotal | backend/routes.js:186-199 | the total is the sum of every row, and the entries add up to it less the "__proto__" rows |
| Routes.DebtReportAppend | backend/routes.js:262-269 | the debt total and monthly payment grow by the row's balance and minimum payment |
| Routes.DebtReportOf | backend/routes.js:253-273 | GET /debts before `toFixed`; `DebtReportAppend` states how it grows |
| Routes.CurrentTotalIsNaN | backend/routes.js:337-340 | the savings total is NaN iff some goal has no current amount |
| Routes.SavingsReportAppend | backend/routes.js:337-344 | a funded goal adds its current amount and target to the totals |
| Routes.SavingsReportOf | backend/routes.js:328-348 | GET /savings before `toFixed`; `CurrentTotalIsNaN` and `SavingsReportAppend` state it |
| Routes.CreateOrGetUser | backend/routes.js:10-32 | keeps the database valid; result and new state as `PostUserStep` |
| Routes.CreateIncome | backend/routes.js:52-69 | result and new state as `PostIncomeStep` |
| Routes.CreateExpense | backend/routes.js:129-146 | result and new state as `PostExpenseStep` |
| Routes.CreateDebt | backend/routes.js:217-235 | result and new state as `PostDebtStep` |
| Routes.CreateSavingsGoal | backend/routes.js:293-310 | result and new state as `PostSavingsStep` |
| Routes.CreateBill | backend/routes.js:368-386 | result and new state as `PostBillStep` |
| Routes.FinancialSnapshot | backend/routes.js:443-496 | the snapshot route's data is `SnapshotDataOf` the store |
| Routes.SnapshotByCategory | backend/routes.js:473-496 | the snapshot's categories are distinct, in order of first appearance, each with its sum, adding up to the expense total |
| Routes.SnapshotDataOf | backend/routes.js:443-496 | the snapshot route's user data; `SnapshotByCategory` states its grouping |
| Routes.EmergencyIndex | backend/routes.js:601-603 | the first goal whose lower-cased name contains "emergency", or -1 |
| Routes.LowerOccurs | backend/routes.js:602 | lower-casing keeps an occurrence where it was |
| Routes.EmergencyIgnoresCase | backend/routes.js:601-603 | a goal named with "Emergency" in any letter case is the emergency fund |
| Routes.PayoffDataOf | backend/routes.js:579-626 | the debt-payoff data takes every debt's figures in order and the first emergency goal's target and current amount, or null when there is none |
| Routes.ChatUserData | backend/routes.js:667-692 | /chat sends user data iff the user has income, with the income total |
| Routes.ChatIncomeShownAsObject | backend/routes.js:670-675 | as written, the chat prompt shows "Monthly Income: $[object Object]" |
| Routes.ChatIncomeShownAsNumber | backend/routes.js:670-675 | with a numeric income the chat prompt shows the income total |
| Routes.ChatWithoutIncome | backend/routes.js:667-692 | a user without income gets "No financial data available yet" |

## Left out

- The HTTP layer (Express, status codes, JSON responses) and `backend/server.js`. A route's answer is the value it computes, and a thrown error is an `Err`.
- `PUT` and `DELETE` routes, `GET /user/:userId` and `GET /bills`: plain updates, deletes and lookups with no logic beyond the store.
- `POST /analyze-budget`, `POST /compare-debt-strategies`, and the `budget_plans` and `conversations` inserts: they only gather data for the model and store its text. `saveConversation` is left out for the same reason.
- The language model (`backend/aiService.js`): its texts and analyses are opaque parameters. `backend/agentRoutes.js` and the frontend are not part of this model.
- `created_at` columns and every `ORDER BY`: rows are kept in insertion order.
- `toFixed` display of the read routes' totals, and percentages as numbers: the totals are exact reals.
- JavaScript key order for integer-like category names in `GET /expenses`: categories are kept in first-appearance order.
- Floating-point rounding: numbers are exact reals, with NaN only where `parseFloat` of NULL yields it.
- Non-ASCII lower-casing in `toLowerCase`.
- Concurrency and the sharing of one database between requests.
- `generateContextualResponse` passes `(userId, userMessage, systemContext)` to `chat(message, history, userData)` (`backend/conversationManager.js:101`). The model passes the request as built; what the model service then does with the shifted arguments is not modelled.
- One `now` per turn: the user and assistant messages carry the same timestamp.
- Numeric columns: SQLite keeps a non-numeric text as TEXT, but the store refuses it.
- Js.StringToNum: text with an exponent ("1e3"), a hexadecimal, octal or binary prefix ("0x1A") or "Infinity" reads as NaN, where `Number` gives a number. So Store.NumberValue refuses "1e3", which SQLite stores as 1000; Routes.IdValue binds "1e0" as no user, where SQLite matches user 1; and Executor.NotPositive lets "-1e3" through as an amount, which the source rejects as at most 0 (the store then refuses the text instead).
- A stored integer id is `int`, and user ids are `Option<int>`: a fractional id is not modelled.
- A NaN savings total sent to the chat prompt is carried as `null`: the prompt reads it through `|| 0`, where both are falsy.
- Manager.ConversationManager.ProcessMessage: builds the answer with the corrected `BuildResponse`, so an AI turn shows and records the reply's text; as written it shows "[object Object]" after the action messages (see Findings).
- Manager.ConversationManager.Conclude: records the corrected response for the same reason; `Manager.BuildResponseAsWritten` and `Manager.ReplyObjectShown` keep the behaviour as written.
- Executor.CreateIncomeStep: its own contract gives only the id, the user and the frame of the insert; the stored row, the defaults and the message are stated by `Executor.IncomeStored`.
- Executor.CreateExpenseStep: its own contract gives only the id, the user and the frame; `Executor.ExpenseStored` states the row, the date fallback, the recurring flag and the message.
- Executor.CreateDebtStep: its own contract gives only the id, the user and the frame; `Executor.DebtStored` states the row, its defaults and the message.
- Executor.CreateSavingsGoalStep: its own contract gives only the id, the user and the frame; `Executor.SavingsGoalStored` states the row, its defaults and the message.
- Executor.CreateBillStep: its own contract gives only the id, the user and the frame; `Executor.BillStored` states the row, its defaults and the message.
- Manager.ActionMessagesThenReply: requires that the first message and the reply have no surrounding white space, so that trimming leaves them alone; it does not state the case with padding.

## Findings

| source | as written | input that shows it | evidently intended | confidence | as-written member | corrected member |
|---|---|---|---|---|---|---|
| backend/conversationManager.js:145-146 | `message += aiResponse` appends the object that `chat` returns | any turn whose command is CONVERSATION, with the chat returning `{text: "Hi"}` | append the reply's text | not executed | Manager.ReplyObjectShown | Manager.BuildResponse |
| backend/routes.js:670-675 | /chat sends `income: {total}`, and backend/promptPatterns.js:225 interpolates `userData.income` | a user with one income row of 1000 | "Monthly Income: $1000" | not executed | Routes.ChatIncomeShownAsObject | Routes.ChatIncomeShownAsNumber |
