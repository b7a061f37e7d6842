/**
 * backend/promptPatterns.js: the prompt texts sent to the language model.
 * Every builder is a template literal over the JavaScript values it is
 * given, so each is modelled over JSON values with `${v}` as DisplayText /
 * OptText, `a - b` as subtraction after `Number()`, and the TypeErrors that
 * reading a property of `undefined` or `null`, or calling `map` on a
 * non-array, throws. A builder that can throw returns a Result.
 *
 * The fixed wording (the exported persona, system context and output
 * templates, and the fixed paragraphs inside each template literal) is the
 * record Texts; the builders take it as a parameter, Standard(()) is the
 * module's own wording, and every property below holds for any wording.
 */
module Prompts {
  import opened Js

  /** The fixed wording of the prompts. */
  datatype Texts = Texts(
    persona: string,
    systemContext: string,
    debtPlanTemplate: string,
    budgetPlanTemplate: string,
    savingsPlanTemplate: string,
    recipeIntro: string,
    recipeAsk: string,
    recipeFormat: string,
    flippedIntro: string,
    flippedAfter: string,
    flippedAsk: string,
    budgetAsk: string,
    debtPlanAsk: string,
    debtPlanJson: string,
    savingsPlanAsk: string,
    conversationClose: string)

  function Standard(u: ()): Texts {
    Texts(
      persona :=
        "Act as a certified financial planner with 15 years of experience specializing \n"
        + "in debt management and personal savings strategies. You prioritize actionable, \n"
        + "realistic advice tailored to middle-income individuals. When analyzing financial \n"
        + "situations, you:\n"
        + "- Always consider cash flow sustainability\n"
        + "- Provide pros and cons for different strategies\n"
        + "- Use encouraging but realistic language\n"
        + "- Break down complex financial concepts simply\n"
        + "- Focus on practical, achievable steps\n"
        + "- Consider the psychological aspects of money management",
      systemContext :=
        "You are an AI-powered financial assistant integrated into a comprehensive budget tracking application.\n"
        + "You have access to the user's complete financial profile including income, expenses, debts, savings goals, and bills.\n"
        + "Your role is to provide personalized financial guidance, create actionable plans, and help users achieve their financial goals.\n"
        + "\n"
        + "IMPORTANT GUIDELINES:\n"
        + "1. Always output structured data when requested using exact JSON formats\n"
        + "2. Be empathetic but honest about financial realities\n"
        + "3. Prioritize debt with high interest rates (avalanche method) unless user prefers psychological wins (snowball)\n"
        + "4. Recommend emergency fund of 3-6 months expenses before aggressive debt payoff\n"
        + "5. Consider the user's entire financial picture, not isolated components",
      debtPlanTemplate :=
        "Format your debt repayment plan exactly as follows:\n"
        + "\n"
        + "DEBT NAME: [name]\n"
        + "Current Balance: $[amount]\n"
        + "Interest Rate: [rate]%\n"
        + "Minimum Payment: $[amount]\n"
        + "Recommended Payment: $[amount]\n"
        + "Payoff Date: [date]\n"
        + "Total Interest Paid: $[amount]\n"
        + "\n"
        + "---\n"
        + "STRATEGY: [Avalanche/Snowball/Hybrid]\n"
        + "RATIONALE: [why this works for your situation]\n"
        + "MONTHLY BREAKDOWN: [detailed payment schedule]",
      budgetPlanTemplate :=
        "Format your monthly budget plan as follows:\n"
        + "\n"
        + "MONTHLY INCOME: $[amount]\n"
        + "\n"
        + "EXPENSES BY CATEGORY:\n"
        + "- Housing: $[amount] ([percent]%)\n"
        + "- Transportation: $[amount] ([percent]%)\n"
        + "- Food: $[amount] ([percent]%)\n"
        + "- Utilities: $[amount] ([percent]%)\n"
        + "- Insurance: $[amount] ([percent]%)\n"
        + "- Debt Payments: $[amount] ([percent]%)\n"
        + "- Savings: $[amount] ([percent]%)\n"
        + "- Discretionary: $[amount] ([percent]%)\n"
        + "\n"
        + "TOTAL EXPENSES: $[amount]\n"
        + "SURPLUS/DEFICIT: $[amount]\n"
        + "\n"
        + "RECOMMENDATIONS:\n"
        + "[List specific, actionable recommendations]",
      savingsPlanTemplate :=
        "Format your savings goal plan as follows:\n"
        + "\n"
        + "GOAL: [name]\n"
        + "Target Amount: $[amount]\n"
        + "Current Amount: $[amount]\n"
        + "Amount Remaining: $[amount]\n"
        + "Target Date: [date]\n"
        + "Months Until Target: [number]\n"
        + "\n"
        + "REQUIRED MONTHLY CONTRIBUTION: $[amount]\n"
        + "\n"
        + "STRATEGY:\n"
        + "[Detailed strategy for reaching this goal]\n"
        + "\n"
        + "MILESTONES:\n"
        + "[List key milestones and dates]",
      recipeIntro :=
        "I know I need to perform these steps:",
      recipeAsk :=
        "Provide a complete sequence of steps for me. Fill in any missing steps. Identify any unnecessary steps.",
      recipeFormat :=
        "Present the plan in a clear, actionable format.",
      flippedIntro :=
        "Ask questions one at a time until you have enough information about:",
      flippedAfter :=
        "After gathering all information, provide a comprehensive analysis and plan.",
      flippedAsk :=
        "Ask me the first question now.",
      budgetAsk :=
        "Based on this information, provide:\n"
        + "1. An analysis of current spending patterns\n"
        + "2. Areas where spending can be optimized\n"
        + "3. Recommended budget allocations following the 50/30/20 rule (adjusted for debt)\n"
        + "4. Specific action items to improve financial health",
      debtPlanAsk :=
        "Create a comprehensive debt payoff plan that:\n"
        + "1. Considers the available monthly surplus\n"
        + "2. Balances debt payoff with emergency fund building (if needed)\n"
        + "3. Applies the chosen strategy (or recommends the best one)\n"
        + "4. Provides month-by-month projections\n"
        + "5. Shows total interest saved",
      debtPlanJson :=
        "Also provide the data in JSON format for system processing:\n"
        + "{\n"
        + "  \"strategy\": \"avalanche|snowball|hybrid\",\n"
        + "  \"totalMonthsToPayoff\": number,\n"
        + "  \"totalInterestPaid\": number,\n"
        + "  \"monthlyPlan\": [\n"
        + "    {\n"
        + "      \"month\": number,\n"
        + "      \"debts\": [\n"
        + "        {\"name\": \"string\", \"payment\": number, \"remainingBalance\": number}\n"
        + "      ],\n"
        + "      \"totalPayment\": number\n"
        + "    }\n"
        + "  ]\n"
        + "}",
      savingsPlanAsk :=
        "Create a realistic savings plan that:\n"
        + "1. Accounts for current financial obligations\n"
        + "2. Provides a sustainable monthly contribution\n"
        + "3. Includes milestone targets\n"
        + "4. Offers strategies to accelerate savings if possible",
      conversationClose :=
        "Respond naturally and helpfully. If the user is asking for a specific analysis or plan, provide it with detailed, actionable advice.\n"
        + "If you need more information, ask clarifying questions.")
  }

  // ---------------------------------------------------------------- JavaScript reads

  /** `v.key`, which throws when v is `undefined` or `null`. */
  function Get(v: Option<Json>, key: string): (r: Result<Option<Json>>)
    ensures r.Err? <==> v.None? || v.value == JNull
    ensures r.Ok? ==> r.value == Field(v.value, key)
  {
    match v
    case None => Err("Cannot read properties of undefined (reading '" + key + "')")
    case Some(JNull) => Err("Cannot read properties of null (reading '" + key + "')")
    case Some(j) => Ok(Field(j, key))
  }

  /** `v?.key` */
  function GetOptional(v: Option<Json>, key: string): Option<Json> {
    if v.None? || v.value == JNull then None else Field(v.value, key)
  }

  /** `const { first, ... } = v` for a v that is `null`. */
  function DestructureError(first: string, name: string): string {
    "Cannot destructure property '" + first + "' of '" + name + "' as it is null."
  }

  /** The items `expr.map(...)` runs over: only an array has a `map` method. */
  function ArrayItems(v: Option<Json>, expr: string): (r: Result<seq<Json>>)
    ensures r.Ok? <==> v.Some? && v.value.JArr?
    ensures r.Ok? ==> r.value == v.value.items
  {
    match v
    case None => Err("Cannot read properties of undefined (reading 'map')")
    case Some(JNull) => Err("Cannot read properties of null (reading 'map')")
    case Some(JArr(items)) => Ok(items)
    case Some(_) => Err(expr + ".map is not a function")
  }

  /** `items.map(f)` where f may throw: the first exception wins. */
  function MapAll(items: seq<Json>, f: Json -> Result<string>): (r: Result<seq<string>>)
    ensures r.Ok? <==> forall i :: 0 <= i < |items| ==> f(items[i]).Ok?
    ensures r.Ok? ==> |r.value| == |items| && forall i :: 0 <= i < |items| ==> r.value[i] == f(items[i]).value
  {
    if items == [] then Ok([])
    else
      var first := f(items[0]);
      if first.Err? then Err(first.error)
      else
        var rest := MapAll(items[1..], f);
        assert forall i :: 1 <= i < |items| ==> items[i] == items[1..][i - 1];
        if rest.Err? then Err(rest.error) else Ok([first.value] + rest.value)
  }

  /** `a - b` on numbers: NaN when either side is NaN. */
  function Minus(a: Num, b: Num): (r: Num)
    ensures r.Finite? <==> a.Finite? && b.Finite?
    ensures r.Finite? ==> r.r == a.r - b.r
  {
    if a.Finite? && b.Finite? then Finite(a.r - b.r) else NaN
  }

  // ---------------------------------------------------------------- persona, recipe, flipped interaction

  /** applyPersonaPattern: the persona, a blank line, then the message. */
  function ApplyPersona(t: Texts, userMessage: Option<Json>): (p: string)
    ensures StartsWith(p, t.persona)
    ensures EndsWith(p, "\n\n" + OptText(userMessage))
  {
    var rest := "\n\n" + OptText(userMessage);
    ConcatParts(t.persona, rest);
    t.persona + rest
  }

  /** A list prompt is its two head lines, the block of list lines, a blank line and its two closing lines, joined. */
  lemma ListPromptJoin(first: string, intro: string, lines: seq<string>, after: string, ask: string)
    ensures first + ".\n" + intro + "\n" + Join(lines, "\n") + "\n\n" + after + "\n" + ask
            == Join([first + ".", intro] + Block(lines) + ["", after, ask], "\n")
  {
    var head := [first + ".", intro];
    var body := Block(lines);
    var tail := ["", after, ask];
    JoinAppend(head, body, "\n");
    JoinAppend(head + body, tail, "\n");
    assert Join(head, "\n") == first + "." + "\n" + intro by {
      assert head[1..] == [intro];
    }
    assert tail[1..] == [after, ask];
    assert tail[1..][1..] == [ask];
    assert Join(tail[1..], "\n") == after + "\n" + ask;
    assert Join(tail, "\n") == "\n" + after + "\n" + ask;
  }

  /**
   * The shape the recipe and flipped interaction prompts share: a first line
   * ending in ".", an introduction, the list, a blank line and two closing
   * lines, so the template is exactly these lines joined by line breaks.
   */
  function ListPrompt(first: string, intro: string, lines: seq<string>, after: string, ask: string): (p: string)
    ensures p == Join([first + ".", intro] + Block(lines) + ["", after, ask], "\n")
  {
    ListPromptJoin(first, intro, lines, after, ask);
    first + ".\n" + intro + "\n" + Join(lines, "\n") + "\n\n" + after + "\n" + ask
  }

  /** The lines of the recipe's step list: step i is numbered i + 1. */
  function RecipeLines(steps: seq<Json>): (lines: seq<string>)
    ensures |lines| == |steps|
    ensures forall i :: 0 <= i < |steps| ==> lines[i] == NatToString(i + 1) + ". " + DisplayText(steps[i])
  {
    if steps == [] then []
    else RecipeLines(steps[..|steps| - 1]) + [NatToString(|steps|) + ". " + DisplayText(steps[|steps| - 1])]
  }

  /** createRecipePrompt: throws unless knownSteps is an array. */
  function RecipePrompt(t: Texts, goal: Option<Json>, knownSteps: Option<Json>): (r: Result<string>)
    ensures r.Ok? <==> knownSteps.Some? && knownSteps.value.JArr?
  {
    var steps := ArrayItems(knownSteps, "knownSteps");
    if steps.Err? then Err(steps.error)
    else Ok(ListPrompt("I would like to " + OptText(goal), t.recipeIntro, RecipeLines(steps.value), t.recipeAsk, t.recipeFormat))
  }

  /** The lines of the flipped interaction's list: each item after "- ". */
  function FlippedLines(items: seq<Json>): (lines: seq<string>)
    ensures |lines| == |items|
    ensures forall i :: 0 <= i < |items| ==> lines[i] == "- " + DisplayText(items[i])
  {
    if items == [] then []
    else FlippedLines(items[..|items| - 1]) + ["- " + DisplayText(items[|items| - 1])]
  }

  /** createFlippedInteractionPrompt: throws unless informationNeeded is an array. */
  function FlippedInteractionPrompt(t: Texts, goal: Option<Json>, informationNeeded: Option<Json>): (r: Result<string>)
    ensures r.Ok? <==> informationNeeded.Some? && informationNeeded.value.JArr?
  {
    var items := ArrayItems(informationNeeded, "informationNeeded");
    if items.Err? then Err(items.error)
    else
      Ok(ListPrompt("I would like you to ask me questions to " + OptText(goal), t.flippedIntro, FlippedLines(items.value),
                    t.flippedAfter, t.flippedAsk))
  }

  // ---------------------------------------------------------------- budget analysis

  /** One line of the expense breakdown. */
  function CategoryLine(cat: Json): Result<string> {
    if cat == JNull then Err("Cannot read properties of null (reading 'name')")
    else Ok("- " + OptText(Field(cat, "name")) + ": $" + OptText(Field(cat, "amount")))
  }

  /** The snapshot block, one figure per line. */
  function BudgetSnapshot(income: Option<Json>, expensesTotal: Option<Json>, debtsTotal: Option<Json>,
                          monthlyPayment: Option<Json>, billCount: Option<Json>, billTotal: Option<Json>): string {
    Lines(["CURRENT FINANCIAL SNAPSHOT:",
           "Monthly Income: $" + OptText(income),
           "Total Monthly Expenses: $" + OptText(expensesTotal),
           "Total Debt: $" + OptText(debtsTotal),
           "Monthly Debt Payments: $" + OptText(monthlyPayment),
           "Upcoming Bills: " + OptText(billCount) + " bills totaling $" + OptText(billTotal)])
  }

  /**
   * createBudgetAnalysisPrompt: its blocks separated by blank lines. The
   * reads happen in the template's order, so the first missing object names
   * the error.
   */
  function BudgetAnalysisPrompt(t: Texts, userData: Json): Result<string> {
    if userData == JNull then Err(DestructureError("income", "userData"))
    else
      var income := Field(userData, "income");
      var expenses := Field(userData, "expenses");
      var debts := Field(userData, "debts");
      var bills := Field(userData, "bills");
      var expensesTotal := Get(expenses, "total");
      if expensesTotal.Err? then Err(expensesTotal.error) else
      var debtsTotal := Get(debts, "total");
      if debtsTotal.Err? then Err(debtsTotal.error) else
      var monthlyPayment := Field(debts.value, "monthlyPayment");
      var billCount := Get(bills, "count");
      if billCount.Err? then Err(billCount.error) else
      var billTotal := Field(bills.value, "total");
      var cats := ArrayItems(Field(expenses.value, "byCategory"), "expenses.byCategory");
      if cats.Err? then Err(cats.error) else
      var lines := MapAll(cats.value, CategoryLine);
      if lines.Err? then Err(lines.error) else
      Ok(Blocks([t.systemContext,
                 BudgetSnapshot(income, expensesTotal.value, debtsTotal.value, monthlyPayment, billCount.value, billTotal),
                 "Expense Breakdown:\n" + Lines(lines.value),
                 t.budgetAsk,
                 t.budgetPlanTemplate]))
  }

  /** A built budget prompt reports the income and lists every expense category. */
  lemma BudgetPromptReports(t: Texts, userData: Json)
    requires BudgetAnalysisPrompt(t, userData).Ok?
    ensures Contains(BudgetAnalysisPrompt(t, userData).value, "Monthly Income: $" + OptText(Field(userData, "income")))
    ensures var cats := ArrayItems(Field(Field(userData, "expenses").value, "byCategory"), "expenses.byCategory").value;
            forall k :: 0 <= k < |cats| ==>
              CategoryLine(cats[k]).Ok? && Contains(BudgetAnalysisPrompt(t, userData).value, CategoryLine(cats[k]).value)
  {
    var expenses := Field(userData, "expenses");
    var debts := Field(userData, "debts");
    var bills := Field(userData, "bills");
    var income := "Monthly Income: $" + OptText(Field(userData, "income"));
    var snapshot := ["CURRENT FINANCIAL SNAPSHOT:", income,
                     "Total Monthly Expenses: $" + OptText(Field(expenses.value, "total")),
                     "Total Debt: $" + OptText(Field(debts.value, "total")),
                     "Monthly Debt Payments: $" + OptText(Field(debts.value, "monthlyPayment")),
                     "Upcoming Bills: " + OptText(Field(bills.value, "count")) + " bills totaling $" + OptText(Field(bills.value, "total"))];
    var cats := ArrayItems(Field(expenses.value, "byCategory"), "expenses.byCategory").value;
    var lines := MapAll(cats, CategoryLine).value;
    var sections := [t.systemContext, Lines(snapshot), "Expense Breakdown:\n" + Lines(lines), t.budgetAsk, t.budgetPlanTemplate];
    var p := BudgetAnalysisPrompt(t, userData).value;
    assert p == Blocks(sections);
    assert Contains(p, sections[1]) && Contains(p, sections[2]);
    assert Contains(Lines(snapshot), snapshot[1]);
    ContainsIn(p, sections[1], income);
    forall k | 0 <= k < |cats| ensures CategoryLine(cats[k]).Ok? && Contains(p, CategoryLine(cats[k]).value) {
      assert Contains(Lines(lines), lines[k]);
      ContainsAfter("Expense Breakdown:\n", Lines(lines), lines[k]);
      ContainsIn(p, sections[2], lines[k]);
    }
  }

  // ---------------------------------------------------------------- debt payoff

  /** One entry of the debt list: a line of its own between line breaks. */
  function DebtLine(debt: Json): Result<string> {
    if debt == JNull then Err("Cannot read properties of null (reading 'name')")
    else
      Ok("\n- " + OptText(Field(debt, "name")) + ": $" + OptText(Field(debt, "balance"))
         + " at " + OptText(Field(debt, "interestRate")) + "% APR\n  Minimum Payment: $"
         + OptText(Field(debt, "minimumPayment")) + "\n")
  }

  /** The user preference: strict equality with the two strategy names, anything else asks for a recommendation. */
  function StrategyLabel(strategy: Json): (shown: string)
    ensures shown == "Minimize interest (Avalanche)" <==> strategy == JStr("avalanche")
    ensures shown == "Quick wins (Snowball)" <==> strategy == JStr("snowball")
    ensures shown == "Recommend optimal strategy" <==> strategy != JStr("avalanche") && strategy != JStr("snowball")
  {
    if strategy == JStr("avalanche") then "Minimize interest (Avalanche)"
    else if strategy == JStr("snowball") then "Quick wins (Snowball)"
    else "Recommend optimal strategy"
  }

  /** The emergency fund block: throws when `savingsGoals` is missing. */
  function EmergencyLine(savingsGoals: Option<Json>): Result<string> {
    var emergency := Get(savingsGoals, "emergency");
    if emergency.Err? then Err(emergency.error)
    else if TruthyOpt(emergency.value) then
      Ok("Emergency Fund Goal: $" + OptText(Field(emergency.value.value, "target"))
         + " (Current: $" + OptText(Field(emergency.value.value, "current")) + ")")
    else Ok("No emergency fund set")
  }

  /** `income - expenses.total`, the money left for debt payments. */
  function AvailableForDebt(income: Option<Json>, expensesTotal: Option<Json>): (n: Num)
    ensures n.Finite? <==> ToNumber(income).Finite? && ToNumber(expensesTotal).Finite?
    ensures n.Finite? ==> n.r == ToNumber(income).r - ToNumber(expensesTotal).r
  {
    Minus(ToNumber(income), ToNumber(expensesTotal))
  }

  function AvailableLine(income: Option<Json>, expensesTotal: Option<Json>): string {
    "Available for Debt: $" + NumDisplay(AvailableForDebt(income, expensesTotal))
  }

  function PreferenceLine(strategy: Json): string {
    "User Preference: " + StrategyLabel(strategy)
  }

  /** createDebtPayoffPrompt; `strategy` is already defaulted by the caller when it was `undefined`. */
  function DebtPayoffPrompt(t: Texts, userData: Json, strategy: Json): Result<string> {
    if userData == JNull then Err(DestructureError("income", "userData"))
    else
      var income := Field(userData, "income");
      var expenses := Field(userData, "expenses");
      var debts := Field(userData, "debts");
      var savingsGoals := Field(userData, "savingsGoals");
      var expensesTotal := Get(expenses, "total");
      if expensesTotal.Err? then Err(expensesTotal.error) else
      var list := Get(debts, "list");
      if list.Err? then Err(list.error) else
      var items := ArrayItems(list.value, "debts.list");
      if items.Err? then Err(items.error) else
      var lines := MapAll(items.value, DebtLine);
      if lines.Err? then Err(lines.error) else
      var emergency := EmergencyLine(savingsGoals);
      if emergency.Err? then Err(emergency.error) else
      Ok(Blocks([t.systemContext,
                 Lines(["DEBT REPAYMENT SCENARIO:", "Monthly Income: $" + OptText(income),
                        "Monthly Expenses: $" + OptText(expensesTotal.value), AvailableLine(income, expensesTotal.value)]),
                 "DEBTS:\n" + Lines(lines.value),
                 PreferenceLine(strategy),
                 emergency.value,
                 t.debtPlanAsk,
                 t.debtPlanTemplate,
                 t.debtPlanJson]))
  }

  /** A built debt prompt shows the money available for debt, every debt, and the strategy preference. */
  lemma DebtPromptReports(t: Texts, userData: Json, strategy: Json)
    requires DebtPayoffPrompt(t, userData, strategy).Ok?
    ensures Contains(DebtPayoffPrompt(t, userData, strategy).value,
                     AvailableLine(Field(userData, "income"), Field(Field(userData, "expenses").value, "total")))
    ensures Contains(DebtPayoffPrompt(t, userData, strategy).value, PreferenceLine(strategy))
    ensures var debts := ArrayItems(Field(Field(userData, "debts").value, "list"), "debts.list").value;
            forall k :: 0 <= k < |debts| ==>
              DebtLine(debts[k]).Ok? && Contains(DebtPayoffPrompt(t, userData, strategy).value, DebtLine(debts[k]).value)
  {
    var income := Field(userData, "income");
    var total := Field(Field(userData, "expenses").value, "total");
    var debts := ArrayItems(Field(Field(userData, "debts").value, "list"), "debts.list").value;
    var lines := MapAll(debts, DebtLine).value;
    var scenario := ["DEBT REPAYMENT SCENARIO:", "Monthly Income: $" + OptText(income),
                     "Monthly Expenses: $" + OptText(total), AvailableLine(income, total)];
    var sections := [t.systemContext, Lines(scenario), "DEBTS:\n" + Lines(lines), PreferenceLine(strategy),
                     EmergencyLine(Field(userData, "savingsGoals")).value, t.debtPlanAsk, t.debtPlanTemplate, t.debtPlanJson];
    var p := DebtPayoffPrompt(t, userData, strategy).value;
    assert p == Blocks(sections);
    assert Contains(p, sections[1]) && Contains(p, sections[2]) && Contains(p, sections[3]);
    assert Contains(Lines(scenario), scenario[3]);
    ContainsIn(p, sections[1], AvailableLine(income, total));
    forall k | 0 <= k < |debts| ensures DebtLine(debts[k]).Ok? && Contains(p, DebtLine(debts[k]).value) {
      assert Contains(Lines(lines), lines[k]);
      ContainsAfter("DEBTS:\n", Lines(lines), lines[k]);
      ContainsIn(p, sections[2], lines[k]);
    }
  }

  // ---------------------------------------------------------------- savings goal

  /** `income - expenses.total - debts.monthlyPayment` */
  function AvailableFunds(income: Option<Json>, expensesTotal: Option<Json>, monthlyPayment: Option<Json>): (n: Num)
    ensures n.Finite? <==> ToNumber(income).Finite? && ToNumber(expensesTotal).Finite? && ToNumber(monthlyPayment).Finite?
    ensures n.Finite? ==> n.r == ToNumber(income).r - ToNumber(expensesTotal).r - ToNumber(monthlyPayment).r
  {
    Minus(Minus(ToNumber(income), ToNumber(expensesTotal)), ToNumber(monthlyPayment))
  }

  function SurplusLine(income: Option<Json>, expensesTotal: Option<Json>, monthlyPayment: Option<Json>): string {
    "Monthly Surplus: $" + NumDisplay(AvailableFunds(income, expensesTotal, monthlyPayment))
  }

  /** createSavingsGoalPrompt */
  function SavingsGoalPrompt(t: Texts, userData: Json, goalType: Option<Json>): Result<string> {
    if userData == JNull then Err(DestructureError("income", "userData"))
    else
      var income := Field(userData, "income");
      var expenses := Field(userData, "expenses");
      var debts := Field(userData, "debts");
      var expensesTotal := Get(expenses, "total");
      if expensesTotal.Err? then Err(expensesTotal.error) else
      var monthlyPayment := Get(debts, "monthlyPayment");
      if monthlyPayment.Err? then Err(monthlyPayment.error) else
      Ok(Blocks([t.systemContext,
                 Lines(["SAVINGS GOAL PLANNING:", SurplusLine(income, expensesTotal.value, monthlyPayment.value),
                        "Goal Type: " + OptText(goalType)]),
                 t.savingsPlanAsk,
                 t.savingsPlanTemplate]))
  }

  /**
   * The savings prompt fails exactly when userData is null or its expenses or
   * debts are missing; otherwise it shows the monthly surplus.
   */
  lemma SavingsPromptReports(t: Texts, userData: Json, goalType: Option<Json>)
    ensures SavingsGoalPrompt(t, userData, goalType).Err? <==>
              || userData == JNull
              || Field(userData, "expenses") in {None, Some(JNull)}
              || Field(userData, "debts") in {None, Some(JNull)}
    ensures SavingsGoalPrompt(t, userData, goalType).Ok? ==>
              Contains(SavingsGoalPrompt(t, userData, goalType).value,
                       SurplusLine(Field(userData, "income"), Field(Field(userData, "expenses").value, "total"),
                                   Field(Field(userData, "debts").value, "monthlyPayment")))
  {
    if SavingsGoalPrompt(t, userData, goalType).Ok? {
      var surplus := SurplusLine(Field(userData, "income"), Field(Field(userData, "expenses").value, "total"),
                                 Field(Field(userData, "debts").value, "monthlyPayment"));
      var header := ["SAVINGS GOAL PLANNING:", surplus, "Goal Type: " + OptText(goalType)];
      var sections := [t.systemContext, Lines(header), t.savingsPlanAsk, t.savingsPlanTemplate];
      assert SavingsGoalPrompt(t, userData, goalType).value == Blocks(sections);
      assert Contains(Blocks(sections), sections[1]);
      assert Contains(Lines(header), header[1]);
      ContainsIn(SavingsGoalPrompt(t, userData, goalType).value, sections[1], surplus);
    }
  }

  // ---------------------------------------------------------------- conversation

  /** `${x || 0}` */
  function OrZero(v: Option<Json>): string {
    DisplayText(Or(v, JNum(0.0)))
  }

  /** The financial context block: four lines for truthy userData, otherwise the fixed notice. */
  function FinancialContext(userData: Option<Json>): (s: string)
    ensures s == "No financial data available yet" <==> !TruthyOpt(userData)
  {
    if !TruthyOpt(userData) then "No financial data available yet"
    else "\nMonthly Income: $" + OptText(Field(userData.value, "income")) + OtherFigures(userData.value)
  }

  /** `${u[key]?.total || 0}`: a truthy total is shown as it is, anything else as 0. */
  function Figure(u: Json, key: string): (s: string)
    ensures var total := GetOptional(Field(u, key), "total");
            && (TruthyOpt(total) ==> s == DisplayText(total.value))
            && (!TruthyOpt(total) ==> s == "0")
  {
    var zero := DisplayText(JNum(0.0));
    assert FracDigits(0.0, 20) == "";
    assert zero == "0";
    OrZero(GetOptional(Field(u, key), "total"))
  }

  /** The lines after the income line: expenses, debt and savings, each its `total` or 0. */
  function OtherFigures(u: Json): (s: string)
    ensures s == "\nMonthly Expenses: $" + Figure(u, "expenses") + "\nTotal Debt: $" + Figure(u, "debts")
                 + "\nSavings: $" + Figure(u, "savings") + "\n"
  {
    "\nMonthly Expenses: $" + OrZero(GetOptional(Field(u, "expenses"), "total"))
    + "\nTotal Debt: $" + OrZero(GetOptional(Field(u, "debts"), "total"))
    + "\nSavings: $" + OrZero(GetOptional(Field(u, "savings"), "total")) + "\n"
  }

  /** A missing, null or zero `total` (or a missing section) shows as $0, as for a user with no expenses, debts or savings. */
  lemma NoFiguresShowZero(u: Json)
    requires !TruthyOpt(GetOptional(Field(u, "expenses"), "total"))
    requires !TruthyOpt(GetOptional(Field(u, "debts"), "total"))
    requires !TruthyOpt(GetOptional(Field(u, "savings"), "total"))
    ensures OtherFigures(u) == "\nMonthly Expenses: $0\nTotal Debt: $0\nSavings: $0\n"
  {
  }

  /** For truthy userData the block opens with the income line, `userData.income` interpolated as it is. */
  lemma FinancialContextIncome(userData: Option<Json>)
    requires TruthyOpt(userData)
    ensures StartsWith(FinancialContext(userData), "\nMonthly Income: $" + OptText(Field(userData.value, "income")) + "\n")
  {
    var head := "\nMonthly Income: $" + OptText(Field(userData.value, "income"));
    var rest := OtherFigures(userData.value);
    assert (head + rest)[..|head| + 1] == head + rest[..1];
  }

  /** `history.length > 0`; a number or boolean has no length, an object only one it was given. */
  predicate HasEntries(history: Json) {
    match history
    case JArr(items) => |items| > 0
    case JStr(s) => |s| > 0
    case JObj(fields) =>
      "length" in fields && ToNumber(Some(fields["length"])).Finite? && ToNumber(Some(fields["length"])).r > 0.0
    case _ => false
  }

  function EntryText(conv: Json): Result<string> {
    if conv == JNull then Err("Cannot read properties of null (reading 'message')")
    else Ok("User: " + OptText(Field(conv, "message")) + "\nAssistant: " + OptText(Field(conv, "response")))
  }

  /**
   * The history block: present exactly when the history has entries; only
   * an array contributes entries, and then every one of its last five.
   */
  function HistorySection(history: Json): (r: Result<string>)
    ensures r == Ok("") <==> !HasEntries(history)
    ensures r.Ok? && history.JArr? ==>
              forall k :: 0 <= k < |LastFive(history.items)| ==>
                EntryText(LastFive(history.items)[k]).Ok? && Contains(r.value, EntryText(LastFive(history.items)[k]).value)
  {
    if !HasEntries(history) then Ok("")
    else
      var items := if history.JArr? then LastFive(history.items) else [];
      var texts := MapAll(items, EntryText);
      if texts.Err? then Err(texts.error)
      else
        var block := "\nCONVERSATION HISTORY:\n" + Blocks(texts.value);
        forall k | 0 <= k < |items| ensures Contains(block + "\n", texts.value[k]) {
          ContainsWithin("\nCONVERSATION HISTORY:\n", Blocks(texts.value), "\n", texts.value[k]);
        }
        Ok(block + "\n")
  }

  /** With more than five entries, only the last five reach the prompt. */
  lemma HistoryKeepsLastFive(items: seq<Json>)
    requires |items| > 5
    ensures HistorySection(JArr(items)) == HistorySection(JArr(items[|items| - 5..]))
  {
    assert LastFive(items[|items| - 5..]) == LastFive(items);
  }

  /** A non-empty string counts as history but contributes no entries. */
  lemma HistoryOfText(s: string)
    requires |s| > 0
    ensures HistorySection(JStr(s)) == Ok("\nCONVERSATION HISTORY:\n\n")
  {
    assert MapAll([], EntryText) == Ok([]);
    assert Blocks([]) == "";
    assert "\nCONVERSATION HISTORY:\n" + "" + "\n" == "\nCONVERSATION HISTORY:\n\n";
  }

  /** createConversationalPrompt */
  function ConversationalPrompt(t: Texts, userMessage: Option<Json>, history: Json, userData: Option<Json>): (r: Result<string>)
    ensures r.Ok? <==> HistorySection(history).Ok?
    ensures r.Ok? ==> Contains(r.value, "USER MESSAGE: " + OptText(userMessage))
                      && Contains(r.value, "USER'S FINANCIAL CONTEXT:\n" + FinancialContext(userData))
                      && Contains(r.value, HistorySection(history).value)
  {
    var section := HistorySection(history);
    if section.Err? then Err(section.error)
    else
      var sections := [t.systemContext, t.persona, "USER'S FINANCIAL CONTEXT:\n" + FinancialContext(userData), section.value,
                       "USER MESSAGE: " + OptText(userMessage), t.conversationClose];
      assert Contains(Blocks(sections), sections[2]) && Contains(Blocks(sections), sections[3])
             && Contains(Blocks(sections), sections[4]);
      Ok(Blocks(sections))
  }

  // ---------------------------------------------------------------- dispatch and JSON extraction

  const PromptActions: set<string> := {
    "ANALYZE_BUDGET", "CREATE_DEBT_PLAN", "CREATE_SAVINGS_PLAN", "CONVERSATION", "FLIPPED_INTERACTION", "RECIPE"
  }

  /** generatePrompt: a prompt string, or `data.message` as it is for any other action. */
  function GeneratePrompt(t: Texts, action: Json, data: Json): Result<Option<Json>> {
    if action == JStr("ANALYZE_BUDGET") then Text(BudgetAnalysisPrompt(t, data))
    else if action == JStr("CREATE_DEBT_PLAN") then
      var strategy := Get(Some(data), "strategy");
      if strategy.Err? then Err(strategy.error)
      // `strategy = "optimal"` is the parameter's default for `undefined`
      else Text(DebtPayoffPrompt(t, data, Default(strategy.value, JStr("optimal"))))
    else if action == JStr("CREATE_SAVINGS_PLAN") then
      var goalType := Get(Some(data), "goalType");
      if goalType.Err? then Err(goalType.error) else Text(SavingsGoalPrompt(t, data, goalType.value))
    else if action == JStr("CONVERSATION") then
      var message := Get(Some(data), "message");
      if message.Err? then Err(message.error)
      else Text(ConversationalPrompt(t, message.value, Or(Field(data, "history"), JArr([])), Field(data, "userData")))
    else if action == JStr("FLIPPED_INTERACTION") then
      var goal := Get(Some(data), "goal");
      if goal.Err? then Err(goal.error) else Text(FlippedInteractionPrompt(t, goal.value, Field(data, "informationNeeded")))
    else if action == JStr("RECIPE") then
      var goal := Get(Some(data), "goal");
      if goal.Err? then Err(goal.error) else Text(RecipePrompt(t, goal.value, Field(data, "knownSteps")))
    else Get(Some(data), "message")
  }

  function Text(r: Result<string>): Result<Option<Json>> {
    if r.Err? then Err(r.error) else Ok(Some(JStr(r.value)))
  }

  /** Any action without a prompt builder passes `data.message` through unchanged. */
  lemma GeneratePromptOtherAction(t: Texts, action: Json, data: Json)
    requires !(action.JStr? && action.s in PromptActions)
    ensures GeneratePrompt(t, action, data) == Get(Some(data), "message")
  {
    assert action != JStr("ANALYZE_BUDGET") && action != JStr("CREATE_DEBT_PLAN") && action != JStr("CREATE_SAVINGS_PLAN");
    assert action != JStr("CONVERSATION") && action != JStr("FLIPPED_INTERACTION") && action != JStr("RECIPE");
  }

  /** A debt plan request without a strategy uses "optimal", which asks the model to recommend one (StrategyLabel). */
  lemma DebtPlanDefaultStrategy(t: Texts, data: Json)
    requires data.JObj? && "strategy" !in data.fields
    ensures GeneratePrompt(t, JStr("CREATE_DEBT_PLAN"), data) == Text(DebtPayoffPrompt(t, data, JStr("optimal")))
  {
    assert Get(Some(data), "strategy") == Ok(None);
  }

  /** A conversation request without history builds the prompt over an empty history, so with no history block (HistorySection). */
  lemma ConversationWithoutHistory(t: Texts, data: Json)
    requires data.JObj? && "history" !in data.fields
    ensures GeneratePrompt(t, JStr("CONVERSATION"), data)
            == Text(ConversationalPrompt(t, Field(data, "message"), JArr([]), Field(data, "userData")))
  {
    assert Get(Some(data), "message") == Ok(Field(data, "message"));
  }

  function LastIndexOf(s: string, c: char): (i: int)
    ensures -1 <= i < |s|
    ensures i >= 0 ==> s[i] == c && c !in s[i + 1..]
    ensures i < 0 ==> c !in s
  {
    if s == [] then -1
    else if s[|s| - 1] == c then |s| - 1
    else
      var k := LastIndexOf(s[..|s| - 1], c);
      assert k >= 0 ==> s[k + 1..] == s[..|s| - 1][k + 1..] + [s[|s| - 1]];
      k
  }

  /**
   * Where `/\{[\s\S]*\}/` matches: from the first "{" to the last "}",
   * when some "}" follows that "{".
   */
  function JsonSpan(response: string): (r: Option<(nat, nat)>)
    ensures r.Some? ==>
              && r.value.0 < r.value.1 < |response|
              && response[r.value.0] == '{' && response[r.value.1] == '}'
              && '{' !in response[..r.value.0] && '}' !in response[r.value.1 + 1..]
    ensures r.None? <==> forall a, b :: 0 <= a < b < |response| && response[a] == '{' ==> response[b] != '}'
  {
    var i := IndexOf(response, '{');
    var j := LastIndexOf(response, '}');
    if i < 0 || j < i then
      NoBraceAfterBrace(response, i, j);
      None
    else
      Some((i as nat, j as nat))
  }

  /** With no "{" before the last "}", no "}" follows any "{". */
  lemma NoBraceAfterBrace(response: string, i: int, j: int)
    requires i == IndexOf(response, '{') && j == LastIndexOf(response, '}') && (i < 0 || j < i)
    ensures forall a, b :: 0 <= a < b < |response| && response[a] == '{' ==> response[b] != '}'
  {
    forall a, b | 0 <= a < b < |response| && response[a] == '{' ensures response[b] != '}' {
      assert response[a] in response;
      assert response[b] in response;
      assert b > j >= 0 ==> response[j + 1..][b - j - 1] == response[b];
    }
  }

  /** extractJSON: the matched span decoded, or null when nothing matches or decoding fails. */
  function ExtractJson(response: string, decode: string -> Option<Json>): (r: Option<Json>)
    ensures JsonSpan(response).None? ==> r.None?
    ensures JsonSpan(response).Some? ==> r == decode(response[JsonSpan(response).value.0..JsonSpan(response).value.1 + 1])
  {
    match JsonSpan(response)
    case None => None
    case Some((i, j)) => decode(response[i..j + 1])
  }

  /** A reply holding one JSON object between text without braces yields exactly that object's decoding. */
  lemma ExtractJsonEmbedded(pre: string, body: string, post: string, decode: string -> Option<Json>)
    requires '{' !in pre && '}' !in post
    requires |body| >= 2 && body[0] == '{' && body[|body| - 1] == '}'
    ensures ExtractJson(pre + body + post, decode) == decode(body)
  {
    var s := pre + body + post;
    var a, b := |pre|, |pre| + |body| - 1;
    assert s[a] == '{' && s[b] == '}';
    var span := JsonSpan(s);
    assert span.Some?;
    var i, j := span.value.0, span.value.1;
    assert s[..a] == pre;
    assert s[b + 1..] == post;
    assert i == a by {
      assert s[i] in s[..a] || s[a] in s[..i] || i == a;
    }
    assert j == b by {
      assert s[j] in s[b + 1..] || s[b] in s[j + 1..] || j == b;
    }
    assert s[i..j + 1] == body;
  }
}
