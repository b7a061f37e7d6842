/**
 * The conversation manager: an in-memory map from user to conversation
 * context; the message pipeline, which records the user's turn, parses the
 * message into commands, executes them, asks the AI for a reply when one is
 * needed, composes the answer and records the assistant's turn; and the
 * read-only helpers that welcome a new user and suggest next steps.
 *
 * What comes from outside the program is a parameter (Env): the clock, the
 * command model's reply text, `JSON.parse`, and the chat reply.
 */
module Manager {
  import opened Js
  import opened Store
  import opened Interpreter
  import opened Executor

  // ---------------------------------------------------------------- conversation state

  /** One entry of `context.messages`. */
  datatype Message =
    | UserTurn(content: string, timestamp: string)
    | AssistantTurn(content: string, actions: seq<ExecResult>, timestamp: string)

  /** The context object kept per user. */
  datatype Context = Context(
    userId: Option<int>, messages: seq<Message>, startedAt: string, lastActivity: string, stage: string)

  /** `this.conversations`: user id to context. */
  type ContextMap = map<Option<int>, Context>

  function NewContext(userId: Option<int>, now: string): Context {
    Context(userId, [], now, now, "initial")
  }

  /**
   * `getConversationContext` on the map: a user's first call stores an empty
   * context; a later call finds the stored one and changes nothing.
   */
  function GetOrCreate(conv: ContextMap, userId: Option<int>, now: string): (r: ContextMap)
    ensures userId in r && r.Keys == conv.Keys + {userId}
    ensures userId in conv ==> r == conv
    ensures userId !in conv ==> r[userId].messages == [] && r[userId].startedAt == now
                                && r[userId].lastActivity == now && r[userId].stage == "initial"
    ensures forall u :: u in conv ==> r[u] == conv[u]
  {
    if userId in conv then conv else conv[userId := NewContext(userId, now)]
  }

  /** `getConversationHistory`: the stored messages, or none. */
  function History(conv: ContextMap, userId: Option<int>): seq<Message> {
    if userId in conv then conv[userId].messages else []
  }

  /** Asking again returns the context of the first call, whatever the clock says. */
  lemma GetOrCreateIdempotent(conv: ContextMap, userId: Option<int>, first: string, later: string)
    ensures GetOrCreate(GetOrCreate(conv, userId, first), userId, later) == GetOrCreate(conv, userId, first)
    ensures History(GetOrCreate(conv, userId, first), userId) == History(conv, userId)
  {
  }

  /** After `clearConversation` the user's history is empty and every other user's is as it was. */
  lemma ClearedHistoryIsEmpty(conv: ContextMap, userId: Option<int>, other: Option<int>)
    ensures History(conv - {userId}, userId) == []
    ensures other != userId ==> History(conv - {userId}, other) == History(conv, other)
  {
  }

  // ---------------------------------------------------------------- buildFinancialSummary

  /** `sum + s.current_amount`, where a null amount adds nothing. */
  function SavedAmount(r: SavingsRow): real {
    if r.currentAmount.Some? then r.currentAmount.value else 0.0
  }

  datatype FinancialSummary = FinancialSummary(
    incomeCount: nat, totalIncome: real, expenseCount: nat, totalExpenses: real,
    debtCount: nat, totalDebt: real, savingsGoalCount: nat, totalSavings: real, netCashFlow: real)

  function BuildFinancialSummary(data: Snapshot): FinancialSummary {
    var totalIncome := Total(data.income, IncomeAmount);
    var totalExpenses := Total(data.expenses, ExpenseAmount);
    FinancialSummary(
      |data.income|, totalIncome, |data.expenses|, totalExpenses,
      |data.debts|, Total(data.debts, DebtBalance), |data.savings|, Total(data.savings, SavedAmount),
      totalIncome - totalExpenses)
  }

  /**
   * One more income row adds one to the count and its raw amount to the
   * income total and the net cash flow, whatever its frequency; nothing
   * else in the summary moves.
   */
  lemma SummaryAddsIncomeRaw(data: Snapshot, row: IncomeRow)
    ensures var before, after := BuildFinancialSummary(data), BuildFinancialSummary(data.(income := data.income + [row]));
            && after.incomeCount == before.incomeCount + 1
            && after.totalIncome == before.totalIncome + row.amount
            && after.netCashFlow == before.netCashFlow + row.amount
            && after == before.(incomeCount := after.incomeCount, totalIncome := after.totalIncome, netCashFlow := after.netCashFlow)
  {
    TotalAppend(data.income, row, IncomeAmount);
  }

  /** One more expense row lowers the net cash flow by exactly its amount. */
  lemma SummaryAddsExpense(data: Snapshot, row: ExpenseRow)
    ensures var before, after := BuildFinancialSummary(data), BuildFinancialSummary(data.(expenses := data.expenses + [row]));
            && after.expenseCount == before.expenseCount + 1
            && after.totalExpenses == before.totalExpenses + row.amount
            && after.netCashFlow == before.netCashFlow - row.amount
  {
    TotalAppend(data.expenses, row, ExpenseAmount);
  }

  /** A goal without a current amount is counted but saves nothing. */
  lemma SummaryCountsUnfundedGoal(data: Snapshot, goal: SavingsRow)
    requires goal.currentAmount.None?
    ensures var before, after := BuildFinancialSummary(data), BuildFinancialSummary(data.(savings := data.savings + [goal]));
            after.savingsGoalCount == before.savingsGoalCount + 1 && after.totalSavings == before.totalSavings
  {
    TotalAppend(data.savings, goal, SavedAmount);
  }

  /**
   * The summary takes income as stored: a weekly amount counts once, where
   * the executor's budget analysis multiplies it by 4.33.
   */
  lemma SummaryIsNotNormalised(data: Snapshot, row: IncomeRow)
    requires data.income == [row] && row.frequency == "weekly"
    ensures BuildFinancialSummary(data).totalIncome == row.amount
    ensures MonthlyIncome(data.income) == row.amount * 4.33
  {
    assert data.income == [] + [row];
    TotalAppend([], row, IncomeAmount);
    MonthlyIncomeOfOne(row);
  }

  // ---------------------------------------------------------------- buildResponse

  /** `executionResults.filter(r => r.success)` */
  function Successful(results: seq<ExecResult>): (s: seq<ExecResult>)
    ensures forall r :: r in s <==> r in results && r.result.success
  {
    if results == [] then []
    else (if results[0].result.success then [results[0]] else []) + Successful(results[1..])
  }

  /** `executionResults.filter(r => !r.success)` */
  function Failed(results: seq<ExecResult>): (f: seq<ExecResult>)
    ensures forall r :: r in f <==> r in results && !r.result.success
  {
    if results == [] then []
    else (if results[0].result.success then [] else [results[0]]) + Failed(results[1..])
  }

  /** Every result is either successful or failed, and none is lost or repeated. */
  lemma {:induction false} SuccessFailPartition(results: seq<ExecResult>)
    ensures multiset(Successful(results)) + multiset(Failed(results)) == multiset(results)
    ensures |Successful(results)| + |Failed(results)| == |results|
  {
    if results != [] {
      SuccessFailPartition(results[1..]);
      assert results == [results[0]] + results[1..];
    }
  }

  /** `successful.map(r => r.message).filter(m => m)`, each as `join` shows it. */
  function ShownMessages(successful: seq<ExecResult>): seq<string> {
    if successful == [] then []
    else
      var m := successful[0].result.message;
      (if TruthyOpt(m) then [DisplayText(m.value)] else []) + ShownMessages(successful[1..])
  }

  /** `failed.map(f => f.error)` */
  function ErrorsOf(failed: seq<ExecResult>): seq<Option<string>> {
    seq(|failed|, k requires 0 <= k < |failed| => failed[k].result.error)
  }

  /** A pipeline answer, or the caught exception. */
  datatype Response =
    | Answer(message: string, actions: seq<ExecResult>, actionCount: nat, errors: Option<seq<Option<string>>>)
    | Apology(error: string)

  /** The text shown to the user with a caught exception. */
  function ApologyText(): string {
    "I'm sorry, I encountered an error processing your request. Could you try rephrasing that?"
  }

  function DefaultReply(): string {
    "I understand. How else can I help you?"
  }

  /** The message before `trim`: action messages, then the AI text, or the default. */
  function Draft(texts: seq<string>, anyFailed: bool, aiText: string): string {
    var head := if texts != [] then Lines(texts) + "\n\n" else "";
    if aiText != "" then head + aiText
    else if texts == [] && !anyFailed then DefaultReply()
    else head
  }

  /** `buildResponse`, with `aiText` the text appended for a truthy AI response ("" for none). */
  function Compose(results: seq<ExecResult>, aiText: string): (r: Response)
    ensures r.Answer? && r.actions == results
    ensures r.actionCount == |Successful(results)|
    ensures r.errors.None? <==> Failed(results) == []
    ensures r.errors.Some? ==>
              |r.errors.value| == |Failed(results)|
              && forall k :: 0 <= k < |Failed(results)| ==> r.errors.value[k] == Failed(results)[k].result.error
  {
    var successful := Successful(results);
    var failed := Failed(results);
    Answer(Trim(Draft(ShownMessages(successful), failed != [], aiText)), results, |successful|,
           if failed != [] then Some(ErrorsOf(failed)) else None)
  }

  /**
   * `buildResponse` as written: the AI response is the object `chat` returns,
   * so `message += aiResponse` appends "[object Object]".
   */
  function BuildResponseAsWritten(results: seq<ExecResult>, ai: Option<string>): (r: Response)
    ensures r.Answer? && r.actions == results
  {
    Compose(results, if ai.Some? then ObjectText else "")
  }

  /** `buildResponse` appending the reply's text, as evidently intended. */
  function BuildResponse(results: seq<ExecResult>, ai: Option<string>): (r: Response)
    ensures r.Answer? && r.actions == results
  {
    Compose(results, if ai.Some? then ai.value else "")
  }

  /** As written, any AI reply reaches the user as "[object Object]" (trimmed); the corrected form shows the reply. */
  lemma ReplyObjectShown(results: seq<ExecResult>, reply: string)
    requires ShownMessages(Successful(results)) == []
    ensures BuildResponseAsWritten(results, Some(reply)).message == Trim(ObjectText)
    ensures reply != "" ==> BuildResponse(results, Some(reply)).message == Trim(reply)
  {
    assert Draft([], Failed(results) != [], ObjectText) == ObjectText;
    if reply != "" {
      assert Draft([], Failed(results) != [], reply) == reply;
    }
  }

  /** "[object Object]" has nothing for `trim` to remove. */
  lemma ObjectTextTrimmed()
    ensures Trim(ObjectText) == ObjectText
  {
    TrimUnpadded(ObjectText);
  }

  /** With no action messages, no failures and no AI text the user gets the default reply. */
  lemma QuietTurnGetsDefault(results: seq<ExecResult>)
    requires ShownMessages(Successful(results)) == [] && Failed(results) == []
    ensures BuildResponse(results, None).message == DefaultReply()
  {
    TrimUnpadded(DefaultReply());
  }

  /** Failures alone leave the message empty: the default is not used once something failed. */
  lemma FailuresAloneGiveEmptyMessage(results: seq<ExecResult>, ai: Option<string>)
    requires ShownMessages(Successful(results)) == [] && Failed(results) != []
    requires ai.None? || ai == Some("")
    ensures BuildResponse(results, ai).message == ""
  {
  }

  /** Without action messages the message is the AI text, trimmed. */
  lemma ReplyAloneIsTrimmed(results: seq<ExecResult>, reply: string)
    requires ShownMessages(Successful(results)) == [] && reply != ""
    ensures BuildResponse(results, Some(reply)).message == Trim(reply)
  {
    assert Draft([], Failed(results) != [], reply) == reply;
  }

  /**
   * Action messages, one per line, then a blank line and the AI text; the
   * trim takes nothing away when the texts are not padded.
   */
  lemma ActionMessagesThenReply(results: seq<ExecResult>, reply: string)
    requires var texts := ShownMessages(Successful(results)); texts != [] && Unpadded(texts[0])
    requires Unpadded(reply)
    ensures BuildResponse(results, Some(reply)).message == Lines(ShownMessages(Successful(results))) + "\n\n" + reply
  {
    var texts := ShownMessages(Successful(results));
    var whole := Lines(texts) + "\n\n" + reply;
    JoinStarts(texts, "\n");
    assert whole[0] == texts[0][0];
    assert whole[|whole| - 1] == reply[|reply| - 1];
    TrimUnpadded(whole);
    assert Draft(texts, Failed(results) != [], reply) == whole;
  }

  /** Action messages without an AI text: the lines, trimmed, as the trailing blank line goes with the trim. */
  lemma ActionMessagesAlone(results: seq<ExecResult>)
    requires ShownMessages(Successful(results)) != []
    ensures BuildResponse(results, None).message == Trim(Lines(ShownMessages(Successful(results))))
  {
    TrimIgnoresTrailingSpaces(Lines(ShownMessages(Successful(results))), "\n\n");
  }

  // ---------------------------------------------------------------- processMessage

  /** What a turn receives from outside the program. */
  datatype Env = Env(
    now: string,                          // `new Date().toISOString()`, one instant for the whole turn
    today: string,                        // the date part the executor stores on expenses
    reply: Option<string>,                // the command model's reply text, None when the call failed
    decode: string -> Option<Json>,       // `JSON.parse`, None when it throws
    chat: ChatRequest -> Result<string>)  // the chat reply's text, or the message of the error it threw

  /** One entry of `recentActions`. */
  datatype RecentAction = RecentAction(action: Option<Json>, success: bool, message: Option<Json>)

  datatype SystemContext = SystemContext(
    recentActions: seq<RecentAction>, financialSummary: FinancialSummary, conversationHistory: seq<Message>)

  /**
   * The three arguments of `aiService.chat(userId, userMessage, systemContext)`,
   * in the order the manager passes them.
   */
  datatype ChatRequest = ChatRequest(userId: Option<int>, userMessage: string, systemContext: SystemContext)

  /** `getFinancialSnapshot(userId)`; `user_id = NULL` selects no rows. */
  function SnapshotFor(t: Tables, userId: Option<int>): Snapshot {
    if userId.Some? then FinancialSnapshot(t, userId.value) else Snapshot([], [], [], [], [])
  }

  /** `generateContextualResponse`: the request handed to the chat service. */
  function ContextualRequest(userId: Option<int>, userMessage: string, results: seq<ExecResult>,
                             data: Snapshot, context: Context): (q: ChatRequest)
    ensures |q.systemContext.recentActions| == |results|
    ensures forall i :: 0 <= i < |results| ==>
              q.systemContext.recentActions[i].success == results[i].result.success
  {
    ChatRequest(userId, userMessage, SystemContext(RecentActions(results), BuildFinancialSummary(data), LastFive(context.messages)))
  }

  /** `executionResults.map(r => ({ action, success, message }))` */
  function RecentActions(results: seq<ExecResult>): (a: seq<RecentAction>)
    ensures |a| == |results|
    ensures forall i :: 0 <= i < |results| ==>
              a[i] == RecentAction(results[i].result.action, results[i].result.success, results[i].result.message)
  {
    if results == [] then []
    else [RecentAction(results[0].result.action, results[0].result.success, results[0].result.message)]
         + RecentActions(results[1..])
  }

  /**
   * The request carries the user id and message as given, every executed
   * action with its success flag and message in execution order, the summary
   * of the financial data, and the last five messages of the context.
   */
  lemma ContextualRequestContents(userId: Option<int>, userMessage: string, results: seq<ExecResult>,
                                  data: Snapshot, context: Context)
    ensures var q := ContextualRequest(userId, userMessage, results, data, context);
            && q.userId == userId && q.userMessage == userMessage
            && |q.systemContext.recentActions| == |results|
            && (forall i :: 0 <= i < |results| ==>
                  q.systemContext.recentActions[i]
                  == RecentAction(results[i].result.action, results[i].result.success, results[i].result.message))
            && q.systemContext.financialSummary == BuildFinancialSummary(data)
            && |q.systemContext.conversationHistory| == (if |context.messages| < 5 then |context.messages| else 5)
            && q.systemContext.conversationHistory
               == context.messages[|context.messages| - |q.systemContext.conversationHistory|..]
  {
  }

  /** `executionResults.some(r => r.needsAIResponse) || commands.some(c => c.action === 'CONVERSATION')` */
  predicate NeedsAI(results: seq<ExecResult>, commands: seq<Command>) {
    (exists i :: 0 <= i < |results| && results[i].result.needsAIResponse)
    || (exists i :: 0 <= i < |commands| && commands[i].action == JStr("CONVERSATION"))
  }

  /** The outcome of one turn: the response, the conversations and the tables. */
  datatype Turn = Turn(response: Response, conversations: ContextMap, tables: Tables)

  /** The user's context once their message is pushed. */
  function Asked(conv: ContextMap, userId: Option<int>, userMessage: string, now: string): Context {
    var c := GetOrCreate(conv, userId, now)[userId];
    c.(messages := c.messages + [UserTurn(userMessage, now)])
  }

  function TurnCommands(userMessage: string, env: Env): seq<Command> {
    ParseCommands(userMessage, env.reply, env.decode)
  }

  /** The request a turn sends, when it sends one. */
  function TurnRequest(conv: ContextMap, userId: Option<int>, userMessage: string, env: Env,
                       results: seq<ExecResult>, t: Tables): ChatRequest {
    ContextualRequest(userId, userMessage, results, SnapshotFor(t, userId), Asked(conv, userId, userMessage, env.now))
  }

  /** The end of a turn that answers: the assistant's message is pushed and the activity time set. */
  function Answered(conv: ContextMap, userId: Option<int>, context: Context, response: Response, now: string, t: Tables): Turn
    requires response.Answer?
  {
    var done := context.(messages := context.messages + [AssistantTurn(response.message, response.actions, now)],
                         lastActivity := now);
    Turn(response, conv[userId := done], t)
  }

  /** `aiResponse`: none when no reply is needed, else the chat reply's text or the error the service threw. */
  function AiReply(conv: ContextMap, userId: Option<int>, userMessage: string, env: Env,
                   commands: seq<Command>, results: seq<ExecResult>, t: Tables): Result<Option<string>> {
    if !NeedsAI(results, commands) then Ok(None)
    else
      var reply := env.chat(TurnRequest(conv, userId, userMessage, env, results, t));
      if reply.Err? then Err(reply.error) else Ok(Some(reply.value))
  }

  /**
   * `processMessage` once the commands are parsed and executed: `executed`
   * is what `executeCommands` returned (or threw) and the tables after it.
   * An exception from the executor or the chat service ends the turn with an
   * apology, after the user's message was recorded.
   */
  function Finish(conv: ContextMap, userId: Option<int>, userMessage: string, env: Env,
                  commands: seq<Command>, executed: (Result<seq<ExecResult>>, Tables)): Turn {
    var asked := Asked(conv, userId, userMessage, env.now);
    var recorded := GetOrCreate(conv, userId, env.now)[userId := asked];
    if executed.0.Err? then Turn(Apology(executed.0.error), recorded, executed.1)
    else
      var ai := AiReply(conv, userId, userMessage, env, commands, executed.0.value, executed.1);
      if ai.Err? then Turn(Apology(ai.error), recorded, executed.1)
      else Answered(recorded, userId, asked, BuildResponse(executed.0.value, ai.value), env.now, executed.1)
  }

  /** `processMessage`: parse the message, execute the commands, then finish the turn. */
  function ProcessStep(conv: ContextMap, t: Tables, userId: Option<int>, userMessage: string, env: Env): Turn {
    var commands := TurnCommands(userMessage, env);
    Finish(conv, userId, userMessage, env, commands, ExecuteAllStep(t, commands, userId, env.today))
  }

  /** A turn is finished from whatever the executor returned for the parsed commands. */
  lemma ProcessStepFinishes(conv: ContextMap, t: Tables, userId: Option<int>, userMessage: string, env: Env,
                            executed: Result<seq<ExecResult>>, t': Tables)
    requires (executed, t') == ExecuteAllStep(t, TurnCommands(userMessage, env), userId, env.today)
    ensures ProcessStep(conv, t, userId, userMessage, env)
            == Finish(conv, userId, userMessage, env, TurnCommands(userMessage, env), (executed, t'))
    ensures ProcessStep(conv, t, userId, userMessage, env).tables == t'
  {
  }

  /** What a turn shows the user: the answer, or the fixed apology. */
  function ShownText(r: Response): string {
    if r.Answer? then r.message else ApologyText()
  }

  /** A turn ends in one of two shapes: an apology with only the user's message recorded, or an answer recorded after it. */
  lemma FinishShape(conv: ContextMap, userId: Option<int>, userMessage: string, env: Env,
                    commands: seq<Command>, executed: (Result<seq<ExecResult>>, Tables))
    ensures var turn := Finish(conv, userId, userMessage, env, commands, executed);
            var asked := Asked(conv, userId, userMessage, env.now);
            var recorded := GetOrCreate(conv, userId, env.now)[userId := asked];
            && (turn.response.Apology? ==> turn == Turn(turn.response, recorded, executed.1))
            && (turn.response.Answer? ==> turn == Answered(recorded, userId, asked, turn.response, env.now, executed.1))
  {
  }

  /**
   * A turn that answers appends exactly the user's message and then the
   * assistant's, and sets the activity time; the rest of the context stays.
   */
  lemma AnsweredTurnRecordsBoth(conv: ContextMap, userId: Option<int>, userMessage: string, env: Env,
                                commands: seq<Command>, executed: (Result<seq<ExecResult>>, Tables))
    ensures var turn := Finish(conv, userId, userMessage, env, commands, executed);
            var before := GetOrCreate(conv, userId, env.now)[userId];
            turn.response.Answer? ==>
              && userId in turn.conversations
              && turn.conversations[userId].messages
                 == History(conv, userId) + [UserTurn(userMessage, env.now),
                                             AssistantTurn(turn.response.message, turn.response.actions, env.now)]
              && turn.conversations[userId] == before.(messages := turn.conversations[userId].messages, lastActivity := env.now)
  {
    var turn := Finish(conv, userId, userMessage, env, commands, executed);
    if turn.response.Answer? {
      FinishShape(conv, userId, userMessage, env, commands, executed);
      var asked := Asked(conv, userId, userMessage, env.now);
      assert asked.messages == History(conv, userId) + [UserTurn(userMessage, env.now)];
      var done := turn.conversations[userId];
      assert done.messages == asked.messages + [AssistantTurn(turn.response.message, turn.response.actions, env.now)];
    }
  }

  /** A turn that fails keeps the user's message in the history and nothing more. */
  lemma FailedTurnKeepsUserMessage(conv: ContextMap, userId: Option<int>, userMessage: string, env: Env,
                                   commands: seq<Command>, executed: (Result<seq<ExecResult>>, Tables))
    ensures var turn := Finish(conv, userId, userMessage, env, commands, executed);
            var before := GetOrCreate(conv, userId, env.now)[userId];
            turn.response.Apology? ==>
              && ShownText(turn.response) == ApologyText()
              && userId in turn.conversations
              && turn.conversations[userId] == before.(messages := History(conv, userId) + [UserTurn(userMessage, env.now)])
  {
    FinishShape(conv, userId, userMessage, env, commands, executed);
  }

  /** A turn touches only its own user's context, and the tables are those the execution left. */
  lemma TurnLeavesOthers(conv: ContextMap, userId: Option<int>, userMessage: string, env: Env,
                         commands: seq<Command>, executed: (Result<seq<ExecResult>>, Tables))
    ensures var turn := Finish(conv, userId, userMessage, env, commands, executed);
            && turn.conversations.Keys == conv.Keys + {userId}
            && (forall u :: u in conv && u != userId ==> turn.conversations[u] == conv[u])
            && turn.tables == executed.1
  {
    FinishShape(conv, userId, userMessage, env, commands, executed);
  }

  /** An exception from the executor is the turn's error. */
  lemma ExecutorErrorApologises(conv: ContextMap, userId: Option<int>, userMessage: string, env: Env,
                                commands: seq<Command>, executed: (Result<seq<ExecResult>>, Tables))
    requires executed.0.Err?
    ensures Finish(conv, userId, userMessage, env, commands, executed).response == Apology(executed.0.error)
  {
  }

  /** When no AI reply is needed the chat service is not consulted: any other service gives the same turn. */
  lemma ChatOnlyWhenNeeded(conv: ContextMap, userId: Option<int>, userMessage: string, env: Env,
                           commands: seq<Command>, executed: (Result<seq<ExecResult>>, Tables),
                           other: ChatRequest -> Result<string>)
    requires executed.0.Ok? && !NeedsAI(executed.0.value, commands)
    ensures Finish(conv, userId, userMessage, env, commands, executed)
            == Finish(conv, userId, userMessage, env.(chat := other), commands, executed)
    ensures Finish(conv, userId, userMessage, env, commands, executed).response == BuildResponse(executed.0.value, None)
  {
    assert AiReply(conv, userId, userMessage, env, commands, executed.0.value, executed.1) == Ok(None);
    assert AiReply(conv, userId, userMessage, env.(chat := other), commands, executed.0.value, executed.1) == Ok(None);
  }

  /** A turn that executed and needs a reply apologises for the chat service's exception. */
  lemma ChatErrorApologises(conv: ContextMap, userId: Option<int>, userMessage: string, env: Env,
                            commands: seq<Command>, results: seq<ExecResult>, t: Tables, request: ChatRequest)
    requires NeedsAI(results, commands) && request == TurnRequest(conv, userId, userMessage, env, results, t)
    requires env.chat(request).Err?
    ensures Finish(conv, userId, userMessage, env, commands, (Ok(results), t)).response == Apology(env.chat(request).error)
  {
    FinishResponse(conv, userId, userMessage, env, commands, (Ok(results), t));
    AiReplyAsked(conv, userId, userMessage, env, commands, results, t, request);
  }

  /** A turn that executed and needs a reply composes the chat service's answer with the results. */
  lemma ChatAnswerComposed(conv: ContextMap, userId: Option<int>, userMessage: string, env: Env,
                           commands: seq<Command>, results: seq<ExecResult>, t: Tables, request: ChatRequest)
    requires NeedsAI(results, commands) && request == TurnRequest(conv, userId, userMessage, env, results, t)
    requires env.chat(request).Ok?
    ensures Finish(conv, userId, userMessage, env, commands, (Ok(results), t)).response
            == BuildResponse(results, Some(env.chat(request).value))
  {
    FinishResponse(conv, userId, userMessage, env, commands, (Ok(results), t));
    AiReplyAsked(conv, userId, userMessage, env, commands, results, t, request);
  }

  /** The response of a turn, apart from what is recorded. */
  lemma FinishResponse(conv: ContextMap, userId: Option<int>, userMessage: string, env: Env,
                       commands: seq<Command>, executed: (Result<seq<ExecResult>>, Tables))
    ensures var response := Finish(conv, userId, userMessage, env, commands, executed).response;
            if executed.0.Err? then response == Apology(executed.0.error)
            else
              var ai := AiReply(conv, userId, userMessage, env, commands, executed.0.value, executed.1);
              response == (if ai.Err? then Apology(ai.error) else BuildResponse(executed.0.value, ai.value))
  {
  }

  /** No AI reply is asked for when none is needed. */
  lemma AiReplyNotNeeded(conv: ContextMap, userId: Option<int>, userMessage: string, env: Env,
                         commands: seq<Command>, results: seq<ExecResult>, t: Tables)
    requires !NeedsAI(results, commands)
    ensures AiReply(conv, userId, userMessage, env, commands, results, t) == Ok(None)
  {
  }

  /** When a reply is needed it is the chat service's answer to the turn's request, or its error. */
  lemma AiReplyAsked(conv: ContextMap, userId: Option<int>, userMessage: string, env: Env,
                     commands: seq<Command>, results: seq<ExecResult>, t: Tables, request: ChatRequest)
    requires NeedsAI(results, commands) && request == TurnRequest(conv, userId, userMessage, env, results, t)
    ensures env.chat(request).Err? ==>
              AiReply(conv, userId, userMessage, env, commands, results, t) == Err(env.chat(request).error)
    ensures env.chat(request).Ok? ==>
              AiReply(conv, userId, userMessage, env, commands, results, t) == Ok(Some(env.chat(request).value))
  {
  }

  /** A turn apologises exactly when the executor threw, or a reply was needed and the chat service threw. */
  lemma ApologyIffThrown(conv: ContextMap, userId: Option<int>, userMessage: string, env: Env,
                         commands: seq<Command>, executed: (Result<seq<ExecResult>>, Tables))
    ensures Finish(conv, userId, userMessage, env, commands, executed).response.Apology?
            <==> (executed.0.Err?
                  || (NeedsAI(executed.0.value, commands)
                      && env.chat(TurnRequest(conv, userId, userMessage, env, executed.0.value, executed.1)).Err?))
  {
    FinishResponse(conv, userId, userMessage, env, commands, executed);
    if executed.0.Ok? {
      var results := executed.0.value;
      assert executed == (Ok(results), executed.1);
      if NeedsAI(results, commands) {
        var request := TurnRequest(conv, userId, userMessage, env, results, executed.1);
        if env.chat(request).Err? {
          ChatErrorApologises(conv, userId, userMessage, env, commands, results, executed.1, request);
        } else {
          ChatAnswerComposed(conv, userId, userMessage, env, commands, results, executed.1, request);
        }
      } else {
        AiReplyNotNeeded(conv, userId, userMessage, env, commands, results, executed.1);
      }
    }
  }

  /** The chat request's history is the last five messages and ends with the user's message of this turn. */
  lemma RequestEndsWithUserTurn(conv: ContextMap, userId: Option<int>, userMessage: string, env: Env,
                                results: seq<ExecResult>, t: Tables)
    ensures var history := TurnRequest(conv, userId, userMessage, env, results, t).systemContext.conversationHistory;
            && 1 <= |history| <= 5
            && history[|history| - 1] == UserTurn(userMessage, env.now)
            && (|History(conv, userId)| < 5 ==> history == History(conv, userId) + [UserTurn(userMessage, env.now)])
  {
    var asked := Asked(conv, userId, userMessage, env.now);
    assert asked.messages == History(conv, userId) + [UserTurn(userMessage, env.now)];
    assert TurnRequest(conv, userId, userMessage, env, results, t).systemContext.conversationHistory
           == LastFive(asked.messages);
  }

  /**
   * Commands without a usable user id: the executor throws before writing,
   * the turn apologises with that error and the tables are unchanged.
   */
  lemma MissingUserIdApologises(conv: ContextMap, t: Tables, userId: Option<int>, userMessage: string, env: Env)
    requires TurnCommands(userMessage, env) != [] && !UserIdGiven(userId)
    ensures ProcessStep(conv, t, userId, userMessage, env).response == Apology(UserIdRequired)
    ensures ProcessStep(conv, t, userId, userMessage, env).tables == t
  {
    var commands := TurnCommands(userMessage, env);
    ExecuteAllShape(t, commands, userId, env.today);
    ExecutorErrorApologises(conv, userId, userMessage, env, commands, ExecuteAllStep(t, commands, userId, env.today));
    TurnLeavesOthers(conv, userId, userMessage, env, commands, ExecuteAllStep(t, commands, userId, env.today));
  }

  // ---------------------------------------------------------------- guideNewUser / suggestNextActions

  datatype Guidance = NewUser(message: string) | ReturningUser

  /**
   * The welcome text, with the characters the source file holds. A manager
   * is built with this text (so that proofs about the manager never unfold it).
   */
  function WelcomeMessage(u: ()): string {
    "\U{00F0}\U{0178}\U{2018}\U{2039} Welcome! I'm your AI financial assistant. I can help you manage your budget, track expenses, plan for debt payoff, and reach your savings goals.\n\nTo get started, just tell me about your financial situation in your own words. For example:\n\U{00E2}\U{20AC}\U{00A2} \"I make $5000 per month from my job\"\n\U{00E2}\U{20AC}\U{00A2} \"My rent is $1500 and I spend about $400 on groceries\"\n\U{00E2}\U{20AC}\U{00A2} \"I have a credit card with $8000 balance at 18% interest\"\n\nWhat would you like to start with?"
  }

  /** The five suggestions, in the order the checks run. */
  datatype Suggestion = AddIncomeSources | TrackExpenses | PlanDebtPayoff | SetSavingsGoals | AnalyzeBudget

  /** The text each suggestion is sent as. */
  function SuggestionText(s: Suggestion): string {
    match s
    case AddIncomeSources => "Add your income sources"
    case TrackExpenses => "Track your expenses"
    case PlanDebtPayoff => "Generate a debt payoff plan"
    case SetSavingsGoals => "Set savings goals"
    case AnalyzeBudget => "Analyze your budget"
  }

  function Rank(s: Suggestion): nat {
    match s
    case AddIncomeSources => 0
    case TrackExpenses => 1
    case PlanDebtPayoff => 2
    case SetSavingsGoals => 3
    case AnalyzeBudget => 4
  }

  /** Each suggestion at most once, in the fixed order. */
  predicate InFixedOrder(s: seq<Suggestion>) {
    forall i, j :: 0 <= i < j < |s| ==> Rank(s[i]) < Rank(s[j])
  }

  /** The condition under which `suggestNextActions` pushes a suggestion. */
  predicate Wanted(data: Snapshot, s: Suggestion) {
    match s
    case AddIncomeSources => data.income == []
    case TrackExpenses => data.expenses == []
    case PlanDebtPayoff => data.debts != []
    case SetSavingsGoals => data.savings == []
    case AnalyzeBudget => data.income != [] && data.expenses != []
  }

  /** One check of `suggestNextActions`: the suggestion when its condition holds, else nothing. */
  function Offer(data: Snapshot, s: Suggestion): seq<Suggestion> {
    if Wanted(data, s) then [s] else []
  }

  /**
   * What `suggestNextActions` returns for a financial snapshot: the five
   * checks in order, each adding its suggestion when its condition holds.
   */
  function Suggestions(data: Snapshot): seq<Suggestion> {
    Offer(data, AddIncomeSources) + Offer(data, TrackExpenses) + Offer(data, PlanDebtPayoff)
      + Offer(data, SetSavingsGoals) + Offer(data, AnalyzeBudget)
  }

  /** A suggestion is made exactly when its condition holds. */
  lemma SuggestionsFollowData(data: Snapshot)
    ensures var r := Suggestions(data);
            && (AddIncomeSources in r <==> data.income == [])
            && (TrackExpenses in r <==> data.expenses == [])
            && (PlanDebtPayoff in r <==> data.debts != [])
            && (SetSavingsGoals in r <==> data.savings == [])
            && (AnalyzeBudget in r <==> data.income != [] && data.expenses != [])
  {
  }

  /** Each suggestion is made at most once, in the fixed order of the checks. */
  lemma SuggestionsInOrder(data: Snapshot)
    ensures InFixedOrder(Suggestions(data))
  {
  }

  /** An acknowledgement `{ success, message }`. */
  datatype Ack = Ack(success: bool, message: string)

  // ---------------------------------------------------------------- the manager object

  class ConversationManager {
    var conversations: ContextMap
    const executor: ActionExecutor
    /** The welcome text, WelcomeMessage(()) for the real manager. */
    const welcome: string

    constructor (executor: ActionExecutor, welcome: string)
      ensures this.executor == executor && this.welcome == welcome && conversations == map[]
    {
      this.executor := executor;
      this.welcome := welcome;
      conversations := map[];
    }

    method GetConversationContext(userId: Option<int>, now: string) returns (context: Context)
      modifies this
      ensures conversations == GetOrCreate(old(conversations), userId, now)
      ensures context == conversations[userId]
    {
      if userId !in conversations {
        conversations := conversations[userId := NewContext(userId, now)];
      }
      context := conversations[userId];
    }

    method ClearConversation(userId: Option<int>) returns (r: Ack)
      modifies this
      ensures conversations == old(conversations) - {userId}
      ensures r == Ack(true, "Conversation cleared")
    {
      conversations := conversations - {userId};
      r := Ack(true, "Conversation cleared");
    }

    method GetConversationHistory(userId: Option<int>) returns (messages: seq<Message>)
      ensures userId !in conversations ==> messages == []
      ensures userId in conversations ==> messages == conversations[userId].messages
    {
      messages := if userId in conversations then conversations[userId].messages else [];
    }

    /** `processMessage`: the turn ProcessStep describes, on the stored conversations and the database. */
    method ProcessMessage(userId: Option<int>, userMessage: string, env: Env) returns (response: Response)
      requires executor.db.Valid()
      modifies this, executor.db
      ensures executor.db.Valid()
      ensures var turn := ProcessStep(old(conversations), old(executor.db.Snapshot()), userId, userMessage, env);
              response == turn.response && conversations == turn.conversations && executor.db.Snapshot() == turn.tables
    {
      var conv := conversations;
      ghost var before := executor.db.Snapshot();
      var context := RecordUserMessage(userId, userMessage, env.now);
      var commands := TurnCommands(userMessage, env);
      var executed := executor.ExecuteCommands(commands, userId, env.today);
      ProcessStepFinishes(conv, before, userId, userMessage, env, executed, executor.db.Snapshot());
      response := Conclude(conv, userId, userMessage, env, commands, executed, context);
    }

    /** The start of `processMessage`: the user's context, created if need be, gets their message. */
    method RecordUserMessage(userId: Option<int>, userMessage: string, now: string) returns (context: Context)
      modifies this
      ensures context == Asked(old(conversations), userId, userMessage, now)
      ensures conversations == GetOrCreate(old(conversations), userId, now)[userId := context]
    {
      context := GetConversationContext(userId, now);
      context := context.(messages := context.messages + [UserTurn(userMessage, now)]);
      conversations := conversations[userId := context];
    }

    /** The rest of `processMessage` once the commands ran: ask the AI if needed, answer, record. */
    method Conclude(conv: ContextMap, userId: Option<int>, userMessage: string, env: Env,
                    commands: seq<Command>, executed: Result<seq<ExecResult>>, context: Context)
      returns (response: Response)
      requires context == Asked(conv, userId, userMessage, env.now)
      requires conversations == GetOrCreate(conv, userId, env.now)[userId := context]
      modifies this
      ensures var turn := Finish(conv, userId, userMessage, env, commands, (executed, executor.db.Snapshot()));
              response == turn.response && conversations == turn.conversations
    {
      ghost var t := executor.db.Snapshot();
      FinishShape(conv, userId, userMessage, env, commands, (executed, t));
      FinishResponse(conv, userId, userMessage, env, commands, (executed, t));
      if executed.Err? {
        return Apology(executed.error);
      }
      var results := executed.value;
      var ai := AskAi(conv, userId, userMessage, env, commands, results, context);
      if ai.Err? {
        return Apology(ai.error);
      }
      var aiText := ai.value;
      response := BuildResponse(results, aiText);
      var done := context.(messages := context.messages + [AssistantTurn(response.message, results, env.now)],
                           lastActivity := env.now);
      conversations := conversations[userId := done];
    }

    /** The AI step of `processMessage`: the chat service is called only when a reply is needed. */
    method AskAi(conv: ContextMap, userId: Option<int>, userMessage: string, env: Env,
                 commands: seq<Command>, results: seq<ExecResult>, context: Context)
      returns (ai: Result<Option<string>>)
      requires context == Asked(conv, userId, userMessage, env.now)
      ensures ai == AiReply(conv, userId, userMessage, env, commands, results, executor.db.Snapshot())
    {
      ghost var t := executor.db.Snapshot();
      if !NeedsAI(results, commands) {
        AiReplyNotNeeded(conv, userId, userMessage, env, commands, results, t);
        return Ok(None);
      }
      var financialData := SnapshotFor(executor.db.Snapshot(), userId);
      var request := ContextualRequest(userId, userMessage, results, financialData, context);
      assert request == TurnRequest(conv, userId, userMessage, env, results, t);
      AiReplyAsked(conv, userId, userMessage, env, commands, results, t, request);
      var reply := env.chat(request);
      if reply.Err? {
        return Err(reply.error);
      }
      return Ok(Some(reply.value));
    }

    /** `guideNewUser`: new exactly when the user has no income, no expenses and no debts. */
    method GuideNewUser(userId: Option<int>) returns (g: Guidance)
      ensures var data := SnapshotFor(executor.db.Snapshot(), userId);
              g.NewUser? <==> data.income == [] && data.expenses == [] && data.debts == []
      ensures g.NewUser? ==> g.message == welcome
    {
      var financialData := SnapshotFor(executor.db.Snapshot(), userId);
      var hasData := |financialData.income| > 0 || |financialData.expenses| > 0 || |financialData.debts| > 0;
      if !hasData {
        return NewUser(welcome);
      }
      return ReturningUser;
    }

    /** `suggestNextActions`: the suggestions for the user's current snapshot (see SuggestionsFollowData). */
    method SuggestNextActions(userId: Option<int>) returns (suggestions: seq<Suggestion>)
      ensures suggestions == Suggestions(SnapshotFor(executor.db.Snapshot(), userId))
    {
      var financialData := SnapshotFor(executor.db.Snapshot(), userId);
      suggestions := [];
      if |financialData.income| == 0 {
        suggestions := suggestions + [AddIncomeSources];
      }
      assert suggestions == Offer(financialData, AddIncomeSources);
      if |financialData.expenses| == 0 {
        suggestions := suggestions + [TrackExpenses];
      }
      assert suggestions == Offer(financialData, AddIncomeSources) + Offer(financialData, TrackExpenses);
      if |financialData.debts| > 0 {
        suggestions := suggestions + [PlanDebtPayoff];
      }
      assert suggestions == Offer(financialData, AddIncomeSources) + Offer(financialData, TrackExpenses)
        + Offer(financialData, PlanDebtPayoff);
      if |financialData.savings| == 0 {
        suggestions := suggestions + [SetSavingsGoals];
      }
      assert suggestions == Offer(financialData, AddIncomeSources) + Offer(financialData, TrackExpenses)
        + Offer(financialData, PlanDebtPayoff) + Offer(financialData, SetSavingsGoals);
      if |financialData.income| > 0 && |financialData.expenses| > 0 {
        suggestions := suggestions + [AnalyzeBudget];
      }
    }
  }
}
