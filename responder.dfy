/**
 * The assistant's canned-reply resolver: an ordered table of trigger phrases
 * and replies, searched in order for the first trigger contained in the
 * lower-cased message, with a templated fallback that quotes the message.
 */
module Responder {
  import opened Wrappers
  import opened Strings

  /** Trigger phrases paired with their replies, in the order they are searched. */
  type Table = seq<(string, string)>

  const AnalyzeSpendingReply: string :=
    "Based on your recent transactions, here\'s what I found:\n" +
    "\n" +
    "\U{1F4CA} **Spending Breakdown:**\n" +
    "\U{2022} Food & Groceries: $2,500 (29%)\n" +
    "\U{2022} Transportation: $1,200 (14%)\n" +
    "\U{2022} Entertainment: $800 (9%)\n" +
    "\U{2022} Shopping: $1,500 (18%)\n" +
    "\U{2022} Utilities: $600 (7%)\n" +
    "\U{2022} Others: $2,000 (23%)\n" +
    "\n" +
    "\U{1F4A1} **Key Insight:** Your entertainment spending increased by 19% compared to last month. Consider setting a monthly limit to stay on track!"

  const SaveMoreReply: string :=
    "Here are personalized savings tips based on your spending patterns:\n" +
    "\n" +
    "\U{1F3AF} **Top 3 Recommendations:**\n" +
    "\n" +
    "1. **Cut Entertainment Costs** - You spent $800 this month. Try free alternatives like parks or home movie nights to save ~$300/month.\n" +
    "\n" +
    "2. **Meal Planning** - Your food expenses are $2,500. Planning meals could reduce this by 20%, saving you $500/month.\n" +
    "\n" +
    "3. **Transportation Hack** - Consider carpooling or public transit 2x per week to save ~$200/month.\n" +
    "\n" +
    "\U{1F4B0} **Potential Monthly Savings: $1,000!**"

  const ReviewExpensesReply: string :=
    "\U{1F4CB} **Recent Expense Review:**\n" +
    "\n" +
    "| Category | Amount | Status |\n" +
    "|----------|--------|--------|\n" +
    "| Gift | $3,000 | \U{26A0}\U{FE0F} High |\n" +
    "| Petrol | $4,977 | \U{26A0}\U{FE0F} Over budget |\n" +
    "| Fruits | $100 | \U{2705} Normal |\n" +
    "| Cloths | $8,000 | \U{1F534} Very High |\n" +
    "\n" +
    "\U{1F6A8} **Alert:** Clothing expenses are unusually high this month. Was this a planned purchase?\n" +
    "\n" +
    "Would you like me to help you create a budget plan to balance these expenses?"

  const BudgetTipsReply: string :=
    "\U{1F4A1} **Smart Budget Tips:**\n" +
    "\n" +
    "1. **50/30/20 Rule** - Allocate 50% to needs, 30% to wants, 20% to savings.\n" +
    "\n" +
    "2. **Envelope Method** - Set cash limits for categories like entertainment and shopping.\n" +
    "\n" +
    "3. **No-Spend Days** - Try 2-3 no-spend days per week to boost savings.\n" +
    "\n" +
    "4. **Automate Savings** - Set up automatic transfers to your savings account on payday.\n" +
    "\n" +
    "5. **Track Everything** - Use this app daily to monitor all expenses!\n" +
    "\n" +
    "Would you like me to create a personalized budget based on your income of $61,000?"

  /** The reply table, in insertion order. */
  const BotResponses: Table := [
    ("analyze my spending", AnalyzeSpendingReply),
    ("how can i save more", SaveMoreReply),
    ("review my expenses", ReviewExpensesReply),
    ("budget tips", BudgetTipsReply)
  ]

  /** The preset phrases behind the quick-prompt buttons. */
  const QuickPrompts: seq<string> := [
    "Analyze my spending",
    "How can I save more?",
    "Review my expenses",
    "Budget tips"
  ]

  /** The fallback text before the quoted message. */
  const FallbackLead: string := "I understand you\'re asking about "

  /** The fallback text after the quoted message. */
  const FallbackTail: string :=
    ". \n" +
    "\n" +
    "Based on your financial data:\n" +
    "\U{2022} Total Balance: $47,923\n" +
    "\U{2022} Total Income: $61,000\n" +
    "\U{2022} Total Expenses: $13,077\n" +
    "\n" +
    "How can I help you better manage your finances? You can ask me to:\n" +
    "- Analyze your spending patterns\n" +
    "- Suggest ways to save money\n" +
    "- Review specific expense categories\n" +
    "- Provide budget recommendations"

  /** The reply when no trigger matches, with the original message interpolated between quotes. */
  function Fallback(message: string): string {
    FallbackLead + "\"" + message + "\"" + FallbackTail
  }

  /** The index of the first entry whose trigger `lower` contains, if any. */
  function FirstMatch(table: Table, lower: string): (r: Option<nat>)
    ensures r.Some? ==> r.value < |table| && Includes(lower, table[r.value].0)
    ensures r.Some? ==> forall j :: 0 <= j < r.value ==> !Includes(lower, table[j].0)
    ensures r.None? ==> forall j :: 0 <= j < |table| ==> !Includes(lower, table[j].0)
  {
    if table == [] then None
    else if Includes(lower, table[0].0) then Some(0)
    else
      assert forall j :: 0 < j < |table| ==> table[1..][j - 1] == table[j];
      match FirstMatch(table[1..], lower)
      case None => None
      case Some(i) => Some(i + 1)
  }

  /**
   * `getBotResponse(message)` over a reply table, as a value: the reply of the
   * first entry whose trigger the lower-cased message contains, or the fallback.
   */
  function Reply(table: Table, message: string): string {
    match FirstMatch(table, ToLower(message))
    case Some(i) => table[i].1
    case None => Fallback(message)
  }

  /** The assistant's answer to `message`: the resolver over the page's own table. */
  function BotResponse(message: string): string {
    Reply(BotResponses, message)
  }

  /**
   * `getBotResponse(message)`, as the source runs it: a scan of the table in
   * order with an early return, then the fallback.
   */
  method GetBotResponse(table: Table, message: string) returns (reply: string)
    ensures reply == Reply(table, message)
  {
    var lowerMessage := ToLower(message);
    var i := 0;
    while i < |table|
      invariant 0 <= i <= |table|
      invariant forall j :: 0 <= j < i ==> !Includes(lowerMessage, table[j].0)
    {
      var (key, response) := table[i];
      if Includes(lowerMessage, key) {
        return response;
      }
      i := i + 1;
    }
    return Fallback(message);
  }

  // ---------------------------------------------------------------------
  // Properties of the resolver, for any table
  // ---------------------------------------------------------------------

  /** Some trigger of the table is contained in the lower-cased message. */
  predicate AnyTrigger(table: Table, message: string) {
    exists j :: 0 <= j < |table| && Includes(ToLower(message), table[j].0)
  }

  /** The earliest matching trigger decides the reply, whatever later triggers also match. */
  lemma FirstMatchWins(table: Table, message: string, i: nat)
    requires i < |table| && Includes(ToLower(message), table[i].0)
    requires forall j :: 0 <= j < i ==> !Includes(ToLower(message), table[j].0)
    ensures FirstMatch(table, ToLower(message)) == Some(i)
    ensures Reply(table, message) == table[i].1
  {
  }

  /** With no trigger in the lower-cased message the reply is the fallback for the original message. */
  lemma NoMatchGivesFallback(table: Table, message: string)
    requires !AnyTrigger(table, message)
    ensures Reply(table, message) == Fallback(message)
  {
  }

  /** A matching trigger means a table reply; otherwise the fallback. */
  lemma MatchDecidesReplyKind(table: Table, message: string)
    ensures AnyTrigger(table, message) ==> exists i :: 0 <= i < |table| && Reply(table, message) == table[i].1
    ensures !AnyTrigger(table, message) ==> Reply(table, message) == Fallback(message)
  {
    var r := FirstMatch(table, ToLower(message));
    if r.Some? {
      assert AnyTrigger(table, message);
    } else {
      NoMatchGivesFallback(table, message);
    }
  }

  /** When a trigger matches, the reply depends only on the lower-cased message. */
  lemma MatchIgnoresCase(table: Table, a: string, b: string)
    requires ToLower(a) == ToLower(b)
    requires AnyTrigger(table, a)
    ensures Reply(table, a) == Reply(table, b)
  {
  }

  /** A message shorter than every trigger gets the fallback. */
  lemma ShortMessageGivesFallback(table: Table, message: string)
    requires forall j :: 0 <= j < |table| ==> |message| < |table[j].0|
    ensures !AnyTrigger(table, message)
    ensures Reply(table, message) == Fallback(message)
  {
    assert |ToLower(message)| == |message|;
    NoMatchGivesFallback(table, message);
  }

  /** Where each part of `lead + "\"" + message + "\"" + tail` lies. */
  lemma QuotedLayout(lead: string, message: string, tail: string)
    ensures var r := lead + "\"" + message + "\"" + tail;
      && |r| == |lead| + |message| + 2 + |tail|
      && r[..|lead|] == lead
      && r[|lead| .. |lead| + |message| + 2] == ['"'] + message + ['"']
      && r[|lead| + |message| + 2..] == tail
  {
    var quoted := ['"'] + message + ['"'];
    assert lead + "\"" + message + "\"" + tail == lead + quoted + tail;
  }

  /** The fallback quotes the original message verbatim, right after its lead text. */
  lemma FallbackQuotesMessage(message: string)
    ensures var r := Fallback(message);
      && |r| == |FallbackLead| + |message| + 2 + |FallbackTail|
      && r[..|FallbackLead|] == FallbackLead
      && r[|FallbackLead| .. |FallbackLead| + |message| + 2] == ['"'] + message + ['"']
      && r[|FallbackLead| + |message| + 2..] == FallbackTail
  {
    QuotedLayout(FallbackLead, message, FallbackTail);
  }

  // ---------------------------------------------------------------------
  // Properties of the page's own table
  // ---------------------------------------------------------------------

  lemma AnalyzeSpendingReplyLength() ensures |AnalyzeSpendingReply| == 384 {}
  lemma SaveMoreReplyLength() ensures |SaveMoreReply| == 495 {}
  lemma ReviewExpensesReplyLength() ensures |ReviewExpensesReply| == 390 {}
  lemma BudgetTipsReplyLength() ensures |BudgetTipsReply| == 508 {}

  /** The page's table: four triggers, each at least eleven characters, with four different replies. */
  lemma TableShape()
    ensures |BotResponses| == 4
    ensures forall j :: 0 <= j < |BotResponses| ==> |BotResponses[j].0| >= 11 && BotResponses[j].1 != []
    ensures forall i, k :: 0 <= i < k < |BotResponses| ==> BotResponses[i].1 != BotResponses[k].1
  {
    AnalyzeSpendingReplyLength();
    SaveMoreReplyLength();
    ReviewExpensesReplyLength();
    BudgetTipsReplyLength();
  }

  /** A trigger that matches after an earlier matching one is never answered. */
  lemma LaterMatchNeverChosen(message: string, i: nat, k: nat)
    requires i < k < |BotResponses|
    requires Includes(ToLower(message), BotResponses[i].0)
    requires forall j :: 0 <= j < i ==> !Includes(ToLower(message), BotResponses[j].0)
    requires Includes(ToLower(message), BotResponses[k].0)
    ensures BotResponse(message) != BotResponses[k].1
  {
    FirstMatchWins(BotResponses, message, i);
    TableShape();
  }

  /** The assistant's reply is one of the table's replies or the fallback for the message, and never empty. */
  lemma ResponseIsReplyOrFallback(message: string)
    ensures var r := BotResponse(message);
      && ((exists i :: 0 <= i < |BotResponses| && r == BotResponses[i].1) || r == Fallback(message))
      && r != []
  {
    MatchDecidesReplyKind(BotResponses, message);
    TableShape();
    assert |Fallback(message)| >= |FallbackLead|;
  }

  /** A message shorter than eleven characters, the empty one included, gets the fallback quoting it. */
  lemma ShortMessagesGetFallback(message: string)
    requires |message| < 11
    ensures !AnyTrigger(BotResponses, message)
    ensures BotResponse(message) == Fallback(message)
  {
    TableShape();
    ShortMessageGivesFallback(BotResponses, message);
  }
}
