/**
 * The resolver on concrete messages: the quick prompts, a shouted message
 * and a trigger inside a longer sentence. Each fact about a literal string
 * is its own small lemma: proved in one context they exhaust the solver.
 */
module ResponderExamples {
  import opened Wrappers
  import opened Strings
  import opened Responder

  /** A table with the page's four triggers, in the page's order. */
  predicate HasPageTriggers(table: Table) {
    && |table| == 4
    && table[0].0 == "analyze my spending"
    && table[1].0 == "how can i save more"
    && table[2].0 == "review my expenses"
    && table[3].0 == "budget tips"
  }

  lemma PageTableTriggers()
    ensures HasPageTriggers(BotResponses)
  {}

  // ---------------------------------------------------------------------
  // Lower-casing the literals
  // ---------------------------------------------------------------------

  // Each literal message is lower-cased piece by piece: a `Lower*` lemma per
  // word of at most a few characters (`Caps` marks the all-capitals spelling),
  // a `Split*` lemma that cuts the message into those words, and
  // `ToLowerAppend` to join the results. Unfolding `ToLower` over a whole
  // message at once is beyond the solver's budget.

  lemma LowerAnalyze() ensures ToLower("Analyze") == "analyze" {}
  lemma LowerMy() ensures ToLower(" my") == " my" { ToLowerOfLower(" my"); }
  lemma LowerAnalyzeCaps() ensures ToLower("ANALYZE") == "analyze" {}
  lemma LowerMyCaps() ensures ToLower(" MY") == " my" {}
  lemma LowerBudget() ensures ToLower("Budget") == "budget" {}
  lemma LowerTips() ensures ToLower(" tips") == " tips" { ToLowerOfLower(" tips"); }
  lemma LowerSpendingCaps() ensures ToLower(" SPENDING") == " spending" {}
  lemma LowerHowCan() ensures ToLower("How can") == "how can" {}
  lemma LowerCapitalI() ensures ToLower(" I") == " i" {}
  lemma LowerReview() ensures ToLower("Review") == "review" {}
  lemma LowerSpending() ensures ToLower(" spending") == " spending" { ToLowerOfLower(" spending"); }
  lemma LowerSaveMore() ensures ToLower(" save more?") == " save more?" { ToLowerOfLower(" save more?"); }
  lemma LowerExpenses() ensures ToLower(" expenses") == " expenses" { ToLowerOfLower(" expenses"); }

  lemma SplitAnalyze()
    ensures "Analyze my spending" == "Analyze" + " my" + " spending"
    ensures "analyze my spending" == "analyze" + " my" + " spending"
  {}

  lemma SplitAnalyzeCaps()
    ensures "ANALYZE MY SPENDING" == "ANALYZE" + " MY" + " SPENDING"
  {}

  lemma SplitBudget()
    ensures "Budget tips" == "Budget" + " tips"
    ensures "budget tips" == "budget" + " tips"
  {}

  lemma SplitSaveMore()
    ensures "How can I save more?" == "How can" + " I" + " save more?"
    ensures "how can i save more?" == "how can" + " i" + " save more?"
  {}

  lemma SplitReview()
    ensures "Review my expenses" == "Review" + " my" + " expenses"
    ensures "review my expenses" == "review" + " my" + " expenses"
  {}

  lemma SplitSentence()
    ensures "please review my expenses now" == "please " + "review my expenses" + " now"
  {}

  lemma LowerAnalyzePrompt()
    ensures ToLower("Analyze my spending") == "analyze my spending"
  {
    LowerAnalyze();
    LowerMy();
    LowerSpending();
    SplitAnalyze();
    ToLowerAppend("Analyze", " my");
    ToLowerAppend("Analyze" + " my", " spending");
  }

  lemma LowerAnalyzePromptCaps()
    ensures ToLower("ANALYZE MY SPENDING") == "analyze my spending"
  {
    LowerAnalyzeCaps();
    LowerMyCaps();
    LowerSpendingCaps();
    SplitAnalyze();
    SplitAnalyzeCaps();
    ToLowerAppend("ANALYZE", " MY");
    ToLowerAppend("ANALYZE" + " MY", " SPENDING");
  }

  lemma LowerAnalyzeTrigger()
    ensures ToLower("analyze my spending") == "analyze my spending"
  {
    ToLowerOfLower("analyze my spending");
  }

  lemma LowerSaveMorePrompt()
    ensures ToLower("How can I save more?") == "how can i save more?"
  {
    LowerHowCan();
    LowerCapitalI();
    LowerSaveMore();
    SplitSaveMore();
    ToLowerAppend("How can", " I");
    ToLowerAppend("How can" + " I", " save more?");
  }

  lemma LowerReviewPrompt()
    ensures ToLower("Review my expenses") == "review my expenses"
  {
    LowerReview();
    LowerMy();
    LowerExpenses();
    SplitReview();
    ToLowerAppend("Review", " my");
    ToLowerAppend("Review" + " my", " expenses");
  }

  lemma LowerBudgetPrompt()
    ensures ToLower("Budget tips") == "budget tips"
  {
    LowerBudget();
    LowerTips();
    SplitBudget();
    ToLowerAppend("Budget", " tips");
  }

  lemma LowerSentence()
    ensures ToLower("please review my expenses now") == "please review my expenses now"
  {
    ToLowerOfLower("please review my expenses now");
  }

  // ---------------------------------------------------------------------
  // Which triggers the lower-cased literals include
  // ---------------------------------------------------------------------

  lemma AnalyzeIncludesOwnTrigger()
    ensures Includes("analyze my spending", "analyze my spending")
  {
    assert OccursAt("analyze my spending", "analyze my spending", 0);
  }

  lemma SaveMoreIncludesOwnTrigger()
    ensures Includes("how can i save more?", "how can i save more")
  {
    assert OccursAt("how can i save more?", "how can i save more", 0);
  }

  lemma ReviewIncludesOwnTrigger()
    ensures Includes("review my expenses", "review my expenses")
  {
    assert OccursAt("review my expenses", "review my expenses", 0);
  }

  lemma BudgetIncludesOwnTrigger()
    ensures Includes("budget tips", "budget tips")
  {
    assert OccursAt("budget tips", "budget tips", 0);
  }

  lemma SentenceIncludesReview()
    ensures Includes("please review my expenses now", "review my expenses")
  {
    SplitSentence();
    IncludesMiddle("please ", "review my expenses", " now");
  }

  lemma SplitOverlap()
    ensures "budget tips for my analyze my spending trip" == "budget tips for my " + "analyze my spending" + " trip"
  {}

  /** The message starts with the fourth trigger and also contains the first. */
  lemma OverlapIncludesBoth()
    ensures Includes("budget tips for my analyze my spending trip", "budget tips")
    ensures Includes("budget tips for my analyze my spending trip", "analyze my spending")
  {
    assert OccursAt("budget tips for my analyze my spending trip", "budget tips", 0);
    SplitOverlap();
    IncludesMiddle("budget tips for my ", "analyze my spending", " trip");
  }

  /** Without a 'z' nothing includes "analyze my spending". */
  lemma NoAnalyzeTrigger(lower: string)
    requires 'z' !in lower
    ensures !Includes(lower, "analyze my spending")
  {
    MissingCharNotIncluded(lower, "analyze my spending", 5);
  }

  /** Without an 'h' nothing includes "how can i save more". */
  lemma NoSaveMoreTrigger(lower: string)
    requires 'h' !in lower
    ensures !Includes(lower, "how can i save more")
  {
    MissingCharNotIncluded(lower, "how can i save more", 0);
  }

  /** Without an 'r' nothing includes "review my expenses". */
  lemma NoReviewTrigger(lower: string)
    requires 'r' !in lower
    ensures !Includes(lower, "review my expenses")
  {
    MissingCharNotIncluded(lower, "review my expenses", 0);
  }

  lemma SaveMoreLacksEarlierTriggers()
    ensures !Includes("how can i save more?", "analyze my spending")
  {
    NoAnalyzeTrigger("how can i save more?");
  }

  lemma ReviewLacksEarlierTriggers()
    ensures !Includes("review my expenses", "analyze my spending")
    ensures !Includes("review my expenses", "how can i save more")
  {
    NoAnalyzeTrigger("review my expenses");
    NoSaveMoreTrigger("review my expenses");
  }

  lemma BudgetLacksEarlierTriggers()
    ensures !Includes("budget tips", "analyze my spending")
    ensures !Includes("budget tips", "how can i save more")
    ensures !Includes("budget tips", "review my expenses")
  {
    NoAnalyzeTrigger("budget tips");
    NoSaveMoreTrigger("budget tips");
    NoReviewTrigger("budget tips");
  }

  lemma SentenceLacksEarlierTriggers()
    ensures !Includes("please review my expenses now", "analyze my spending")
    ensures !Includes("please review my expenses now", "how can i save more")
  {
    NoAnalyzeTrigger("please review my expenses now");
    NoSaveMoreTrigger("please review my expenses now");
  }

  // ---------------------------------------------------------------------
  // Replies
  // ---------------------------------------------------------------------

  // The replies are proved for any table with the page's triggers and any
  // message with the given lower-case form: a literal message in the same
  // proof as the page's reply texts exhausts the solver.

  /** Whatever lower-cases to "analyze my spending" is answered by the first entry. */
  lemma AnalyzeAnswer(table: Table, m: string)
    requires HasPageTriggers(table)
    requires ToLower(m) == "analyze my spending"
    ensures FirstMatch(table, ToLower(m)) == Some(0)
    ensures Reply(table, m) == table[0].1
  {
    AnalyzeIncludesOwnTrigger();
    FirstMatchWins(table, m, 0);
  }

  /** Whatever lower-cases to "how can i save more?" is answered by the second entry. */
  lemma SaveMoreAnswer(table: Table, m: string)
    requires HasPageTriggers(table)
    requires ToLower(m) == "how can i save more?"
    ensures FirstMatch(table, ToLower(m)) == Some(1)
    ensures Reply(table, m) == table[1].1
  {
    SaveMoreIncludesOwnTrigger();
    SaveMoreLacksEarlierTriggers();
    FirstMatchWins(table, m, 1);
  }

  /** Whatever lower-cases to "review my expenses" is answered by the third entry. */
  lemma ReviewAnswer(table: Table, m: string)
    requires HasPageTriggers(table)
    requires ToLower(m) == "review my expenses"
    ensures FirstMatch(table, ToLower(m)) == Some(2)
    ensures Reply(table, m) == table[2].1
  {
    ReviewIncludesOwnTrigger();
    ReviewLacksEarlierTriggers();
    FirstMatchWins(table, m, 2);
  }

  /** Whatever lower-cases to "budget tips" is answered by the fourth entry. */
  lemma BudgetAnswer(table: Table, m: string)
    requires HasPageTriggers(table)
    requires ToLower(m) == "budget tips"
    ensures FirstMatch(table, ToLower(m)) == Some(3)
    ensures Reply(table, m) == table[3].1
  {
    BudgetIncludesOwnTrigger();
    BudgetLacksEarlierTriggers();
    FirstMatchWins(table, m, 3);
  }

  /** Whatever lower-cases to "please review my expenses now" is answered by the third entry. */
  lemma SentenceAnswer(table: Table, m: string)
    requires HasPageTriggers(table)
    requires ToLower(m) == "please review my expenses now"
    ensures Reply(table, m) == table[2].1
  {
    SentenceIncludesReview();
    SentenceLacksEarlierTriggers();
    FirstMatchWins(table, m, 2);
  }

  /**
   * Whatever lower-cases to "budget tips for my analyze my spending trip" holds
   * two triggers and gets the reply of the earlier table entry, although the
   * later entry's trigger comes first in the message.
   */
  lemma EarlierEntryWinsOverlap(table: Table, m: string)
    requires HasPageTriggers(table)
    requires ToLower(m) == "budget tips for my analyze my spending trip"
    ensures Includes(ToLower(m), table[3].0)
    ensures Reply(table, m) == table[0].1
  {
    OverlapIncludesBoth();
    FirstMatchWins(table, m, 0);
  }

  /** Each quick prompt lower-cases to a message that contains its own trigger first. */
  lemma QuickPromptAnswer(table: Table, i: nat)
    requires HasPageTriggers(table) && i < |QuickPrompts|
    ensures FirstMatch(table, ToLower(QuickPrompts[i])) == Some(i)
    ensures Reply(table, QuickPrompts[i]) == table[i].1
  {
    if i == 0 {
      assert QuickPrompts[0] == "Analyze my spending";
      LowerAnalyzePrompt();
      AnalyzeAnswer(table, QuickPrompts[0]);
    } else if i == 1 {
      assert QuickPrompts[1] == "How can I save more?";
      LowerSaveMorePrompt();
      SaveMoreAnswer(table, QuickPrompts[1]);
    } else if i == 2 {
      assert QuickPrompts[2] == "Review my expenses";
      LowerReviewPrompt();
      ReviewAnswer(table, QuickPrompts[2]);
    } else {
      assert QuickPrompts[3] == "Budget tips";
      LowerBudgetPrompt();
      BudgetAnswer(table, QuickPrompts[3]);
    }
  }

  /** Every quick prompt is answered by the page's table entry at its own position, never by the fallback. */
  lemma QuickPromptResolves(i: nat)
    requires i < |QuickPrompts|
    ensures i < |BotResponses| && FirstMatch(BotResponses, ToLower(QuickPrompts[i])) == Some(i)
    ensures BotResponse(QuickPrompts[i]) == BotResponses[i].1
  {
    PageTableTriggers();
    QuickPromptAnswer(BotResponses, i);
  }

  /** The same words in capitals get the same reply. */
  lemma ShoutedMessageSameReply(table: Table)
    requires HasPageTriggers(table)
    ensures Reply(table, "ANALYZE MY SPENDING") == Reply(table, "analyze my spending") == table[0].1
  {
    LowerAnalyzePromptCaps();
    AnalyzeAnswer(table, "ANALYZE MY SPENDING");
    LowerAnalyzeTrigger();
    AnalyzeAnswer(table, "analyze my spending");
  }

  /** A trigger inside a longer sentence still selects its reply. */
  lemma TriggerInsideSentence(table: Table)
    requires HasPageTriggers(table)
    ensures Reply(table, "please review my expenses now") == table[2].1
  {
    LowerSentence();
    SentenceAnswer(table, "please review my expenses now");
  }
}
