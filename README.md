# Smart Expense Companion: the scripted financial assistant

The assistant page of Smart Expense Companion answers chat messages with canned
replies. This project models that page's logic and proves properties of the model:

- **The canned-reply resolver, `getBotResponse`.** It lower-cases the message and
  walks the `botResponses` table of (trigger phrase, reply) pairs in insertion
  order. The reply of the first trigger the lower-cased message contains wins.
  When no trigger matches, the result is a fallback text that quotes the
  original message and lists the fixed balance, income and expense totals.
- **The quick-prompt phrases** behind the four buttons above the input box.
- **The chat session.** It holds the message log, the input box and the typing
  indicator. The log starts with the greeting.
  - `handleSend` takes the explicit text, or the input box when the text is
    absent or empty.
  - It ignores text that `trim()` reduces to nothing.
  - Otherwise it appends the user's message with id `length + 1`, clears the
    input and raises the typing indicator.
  - After a delay it appends the bot's reply with id `length + 2` and lowers
    the indicator.

Modules:

- `Wrappers` holds `Option`, which stands for JavaScript's optional argument.
- `Strings` holds the three JavaScript string operations the page uses:
  - `toLowerCase`, restricted to ASCII;
  - `includes`;
  - `trim`, with ECMAScript's WhiteSpace and LineTerminator characters.
- `Responder` holds:
  - the reply table and the quick prompts;
  - the resolver, once as the function `Reply` and once as the scanning method
    `GetBotResponse`;
  - its properties, proved for any table and for the page's own table.
- `ResponderExamples` resolves concrete messages: the quick prompts, a shouted
  message, a trigger inside a sentence, and a message that holds two triggers.
- `Chat` holds the `Session` class. `handleSend` is split into the two steps it
  performs: `Send` runs at once and `DeliverReply` runs when the timer fires.
  `Send` returns `None` when the chosen text is blank. Otherwise it returns
  `Some` of a `PendingReply`, which holds what the timer's closure captures:
  the log length at the moment of sending and the text sent.
  `HandleSend` runs both steps back to back.

The resolver is a Dafny function, so it is deterministic and free of side
effects by construction.

## Model

| member | source | states |
|---|---|---|
| Strings.ToLower | src/pages/Assistant.tsx:87 | `toLowerCase` keeps the length and maps every character on its own (ASCII capitals to lower case, everything else unchanged) |
| Strings.ToLowerAppend | src/pages/Assistant.tsx:87 | lower-casing a concatenation lower-cases each piece |
| Strings.ToLowerIdempotent | src/pages/Assistant.tsx:87 | lower-casing twice is the same as lower-casing once |
| Strings.ToLowerOfLower | src/pages/Assistant.tsx:87 | a string without capitals is its own lower-case form, as every trigger phrase is |
| Strings.Includes | src/pages/Assistant.tsx:90 | `includes`: defined as an occurrence of the phrase at some position of the message; properties in IncludesMiddle and MissingCharNotIncluded |
| Strings.IncludesMiddle | src/pages/Assistant.tsx:90 | `includes` finds any string written inside another |
| Strings.MissingCharNotIncluded | src/pages/Assistant.tsx:90 | `includes` fails when one character of the searched phrase occurs nowhere in the message |
| Strings.TrimStart | src/pages/Assistant.tsx:138 | the result is a suffix of the input that does not start with white space; everything dropped is white space |
| Strings.TrimEnd | src/pages/Assistant.tsx:138 | the result is a prefix of the input that does not end with white space; everything dropped is white space |
| Strings.Trim | src/pages/Assistant.tsx:138 | `trim()`: defined as TrimStart then TrimEnd; properties in TrimEmptyIff and TrimNonBlankStart |
| Strings.TrimEmptyIff | src/pages/Assistant.tsx:138 | `trim()` gives the empty string exactly when every character is white space (both directions) |
| Strings.TrimNonBlankStart | src/pages/Assistant.tsx:138 | a text that starts with a character other than white space survives `trim()` |
| Responder.FirstMatch | src/pages/Assistant.tsx:89-93 | the index found is the first entry whose trigger the message contains; none of the earlier entries matches; no index means that no entry matches |
| Responder.Fallback | src/pages/Assistant.tsx:95-106 | the fallback template: lead text, the message between double quotes, the tail with the fixed totals; layout proved in FallbackQuotesMessage |
| Responder.Reply | src/pages/Assistant.tsx:86-107 | the value of `getBotResponse` over a table: defined through FirstMatch on the lower-cased message, else the fallback; properties in FirstMatchWins, NoMatchGivesFallback, MatchDecidesReplyKind, MatchIgnoresCase, ShortMessageGivesFallback |
| Responder.BotResponse | src/pages/Assistant.tsx:86-107 | `getBotResponse` with the page's own table: Reply over BotResponses; properties in LaterMatchNeverChosen, ResponseIsReplyOrFallback, ShortMessagesGetFallback and the examples |
| Responder.GetBotResponse | src/pages/Assistant.tsx:86-107 | the ordered scan with its early return gives exactly the resolver's value `Reply(table, message)` |
| Responder.FirstMatchWins | src/pages/Assistant.tsx:87-91 | when entry `i` matches and no earlier entry does, the match found is entry `i` and the reply is entry `i`'s reply, whatever later entries also match |
| Responder.NoMatchGivesFallback | src/pages/Assistant.tsx:89-95 | when no trigger occurs in the lower-cased message, the reply is the fallback for the original message |
| Responder.MatchDecidesReplyKind | src/pages/Assistant.tsx:86-107 | a matching trigger means the reply is one of the table's replies; no match means the fallback |
| Responder.MatchIgnoresCase | src/pages/Assistant.tsx:87-90 | when a trigger matches, two messages with the same lower-case form get the same reply |
| Responder.ShortMessageGivesFallback | src/pages/Assistant.tsx:89-95 | a message shorter than every trigger matches none and gets the fallback |
| Responder.QuotedLayout | src/pages/Assistant.tsx:95 | where the lead text, the quoted message and the tail lie in an interpolated text |
| Responder.FallbackQuotesMessage | src/pages/Assistant.tsx:95-106 | the fallback is the lead text, then the original message verbatim between double quotes, then the fixed tail with the totals |
| Responder.AnalyzeSpendingReplyLength | src/pages/Assistant.tsx:34-44 | the "analyze my spending" reply has 384 Unicode scalar values (386 UTF-16 code units in JavaScript) |
| Responder.SaveMoreReplyLength | src/pages/Assistant.tsx:46-56 | the "how can i save more" reply has 495 Unicode scalar values (497 UTF-16 code units in JavaScript) |
| Responder.ReviewExpensesReplyLength | src/pages/Assistant.tsx:58-69 | the "review my expenses" reply has 390 Unicode scalar values (393 UTF-16 code units in JavaScript) |
| Responder.BudgetTipsReplyLength | src/pages/Assistant.tsx:71-83 | the "budget tips" reply has 508 Unicode scalar values (509 UTF-16 code units in JavaScript) |
| Responder.TableShape | src/pages/Assistant.tsx:33-84 | the page's table has four entries; every trigger has at least 11 characters; every reply is non-empty; no two replies are equal |
| Responder.LaterMatchNeverChosen | src/pages/Assistant.tsx:87-91 | with the page's table, a matching trigger after an earlier matching one never provides the reply |
| Responder.ResponseIsReplyOrFallback | src/pages/Assistant.tsx:86-107 | the assistant's answer is one of the table's replies or the fallback for the message, and is never empty |
| Responder.ShortMessagesGetFallback | src/pages/Assistant.tsx:33-95 | a message shorter than 11 characters, the empty message included, matches no trigger of the page's table and gets the fallback |
| ResponderExamples.PageTableTriggers | src/pages/Assistant.tsx:33-84 | the page's table holds the four triggers in the source's order |
| ResponderExamples.AnalyzeAnswer | src/pages/Assistant.tsx:34 | a message that lower-cases to "analyze my spending" matches the first entry and gets its reply |
| ResponderExamples.SaveMoreAnswer | src/pages/Assistant.tsx:46 | a message that lower-cases to "how can i save more?" matches the second entry and gets its reply |
| ResponderExamples.ReviewAnswer | src/pages/Assistant.tsx:58 | a message that lower-cases to "review my expenses" matches the third entry and gets its reply |
| ResponderExamples.BudgetAnswer | src/pages/Assistant.tsx:71 | a message that lower-cases to "budget tips" matches the fourth entry and gets its reply |
| ResponderExamples.SentenceAnswer | src/pages/Assistant.tsx:87-91 | a message that lower-cases to "please review my expenses now" gets the third entry's reply, because the trigger occurs inside it |
| ResponderExamples.EarlierEntryWinsOverlap | src/pages/Assistant.tsx:87-91 | "budget tips for my analyze my spending trip" contains the fourth trigger, which comes first in the message, but gets the first entry's reply |
| ResponderExamples.QuickPromptAnswer | src/pages/Assistant.tsx:26-31 | for a table with the page's triggers, quick prompt `i` matches entry `i` (so not the fallback branch) and gets entry `i`'s reply |
| ResponderExamples.QuickPromptResolves | src/pages/Assistant.tsx:26-31 | every quick prompt matches the page's table entry at its own position, never reaching the fallback branch, and gets that entry's reply |
| ResponderExamples.ShoutedMessageSameReply | src/pages/Assistant.tsx:87-90 | "ANALYZE MY SPENDING" and "analyze my spending" get the same reply, the first entry's |
| ResponderExamples.TriggerInsideSentence | src/pages/Assistant.tsx:90 | "please review my expenses now" gets the third entry's reply |
| Chat.ChosenText | src/pages/Assistant.tsx:137 | the explicit text or else the input box: defined as the explicit text when present and non-empty, else the input box; cases stated in ChosenTextCases |
| Chat.ChosenTextCases | src/pages/Assistant.tsx:137 | the explicit text or else the input box: any non-empty explicit text, blank or not, is used as given (so its blankness decides the send); an absent or empty text falls back to the input box |
| Chat.QuickPromptsNotBlank | src/pages/Assistant.tsx:276 | clicking a quick prompt chooses that prompt whatever the input box holds, and the prompt is never blank, so the send goes ahead |
| Chat.AppendKeepsIds | src/pages/Assistant.tsx:140-147 | appending a message whose id is the log length plus one keeps entry `i`'s id equal to `i + 1` |
| Chat.Session.constructor | src/pages/Assistant.tsx:110-127 | the log is the greeting alone with id 1; the input is empty; the typing indicator is off |
| Chat.Session.SetInput | src/pages/Assistant.tsx:286 | the input box takes the typed value and nothing else changes |
| Chat.Session.Send | src/pages/Assistant.tsx:136-149 | blank chosen text changes nothing and schedules no reply. Otherwise the user's message with id `length + 1` and the exact text is appended, the input is cleared, the typing indicator is raised, and the reply is scheduled with the captured length and text. Sequential ids are preserved |
| Chat.Session.DeliverReply | src/pages/Assistant.tsx:152-161 | the bot's message with id `captured length + 2` and content `getBotResponse(text)` is appended, earlier messages are kept, the indicator is lowered, and ids stay sequential when nothing came in between |
| Chat.Session.HandleSend | src/pages/Assistant.tsx:136-162 | blank chosen text leaves the state unchanged. Otherwise exactly two messages are appended, the user's (`length + 1`) and the bot's reply to it (`length + 2`), with the input cleared and the indicator off |

## Left out

- `toLowerCase` is modelled for ASCII capitals only. JavaScript also lower-cases non-ASCII letters. Every trigger phrase is lower-case ASCII, so this changes a match only for a message whose non-ASCII capitals would lower-case into ASCII letters.
- Strings are sequences of Unicode scalar values, not UTF-16 code units. `includes` and `trim` do not depend on the difference for these triggers and white space.
- The reply bodies, the fallback's tail and the greeting are constants copied from the page. Apart from their lengths and the fallback's layout, no property is proved about their content.
- The 1500 ms `setTimeout` is modelled as `DeliverReply`, a separate step the environment runs later. `HandleSend` runs it at once.
- Overlapping sends are not modelled as such. Both ids come from the `messages` value captured when the send starts. The quick-prompt buttons and the Enter key do not check the typing indicator. So a second send before the first reply arrives gives duplicate ids. In the model this shows as `DeliverReply` keeping sequential ids only when the log grew by exactly one message since its `Send`.
- Chat.Session.Send: the id is computed from the current log. In the page it comes from the render-time `messages`, which can lag behind `prev` only in the overlapping case above.
- Chat.Session.HandleSend: does not restate that ids stay sequential. That follows from the contracts of `Send` and `DeliverReply`.
- Message timestamps (`new Date()`) and their locale formatting are clock and locale I/O. The `timestamp` field is dropped.
- The scroll effect, the Send button's `disabled` state, the Enter/Shift key test and all JSX rendering are presentation. The model handles blank input through `handleSend`'s own guard.
- src/pages/Predictions.tsx is not part of this model. It holds static arrays rendered as charts, plus floating-point display arithmetic.
- src/pages/Index.tsx is not part of this model. It holds hardcoded transactions and totals that nothing computes.
- src/components/layout/Sidebar.tsx is not part of this model. It is a static navigation list, and link highlighting is left to the router library.
