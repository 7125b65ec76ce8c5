# Smart Budget Planner in Dafny

A model of the budget store of Smart Budget Planner, a Next.js budgeting
application, together with proofs about it. One `BudgetData` record holds
the deposit, the list of expenses and the amount left unallocated. The views
of the application replace this record as a whole on every change.

- **Allocation engine** (`deposits.dfy`): setting the deposit, proportional
  allocation, greedy allocation in priority order, and clearing allocations.
  Greedy allocation is an array loop proved against a left fold (`Greedy`).
  That fold is also given a closed form: each expense gets
  `min(planned, max(0, deposit − plans before it))`.
- **Expense list and classifier** (`itinerary.dfy`): adding, removing and
  recording actual spending, each as a function from the old record to the
  new one. `determineAIPriority` becomes a substring classifier over the six
  keyword tables of the source.
- **Analytics** (`insights.dfy`, `dashboard.dfy`, `budget_chart.dfy`):
  - totals, the utilization and efficiency percentages, and the three filters;
  - the per-category rollup, a loop over the expenses that fills a map;
  - the recommendation list, built by five pushes in a fixed order;
  - the greeting, progress bars and budget-health line of the Dashboard;
  - the pie-chart slices.
- **Session** (`page.dfy`, `login.dfy`): the page state (signed-in user,
  active view, record) and the login screen (the in-memory user database
  with its signup checks). Both are classes whose methods update their fields.
- **BudgetBot** (`chat_bot.dfy`, `bot_texts.dfy`): the first-match keyword
  chain that picks a reply, and the conversation that grows by two messages
  per send.
- **Shared modules**:
  - `budget.dfy`: the types of `app/page.tsx` and the sums and filters;
  - `priority_order.dfy`: the stable sort by rank;
  - `text.dfy`: lower-casing, `includes` and `trim`;
  - `wrappers.dfy`: `Option` and `Result`.

Amounts are exact reals. Text that JavaScript parses with `parseFloat` is
an `Option<real>`, and `None` (not a number) counts as 0. The clock, fresh ids
and the random tip index are parameters.

Points where the code's behaviour is easy to misread:
- The sort by priority is the stable `Array.prototype.sort` of ES2019, so ties
  keep their list order. `StableSortIsUnique` shows that `ByPriority` is the
  only stable result.
- Nothing keeps amounts non-negative: a negative deposit, plan or actual amount
  is accepted as entered. Properties that need non-negative plans state that
  as a precondition.
- The medium keyword tables are never consulted, and the keyword tables
  overlap by substring: "barber" contains the discretionary keyword "bar".
- The Dashboard tests the deposit with `=== 0` but computes its percentage only
  for a positive deposit. A negative deposit therefore reports an amount
  remaining to allocate.

## Model

| member | source | states |
|---|---|---|
| Text.Lower | components/itinerary.tsx:21-22 | same length; each ASCII capital becomes its lower-case letter and every other character is kept |
| Text.LowerIsIdempotent | components/chat-bot.tsx:46 | the lower-cased text has no capital letter, and lower-casing it again changes nothing |
| Text.ContainsIsOccurrence | components/itinerary.tsx:148-158 | `s.includes(w)` holds exactly when `w` equals the slice of `s` at some position |
| Text.ContainsAnyIsSome | components/itinerary.tsx:148-158 | `words.some((w) => s.includes(w))` holds exactly when some word of the table occurs in `s` |
| Text.TrimStart | components/chat-bot.tsx:74 | the result is a suffix of the input, does not start with whitespace, and only whitespace was dropped |
| Text.TrimEnd | components/chat-bot.tsx:74 | the result is a prefix of the input, does not end with whitespace, and only whitespace was dropped |
| Text.TrimIsEmptyIffBlank | components/chat-bot.tsx:74 | the trimmed input is empty exactly when every character is whitespace |
| Budget.Total | components/insights.tsx:13-15 | the `reduce` sum of one amount over the list, left to right from 0; no contract of its own, its meaning is stated by `TotalAppend`, `TotalChangeAt` and `TotalSplitsBySelect` |
| Budget.TotalAppend | components/insights.tsx:13-15 | the sum over two lists joined is the sum of their sums |
| Budget.TotalChangeAt | components/itinerary.tsx:221 | changing the amount at one position changes the total by exactly the difference |
| Budget.Select | components/insights.tsx:20-24 | a filter keeps exactly the expenses that pass, and never lengthens the list |
| Budget.TotalSplitsBySelect | components/budget-chart.tsx:13-14 | a filter and its complement split every total in two |
| PriorityOrder.OfPriority | components/deposits.tsx:56-57 | a priority group holds exactly the expenses of that priority |
| PriorityOrder.ByPriority | components/deposits.tsx:55-57 | the stable sort by descending rank, as the high, medium and low groups joined; no contract of its own, its meaning is stated by `ByPriorityIsSorted`, `ByPriorityIsPermutation`, `ByPriorityIsStable` and `StableSortIsUnique` |
| PriorityOrder.ByPriorityIsSorted | components/deposits.tsx:56-57 | after the sort, ranks never increase along the list (high 3, medium 2, low 1) |
| PriorityOrder.ByPriorityIsPermutation | components/deposits.tsx:53-57 | the sort keeps every expense, as a multiset, and the length |
| PriorityOrder.ByPriorityIsStable | components/deposits.tsx:57 | within each priority, the sorted list keeps the original order |
| PriorityOrder.StableSortIsUnique | components/deposits.tsx:57 | any list that is sorted by rank and has the same priority groups is `ByPriority`, so it is what a stable sort returns |
| PriorityOrder.DisplaySort | components/dashboard.tsx:21-24 | the display copy is sorted by rank, is a permutation, and keeps each group's order (the same sort as the expense list of components/itinerary.tsx:176-179) |
| Deposits.UpdateDeposit | components/deposits.tsx:21-28 | stores the coerced amount, keeps the expenses, and leaves remaining = deposit − allocated total |
| Deposits.Proportional | components/deposits.tsx:37-40 | every expense gets planned / planned total × deposit, and nothing else changes |
| Deposits.ProportionalTotal | components/deposits.tsx:37-40 | the proportional shares add up to planned sum / planned total × deposit |
| Deposits.ProportionalRatiosAgree | components/deposits.tsx:39 | every expense with a non-zero plan gets the same fraction of it, deposit / planned total |
| Deposits.AllocateProportionally | components/deposits.tsx:30-47 | a no-op when the deposit or the planned total is 0; otherwise only allocations change, each is proportional to its plan, they add up to the deposit, and remaining is 0 |
| Deposits.ProportionalIsIdempotent | components/deposits.tsx:30-47 | allocating proportionally twice gives what allocating once gives |
| Deposits.ClearThenProportional | components/deposits.tsx:30-47 | when the allocation acts, clearing first makes no difference |
| Deposits.ClearThenProportionalAtZeroDeposit | components/deposits.tsx:31 | with a zero deposit the early return keeps stale allocations, so clearing first does differ |
| Deposits.ProportionalExample | components/deposits.tsx:37-40 | a deposit of 300 over plans of 100 and 300 gives 75 and 225 |
| Deposits.Step | components/deposits.tsx:61-67 | one pass of the `forEach` body: the funded list grows by exactly one expense and the earlier ones are untouched; its arithmetic is stated by `StepConserves` and `GreedyClosedForm` |
| Deposits.StepConserves | components/deposits.tsx:61-67 | one funding step keeps allocated total + remaining unchanged |
| Deposits.Greedy | components/deposits.tsx:60-68 | the `forEach` as a left fold of `Step` from the whole deposit, one funded expense per input; its meaning is stated by `GreedyConserves`, `GreedyClosedForm`, `GreedyWithinPlan`, `GreedyCutOff` and `GreedyFundsAllIffAffordable` |
| Deposits.GreedyKeepsExpenses | components/deposits.tsx:60-68 | the loop changes only allocations and keeps the order |
| Deposits.GreedyConserves | components/deposits.tsx:52-68 | allocated total + final remaining = deposit, for any amounts |
| Deposits.FundInOrder | components/deposits.tsx:52-68 | the array loop with its running remainder computes the fold `Greedy` of the sorted list |
| Deposits.AllocateByPriority | components/deposits.tsx:49-75 | a no-op at a zero deposit; otherwise the record holds the sorted list as funded by the loop, and its remainder |
| Deposits.ClearAllocations | components/deposits.tsx:77-88 | every allocation becomes 0, nothing else changes, remaining = deposit, and the record is balanced |
| Deposits.GreedyRemaining | components/deposits.tsx:60-68 | with a non-negative deposit and plans, the final remainder is max(0, deposit − planned total) |
| Deposits.GreedyPrefixes | components/deposits.tsx:60-68 | funding a prefix gives the prefix of the funded list: later expenses never change earlier ones |
| Deposits.GreedyClosedForm | components/deposits.tsx:60-68 | expense i gets min(plan i, max(0, deposit − plans before i)), a formula independent of the loop |
| Deposits.GreedyWithinPlan | components/deposits.tsx:60-68 | 0 ≤ allocated ≤ planned for each expense, remaining ≥ 0, allocated total ≤ deposit |
| Deposits.GreedyCutOff | components/deposits.tsx:61-67 | once an expense is funded below its plan, every later expense gets 0 and nothing remains |
| Deposits.GreedyFundsAllIffAffordable | components/deposits.tsx:61-67 | every expense is fully funded exactly when deposit ≥ planned total, and then remaining = deposit − planned total |
| Deposits.PriorityAllocationOrder | components/deposits.tsx:53-73 | the stored list is a stable permutation of the old one, sorted by rank, with only allocations changed, and the record is balanced |
| Deposits.PriorityAllocationBounds | components/deposits.tsx:52-68 | with a positive deposit and non-negative plans, each allocation lies in [0, plan], remaining ≥ 0, total ≤ deposit |
| Deposits.PriorityAllocationExample | components/deposits.tsx:49-75 | deposit 1000, low dining 500 listed before high rent 600: rent is funded 600 first, dining gets the 400 left |
| Itinerary.DetermineAIPriority | components/itinerary.tsx:20-165 | `determineAIPriority`; no contract of its own, its meaning is stated by `ClassifierMeaning` and `ClassifierIgnoresCase` |
| Itinerary.ClassifierMeaning | components/itinerary.tsx:20-165 | high exactly when an essential word occurs in the lower-cased name or category; low exactly when none does but a discretionary one does; medium otherwise |
| Itinerary.ClassifierIgnoresCase | components/itinerary.tsx:21-22 | the classifier gives the same answer for the lower-cased texts |
| Itinerary.RentIsHigh | components/itinerary.tsx:148-153 | "Rent" / "Housing" is high |
| Itinerary.MovieTicketsIsLow | components/itinerary.tsx:156-161 | "Movie tickets" / "Entertainment" is low |
| Itinerary.NetflixIsMedium | components/itinerary.tsx:163-164 | "Netflix" / "Subscriptions" is medium, although "netflix" is a medium keyword that is never consulted |
| Itinerary.WidgetIsMedium | components/itinerary.tsx:163-164 | "Widget" with no category is medium |
| Itinerary.BarberIsLow | components/itinerary.tsx:72-127 | "Barber" contains the medium keyword "barber", but the discretionary "bar" occurs in it, so it is low |
| Itinerary.AddExpense | components/itinerary.tsx:182-201 | a no-op without a name or amount; otherwise appends one expense (category "Other" when empty, classified from the raw texts, nothing allocated or spent) and keeps the rest |
| Itinerary.AddExpenseTotals | components/itinerary.tsx:187-201 | adding raises the planned total by the plan, keeps the allocated total and the balance, and keeps ids distinct under a fresh id |
| Itinerary.RemoveExpense | components/itinerary.tsx:211-216 | keeps exactly the expenses with another id, in order, and nothing else changes |
| Itinerary.AddThenRemove | components/itinerary.tsx:182-216 | adding under a fresh id and removing that id gives back the record |
| Itinerary.RemoveExpenseTotals | components/itinerary.tsx:211-216 | totals split between what stays and what goes; a balanced record stays balanced exactly when nothing was allocated to the removed expenses |
| Itinerary.RemoveExpenseIsIdempotent | components/itinerary.tsx:211-216 | removing an id twice is removing it once |
| Itinerary.UpdateExpenseActual | components/itinerary.tsx:218-223 | expenses with the id get the coerced actual amount; every other field and expense is kept |
| Itinerary.UpdateExpenseActualKeepsPlan | components/itinerary.tsx:218-223 | planned and allocated totals and the balance are unchanged, and the last amount recorded wins |
| Itinerary.UpdateExpenseActualTotal | components/itinerary.tsx:218-223 | with distinct ids, the actual total changes by new − old amount |
| Insights.Utilization | components/insights.tsx:17 | 0 for a non-positive deposit; otherwise utilization × deposit = allocated total × 100 |
| Insights.Efficiency | components/insights.tsx:18 | 0 for a non-positive allocated total; otherwise efficiency × allocated = actual × 100 |
| Insights.UtilizationAgainstDeposit | components/insights.tsx:17 | with a positive deposit, utilization is under, over or at 100 exactly when allocated is under, over or at the deposit |
| Insights.OverBudget | components/insights.tsx:20 | keeps exactly the expenses with actual > allocated |
| Insights.UnderBudget | components/insights.tsx:21-23 | keeps exactly the expenses with 0 < actual < allocated |
| Insights.FullyFunded | components/insights.tsx:24 | keeps exactly the expenses with allocated ≥ planned |
| Insights.OverAndUnderAreDisjoint | components/insights.tsx:20-23 | no expense is both over and under budget, and together they never outnumber the list |
| Insights.Categories | components/insights.tsx:26-37 | the keys of `categoryBreakdown` in order of first appearance; no contract of its own, its meaning is stated by `CategoriesMeaning` |
| Insights.CategoriesMeaning | components/insights.tsx:26-37 | the rollup has one entry for each category that occurs and for no other, each once |
| Insights.Rollup | components/insights.tsx:26-37 | the planned, allocated and actual sums of one category; no contract of its own, `CategoryBreakdown` proves the loop's map entries equal it and `RollupAddsUp` that it adds up to the totals |
| Insights.CategoryBreakdown | components/insights.tsx:26-37 | the loop's map has a key exactly for each category, holding that category's planned, allocated and actual sums |
| Insights.RollupAddsUp | components/insights.tsx:26-37 | for each amount, the per-category sums add up to the overall total |
| Insights.Underfunded | components/insights.tsx:69-71 | keeps exactly the high expenses allocated less than planned |
| Insights.Names | components/insights.tsx:64 | the names of the listed expenses, in order |
| Insights.Recommendations | components/insights.tsx:39-91 | `generateRecommendations` as the five checks in order; no contract of its own, its meaning is stated by `RecommendationsMeaning` and `FiresMeaning` |
| Insights.RecommendationsMeaning | components/insights.tsx:39-91 | the kinds come in check order, each at most once; a kind is present exactly when its check holds; each entry carries its check's figures |
| Insights.FiresMeaning | components/insights.tsx:42-79 | overspending fires exactly when some expense is over budget; underfunding exactly when some high expense has allocated < planned; under- and over-allocation never fire together |
| Insights.GenerateRecommendations | components/insights.tsx:39-91 | the five conditional pushes build the list above |
| Insights.ZeroDepositIsUnderutilized | components/insights.tsx:42-49 | with a zero deposit, the list opens with "Underutilized Budget" at 100% unallocated |
| Insights.ProportionalUsesWholeDeposit | components/insights.tsx:42-58 | after proportional allocation of a positive deposit, utilization is 100 and neither allocation warning fires |
| Insights.PriorityNeverOverAllocates | components/insights.tsx:51-58 | after priority allocation of a positive deposit, utilization ≤ 100 and "Over Budget" never fires |
| Dashboard.Greeting | components/dashboard.tsx:26-31 | "Good Morning" exactly when hour < 12, "Good Afternoon" exactly when 12 ≤ hour < 17, "Good Evening" otherwise |
| Dashboard.DisplayName | components/dashboard.tsx:42 | the signed-in name when there is a non-empty one, otherwise "User" |
| Dashboard.Progress | components/dashboard.tsx:131 | 0 for a non-positive plan; otherwise progress × plan = allocated × 100 |
| Dashboard.ProgressMeaning | components/dashboard.tsx:131 | with a positive plan, the bar is full exactly when fully funded, empty exactly when nothing is allocated, and within [0, 100] when allocated is within [0, plan] |
| Dashboard.PriorityAllocationProgress | components/dashboard.tsx:131 | after priority allocation every bar with a positive plan lies within [0, 100] |
| Dashboard.BudgetHealth | components/dashboard.tsx:187-193 | the budget-health line; no contract of its own, its meaning is stated by `HealthMeaning` |
| Dashboard.HealthMeaning | components/dashboard.tsx:187-193 | start prompt exactly at a zero deposit; with a positive one, a positive remainder, a positive excess or "fully allocated" exactly as allocated is under, over or at the deposit; a negative deposit reports a remainder |
| Dashboard.ProportionalIsFullyAllocated | components/dashboard.tsx:187-193 | after proportional allocation of a positive deposit the line reads fully allocated |
| BudgetChart.Funded | components/budget-chart.tsx:13-14 | keeps exactly the expenses with a positive allocation |
| BudgetChart.ChartData | components/budget-chart.tsx:13-19 | `chartData`; no contract of its own, its meaning is stated by `ChartDataMeaning`, `ColorsCycle` and `PieIsWholeAllocation` |
| BudgetChart.ChartDataMeaning | components/budget-chart.tsx:13-19 | one slice per funded expense, in order, with its name and allocation; every value is positive; every funded expense has its slice |
| BudgetChart.ColorsCycle | components/budget-chart.tsx:10-18 | slice colours repeat with period six and neighbouring slices never share one |
| BudgetChart.Render | components/budget-chart.tsx:21-23 | the placeholder exactly when there are no slices, otherwise a pie of the slices |
| BudgetChart.PlaceholderIffNothingFunded | components/budget-chart.tsx:21-23 | the placeholder shows exactly when no expense has a positive allocation |
| BudgetChart.PieIsWholeAllocation | components/budget-chart.tsx:13-19 | with no negative allocation, the slices add up to the allocated total |
| Login.First | components/login.tsx:41 | `find`: the first position that matches, or none exactly when nothing matches |
| Login.ValidateLogin | components/login.tsx:40-43 | `validateLogin`, a `find` on both fields; no contract of its own, its meaning is stated by `ValidateLoginMeaning` |
| Login.ValidateLoginMeaning | components/login.tsx:40-43 | a user is found exactly when some account has both the email and the password, and the one found is such an account |
| Login.FindByEmail | components/login.tsx:85 | the existing-email lookup of `handleSignup`; no contract of its own, its meaning is stated by `FindByEmailIsUnique` and `DemoIsFound` |
| Login.FindByEmailIsUnique | components/login.tsx:85 | with distinct emails, the account found under an email is the one registered with it |
| Login.LoginOutcome | components/login.tsx:45-63 | the missing-credentials error exactly when a field is empty; the invalid error exactly when no account matches; otherwise the matching account's name and email |
| Login.SignupCheck | components/login.tsx:69-89 | the four signup checks in order; no contract of its own, its meaning is stated by `SignupCheckMeaning` |
| Login.SignupCheckMeaning | components/login.tsx:69-89 | each error holds exactly when its check is the first to fail, and signup passes exactly when all four checks pass |
| Login.SignupKeepsEmailsDistinct | components/login.tsx:85-96 | a successful signup keeps emails distinct |
| Login.SignupThenLogin | components/login.tsx:92-101 | after a successful signup the new credentials log in as the new account |
| Login.SeedHasDistinctEmails | components/login.tsx:18-23 | the seeded accounts have distinct emails |
| Login.DemoIsFound | components/login.tsx:104-105 | while the seed stays at the front, the demo email finds the demo account |
| Login.LoginScreen.constructor | components/login.tsx:18-38 | the database starts as the seed, with both error lines empty |
| Login.LoginScreen.Remount | components/login.tsx:18-38 | mounting the screen again, after a logout (app/page.tsx:86-88), keeps the module-level database and starts both error lines empty |
| Login.LoginScreen.HandleLogin | components/login.tsx:45-63 | signs in exactly on a valid outcome, with the error cleared; otherwise sets that error's message; the database is unchanged |
| Login.LoginScreen.HandleSignup | components/login.tsx:65-102 | on a failed check sets its message and leaves the database; on success appends one account and signs it in; distinct emails are kept |
| Login.LoginScreen.HandleDemoLogin | components/login.tsx:104-111 | always signs in "Demo User" with the demo email |
| Login.ErrorClearedAfterRemount | components/login.tsx:37-63 | a failed login's error does not survive signing in and remounting the screen (as a logout does): after the remount both error lines are empty and the accounts are kept |
| Page.RenderActiveView | app/page.tsx:66-83 | `renderActiveView`; no contract of its own, its meaning is stated by `RenderActiveViewMeaning` |
| Page.RenderActiveViewMeaning | app/page.tsx:66-83 | every view is rendered from its own id, and any other id renders the dashboard |
| Page.ScreenOf | app/page.tsx:86-88 | the login screen exactly when nobody is signed in, whatever the view; otherwise the active view |
| Page.Session.constructor | app/page.tsx:33-42 | nobody signed in, the dashboard selected, the record {0, [], 0}, and the login screen shown |
| Page.Session.HandleLogin | app/page.tsx:44-46 | sets the user and keeps the record and the view |
| Page.Session.HandleLogout | app/page.tsx:48-56 | clears the user, resets the record to {0, [], 0}, selects the dashboard, shows the login screen |
| Page.Session.HandleContactClick | app/page.tsx:58-60 | selects the contact view, and a signed-in user sees it |
| Page.Session.SetActiveView | app/page.tsx:34 | changes the view alone |
| Page.Session.SetBudgetData | app/page.tsx:71-73 | replaces the record alone |
| Page.LogoutThenLogin | app/page.tsx:44-56 | logging out and in again starts from the empty record on the dashboard |
| ChatBot.Respond | components/chat-bot.tsx:48-70 | the first-match chain of `generateBotResponse` on the lower-cased message; no contract of its own, its meaning is stated by `RespondMeaning` |
| ChatBot.RespondMeaning | components/chat-bot.tsx:48-70 | the answer is topic t exactly when t is mentioned and no earlier topic is; it is the tip exactly when no topic is mentioned |
| ChatBot.GenerateBotResponse | components/chat-bot.tsx:45-71 | `generateBotResponse`; no contract of its own, its meaning is stated by `GenerateBotResponseMeaning` and `ResponseIgnoresCase` |
| ChatBot.GenerateBotResponseMeaning | components/chat-bot.tsx:45-71 | the reply is the canned text of the first topic mentioned, or the tip sentence around the chosen tip |
| ChatBot.InvestmentMentionsInvest | components/chat-bot.tsx:64 | "investment" contains "invest", so the second investing word never decides anything |
| ChatBot.SaveMyBudgetGetsSavingTips | components/chat-bot.tsx:48-54 | "Save my budget" gets the saving reply, which is tried first |
| ChatBot.ResponseIgnoresCase | components/chat-bot.tsx:46 | a message and its lower-cased form get the same reply |
| ChatBot.Conversation.constructor | components/chat-bot.tsx:21-30 | the conversation opens with the bot's greeting alone, id "1", and an empty input |
| ChatBot.Conversation.SetInputMessage | components/chat-bot.tsx:30 | changes the input alone |
| ChatBot.Conversation.SendMessage | components/chat-bot.tsx:73-92 | a blank input changes nothing; otherwise the user message, then the bot's reply to it, are appended and the input is cleared |
| ChatBot.BlankInputIsIgnored | components/chat-bot.tsx:74 | input of spaces and line breaks only trims to nothing |

## Left out

- Floating point: amounts, sums, ratios and percentages are exact reals, so JavaScript rounding (`0.1 + 0.2`) is not modelled.
- Text parsing: `Number.parseFloat(...) || 0` is an `Option<real>` coerced to 0. Text that parses to `NaN` but is not empty reaches `addExpense` as `NaN` in the source; here it is `None`, and it is then refused like an empty amount.
- Text.Lower: lower-cases the ASCII letters only, where `toLowerCase` maps all of Unicode.
- Lengths are counted in characters. The source counts UTF-16 code units, which differ only outside the Basic Multilingual Plane (the password length check).
- Ids from `Date.now()`, message timestamps, the hour from `new Date()` and the tip index from `Math.random` are parameters.
- JSX, styling, icons, the progress-bar widget, and formatting with `toFixed` or `toLocaleString`. The recommendation descriptions are represented by the figures they quote, and the health line by the amount it shows.
- The per-category rollup is a map plus the list of categories in order of first appearance. JavaScript's key order for integer-like names, and clashes with `Object.prototype` keys such as "constructor", are not modelled.
- Deposits.AllocateByPriority: `[...expenses]` copies only the array, so the `forEach` also writes the allocations into the expense objects of the previous record. The model gives only the new record; it models neither this aliasing nor the array sort in place, and specifies the library sort by the stable sort it performs.
- React state updates are modelled as taking effect at once, in program order.
- The chat window's open/closed toggle, the Enter-key handler and scrolling are UI only.
- The contact form, UPI deep links, header clock, currency selector and sidebar are outside this model, as is the unused `showContact` state of the page.
- BotTexts: the five topic replies and ten tips are constants. That they differ from each other is not proved, because comparing the long literals is too costly for the verifier.
