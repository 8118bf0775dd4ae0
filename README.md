# Personal-finance assistant backend and data layer — a verified Dafny model

This project models the logic of a small personal-finance web application:

- **The assistant's prompt assembly** (`ChatbotService`). `chat` sends a fixed prompt. `chatWithContext` builds a prompt from the user's message, an optional financial snapshot and the conversation history. Both wrap the language model's answer in a `{success, message}` / `{success: false, error}` envelope.
- **The chat endpoint and health check** (`ChatbotController`). These validate the request, choose the service method, and map its envelope to an HTTP status and JSON body.
- **The auth endpoints** (`AuthController`): register, login, logout and current user.
- **The bearer-token gate** (`AuthMiddleware`). It either answers 401 or attaches the verified user to the request and passes control on.
- **The auth router** (`AuthRoutes`). It places the gate in front of `/logout` and `/me` only.
- **The dashboard's data layer** (`DataService`):
  - CSV text to transaction records;
  - three mock account balances derived from the expenses;
  - the newest-first window of transactions, sorted in place.
- **The mock transaction generator** (`MockData`). It draws 20% income and 80% expense records from fixed tables, then sorts them newest first.

Supporting modules:

- `Wrappers` holds `Option`.
- `JsStrings` holds the ECMAScript string built-ins the code relies on:
  - `trim`;
  - `split` on one character;
  - `indexOf`;
  - `replace` with a string pattern, which replaces the first occurrence only;
  - the decimal text of an integer.
- `Http` holds the `(status, body)` response value and the Authorization-header token extraction.
- `Sorting` holds an in-place sort by a descending key, and what a permutation preserves.

Foreign calls become parameters:

- the language model is `generate: string -> GenOutcome`;
- the identity provider's `signUp`, `signIn`, `signOut` and `verifyUser` are functions to outcome values;
- `parseFloat` is `parse: string -> real`;
- `new Date(s)` is an ordered key `dateKey: string -> int`;
- the text of a number in a template literal is `fmt: real -> string`;
- `Math.random()` is an oracle `rand: nat -> real` with values in [0, 1);
- the clock is `now`.

The chat service sends a plain-text prompt and returns the model's text unparsed. There is no fence stripping and no fallback list, and the chat response has no `insights` field. A model failure is surfaced as a 500 carrying the envelope's error, as the code does.

## Model

| member | source | states |
|---|---|---|
| JsStrings.Trim | frontend/src/services/dataService.js:3 | `trim` yields an infix of its input, with only whitespace cut on either side, and no whitespace left at either end |
| JsStrings.TrimEmptyIffAllWhitespace | backend/controllers/chatbot.controller.js:8 | a text trims to nothing exactly when all of it is whitespace |
| JsStrings.Split | frontend/src/services/dataService.js:3 | `split` on a character always yields at least one piece, and no piece contains the separator |
| JsStrings.JoinSplit | frontend/src/services/dataService.js:11 | joining the pieces of a split with the separator gives back the original text |
| JsStrings.SplitLength | frontend/src/services/dataService.js:11-12 | a split yields one more piece than there are separators |
| JsStrings.SplitAppend | frontend/src/services/dataService.js:11 | text joined at a separator splits into the pieces of each side |
| JsStrings.IndexOf | backend/middleware/auth.middleware.js:6 | the first position where the pattern occurs, with no earlier occurrence, or none when it never occurs |
| JsStrings.ReplaceFirst | backend/middleware/auth.middleware.js:6 | replacing a string pattern changes only its first occurrence; a text without the pattern is unchanged |
| JsStrings.ReplaceAtFront | backend/middleware/auth.middleware.js:6 | removing a pattern that stands at the front leaves exactly the rest |
| JsStrings.NatToString | frontend/src/services/dataService.js:20 | `${i}` of a line index is a non-empty string of digits without a leading zero |
| JsStrings.DecimalRoundTrip | frontend/src/services/dataService.js:20 | reading back the printed numeral gives the number |
| JsStrings.NatToStringInjective | frontend/src/services/dataService.js:20 | different line indices print differently |
| Http.BearerToken | backend/middleware/auth.middleware.js:6 | an absent header gives no token; otherwise the token is the header with the first `Bearer ` removed, wherever it stands, and a header without `Bearer ` is passed through unchanged |
| Http.BearerTokenOfBearerHeader | backend/middleware/auth.middleware.js:6 | `Bearer <t>` yields exactly `<t>` |
| Http.BareBearerIsEmpty | backend/middleware/auth.middleware.js:6-10 | an example of BearerToken's contract: the header `Bearer ` alone yields the empty (falsy) token |
| Http.BearerRemovedAnywhere | backend/middleware/auth.middleware.js:6 | an example of BearerToken's contract: `Bearer ` is removed even when it is not at the front, so `xBearer y` yields `xy` |
| ChatbotService.Envelope | backend/services/chatbot.service.js:21-30 | success exactly when the model produced text, with that text as the message; otherwise the error is the model's message, or 'Failed to process message' when that is empty, and never empty |
| ChatbotService.Chat | backend/services/chatbot.service.js:10-31 | the result is the envelope of the model's answer to the fixed instruction followed by the message, and on success it carries exactly the model's text |
| ChatbotService.ChatIgnoresHistory | backend/services/chatbot.service.js:10-31 | `chat` gives the same result for any conversation history, and fails exactly when the model fails |
| ChatbotService.AppendAccounts | backend/services/chatbot.service.js:48-50 | the loop appends one bullet per account, in order |
| ChatbotService.AppendTransactions | backend/services/chatbot.service.js:55-57 | the loop appends one bullet for each of the first five transactions, in order |
| ChatbotService.AppendCategories | backend/services/chatbot.service.js:62-64 | the loop appends one bullet per spending entry, in order |
| ChatbotService.AppendHistory | backend/services/chatbot.service.js:74-77 | the loop appends one labelled line per recent message, in order |
| ChatbotService.AppendFinancialData | backend/services/chatbot.service.js:40-67 | the financial block appends the header, the balance line, the accounts, transactions and spending blocks, and the blank line |
| ChatbotService.ChatWithContext | backend/services/chatbot.service.js:34-98 | the prompt sent to the model is the assembled context prompt, and the result is the envelope of the model's answer to it |
| ChatbotService.FirstFive | backend/services/chatbot.service.js:55 | `slice(0, 5)` is the prefix of length min(5, n) |
| ChatbotService.Recent | backend/services/chatbot.service.js:71 | `slice(-6)` is the suffix of length min(6, n) |
| ChatbotService.PromptFraming | backend/services/chatbot.service.js:37-81 | every prompt begins with the fixed instruction and ends with `User: <message>\nAssistant:` |
| ChatbotService.FinancialPartIffData | backend/services/chatbot.service.js:39-68 | the financial section is present exactly when a snapshot is given, and it opens with `User's Financial Data:` and closes with a blank line |
| ChatbotService.ZeroBalanceOmitted | backend/services/chatbot.service.js:42-44 | a total balance of 0 prints exactly as an absent one |
| ChatbotService.AccountBulletAt | backend/services/chatbot.service.js:46-51 | non-empty accounts give one count line, then each account as exactly one bullet, in input order |
| ChatbotService.TransactionBulletAt | backend/services/chatbot.service.js:53-58 | each of the first five recent transactions is one bullet under its header, in input order |
| ChatbotService.OnlyFirstFiveTransactions | backend/services/chatbot.service.js:53-58 | transactions after the fifth never change the prompt |
| ChatbotService.CategoryBulletAt | backend/services/chatbot.service.js:60-65 | each spending entry is one bullet under its header, in input order |
| ChatbotService.EmptySpendingKeepsHeader | backend/services/chatbot.service.js:60-65 | an empty spending mapping still prints its header |
| ChatbotService.HistoryLineAt | backend/services/chatbot.service.js:71-79 | each of the last six messages is one line of the history section, in conversation order |
| ChatbotService.OnlyLastSixMessages | backend/services/chatbot.service.js:71 | messages older than the last six never change the prompt |
| ChatbotService.HistoryAbsentIffEmpty | backend/services/chatbot.service.js:71-79 | the history section is absent exactly when the history is empty |
| ChatbotService.HistoryLabel | backend/services/chatbot.service.js:75-76 | a line starts `User: ` exactly when the sender is `'user'`, and `Assistant: ` otherwise |
| ChatbotController.Chat | backend/controllers/chatbot.controller.js:4-47 | a missing or blank message gives 400 'Message is required' and no prompt is sent; a truthy non-string message gives 500 'Failed to process chat message'; otherwise the snapshot selects `chatWithContext` (absent history as []), else `chat`; generated text gives 200 with message and timestamp, and a model failure gives 500 with the envelope's error |
| ChatbotController.HealthCheck | backend/controllers/chatbot.controller.js:49-57 | always 200 'online' with model 'gemini-pro'; `configured` exactly when the key is set and non-empty |
| AuthController.Register | backend/controllers/auth.controller.js:5-23 | any missing field gives 400 'All fields required'; provider success gives 201 'Registration successful' with its user and session; a provider error gives 400 echoing its message |
| AuthController.RegisterValidatesFirst | backend/controllers/auth.controller.js:9-11 | an incomplete registration is answered the same whatever the provider would do |
| AuthController.Login | backend/controllers/auth.controller.js:26-44 | missing email or password gives 400 'Email and password required'; success gives 200 'Login successful'; any provider failure gives 401 'Invalid credentials'; no other error text is possible |
| AuthController.LoginHidesProviderError | backend/controllers/auth.controller.js:41-43 | two refusing providers, whatever their reasons, give the same 401 response |
| AuthController.Logout | backend/controllers/auth.controller.js:47-61 | an absent or empty token gives 401 'No token provided'; otherwise sign-out success gives 200 'Logout successful' and failure gives 400 echoing its message |
| AuthController.LogoutBareBearer | backend/controllers/auth.controller.js:49-53 | `Bearer ` alone is refused with 401 before sign-out is attempted |
| AuthController.GetCurrentUser | backend/controllers/auth.controller.js:64-71 | 200 with exactly the user the middleware attached |
| AuthMiddleware.Gate | backend/middleware/auth.middleware.js:4-18 | passes exactly for a non-empty token that verifies, and then with the verified user; an absent or empty token gives 401 'No token provided'; a verification failure gives 401 'Invalid or expired token' |
| AuthMiddleware.GateRefusesWith401 | backend/middleware/auth.middleware.js:6-17 | every refusal is a 401 with one of the two fixed messages |
| AuthMiddleware.Authenticate | backend/middleware/auth.middleware.js:4-18 | `next` runs exactly when no response is written; on success `req.user` is the verified user; on refusal the gate's 401 is written and `req.user` is left alone |
| AuthRoutes.PublicRoutesIgnoreVerify | backend/routes/auth.route.js:8-9 | register and login never depend on token verification |
| AuthRoutes.GuardedRoutesStopAtGate | backend/routes/auth.route.js:12-13 | when the gate refuses, `/logout` and `/me` answer with the gate's 401 and their handlers never run |
| AuthRoutes.MeReturnsVerifiedUser | backend/routes/auth.route.js:13 | `/me` answers 200 exactly for a verified token, with the verified user, and 401 otherwise |
| AuthRoutes.LogoutBehindGate | backend/routes/auth.route.js:12 | behind the gate `/logout` answers 401 exactly when the gate refuses; a token that passed reaches sign-out, and 200 means sign-out succeeded |
| DataService.CsvLines | frontend/src/services/dataService.js:3 | the trimmed text always has at least one line, the header |
| DataService.Row | frontend/src/services/dataService.js:14-30 | the amount is the parsed value's magnitude, never negative; `isExpense` exactly when the parsed value is negative; date, name, merchant name and category come from the first three fields |
| DataService.ParseTransactionsCSV | frontend/src/services/dataService.js:2-34 | the loop returns the records of the kept lines, in line order |
| DataService.IndicesIncreasing | frontend/src/services/dataService.js:8 | the selected line indices increase |
| DataService.IndicesComplete | frontend/src/services/dataService.js:8-12 | a line after the header is selected exactly when it passes the test |
| DataService.KeptLinesExact | frontend/src/services/dataService.js:8-12 | the header never yields a record; the kept lines increase; a later line is kept exactly when it is non-blank and has at least four comma fields |
| DataService.ParseLinesRows | frontend/src/services/dataService.js:8-31 | the k-th transaction is the record built from the k-th kept line, whose number is its id |
| DataService.AcceptedIffFourFields | frontend/src/services/dataService.js:9-12 | the blank-line test never decides anything: a line is kept exactly when it has four fields |
| DataService.ExtraFieldsIgnored | frontend/src/services/dataService.js:11-17 | fields after the fourth change nothing in the record |
| DataService.ParsedIdsDistinct | frontend/src/services/dataService.js:20 | transaction ids are pairwise distinct |
| DataService.ParsedAmounts | frontend/src/services/dataService.js:17-29 | every amount is the non-negative magnitude of the parsed field, and `isExpense` holds exactly when that field is negative |
| DataService.Expenses | frontend/src/services/dataService.js:38-39 | a transaction is in the filtered list exactly when it is an expense of the input, and the list has as many entries as the input has expenses |
| DataService.ExpensesAppend | frontend/src/services/dataService.js:38-39 | the filter keeps order: filtering a concatenation gives the filtered parts concatenated |
| DataService.CalculateAccountBalances | frontend/src/services/dataService.js:36-95 | exactly `acc_1`, `acc_2` and `acc_3`, in order, in USD, with available equal to current; checking at least 100, savings at least 200, credit 2000 with limit 2000 and no limit on the others |
| DataService.SpentOfExpenses | frontend/src/services/dataService.js:38-40 | the total spent counts only expenses |
| DataService.BalancesIgnoreIncome | frontend/src/services/dataService.js:38-49 | the balances depend on the expense transactions alone: the computed income has no effect |
| DataService.IncomeAppendedChangesNothing | frontend/src/services/dataService.js:42-49 | adding an income transaction leaves every balance unchanged |
| DataService.BalancesMonotone | frontend/src/services/dataService.js:47-48 | more spending never raises the checking or savings balance, and credit is unaffected |
| DataService.CheckingFloor | frontend/src/services/dataService.js:47 | checking sits at its floor of 100 exactly when 60% of spending reaches 4900 |
| DataService.SpentNonNegative | frontend/src/services/dataService.js:38-40 | non-negative amounts give a non-negative total spent |
| DataService.ParsedBalancesBounded | frontend/src/services/dataService.js:22-49 | for parsed transactions checking stays within [100, 5000] and savings within [200, 10000] |
| DataService.SliceEnd | frontend/src/services/dataService.js:101 | `slice(0, limit)` stops at min(limit, n) for a non-negative limit; a negative limit stops at n + limit, or at 0 when that is negative |
| DataService.GetRecentTransactions | frontend/src/services/dataService.js:97-102 | the caller's array is permuted in place into newest-first order, and the result is its first `limit` elements (20 by default); none of them is older than any element left out |
| Sorting.SortDescending | frontend/src/services/dataService.js:100 | the array ends with keys never increasing and holds the same elements |
| Sorting.CountPreserved | backend/models/mockData.js:95 | sorting keeps the number of income records |
| Sorting.DistinctKeysPreserved | backend/models/mockData.js:95 | sorting keeps ids pairwise distinct |
| MockData.CategoriesHaveMerchants | backend/models/mockData.js:3-27 | every category has a non-empty merchant list |
| MockData.RandomIndex | backend/models/mockData.js:54 | `Math.floor(Math.random() * n)` is a valid index |
| MockData.RandomAmount | backend/models/mockData.js:37-39 | the amount is the nearest cent to the scaled draw, halves rounding up, and lies within [min, max] |
| MockData.RandomDate | backend/models/mockData.js:31-35 | a date 0 to 89 days before now |
| MockData.ExpenseRange | backend/models/mockData.js:68-79 | every category's range is non-empty |
| MockData.CountsAddUp | backend/models/mockData.js:46-62 | floor(count * 0.2) income and the rest expense records make `count` in all, or none for a negative count |
| MockData.IncomeRecordWellFormed | backend/models/mockData.js:47-59 | an income record has the user id, is not manual, is dated within 89 days, is in category 'Income' with a listed description, and has an amount in [1000, 5000] |
| MockData.ExpenseRecordWellFormed | backend/models/mockData.js:62-92 | an expense record's category is listed, its merchant belongs to that category, and its amount is in that category's range |
| MockData.UnsortedShape | backend/models/mockData.js:41-92 | before the sort, record k has id k + 1, and the first floor(count * 0.2) records are income and the rest expenses, all well formed |
| MockData.ExpenseAmountTable | backend/models/mockData.js:68-79 | expense amounts in cents, per category: bills 5000–30000, shopping and travel 2000–50000, groceries 3000–20000, dining 1000–8000, others 1500–15000 |
| MockData.PushIncome | backend/models/mockData.js:47-59 | the income loop pushes floor(count * 0.2) income records, three draws each, ids from 1 |
| MockData.DrawExpense | backend/models/mockData.js:64-91 | one pass of the expense loop body is the expense record drawn from four consecutive draws: category, merchant, amount, date |
| MockData.PushExpenses | backend/models/mockData.js:62-92 | the expense loop appends the expense records, four draws each, with ids continuing after the income records |
| MockData.PushedInOrder | backend/models/mockData.js:42-92 | the two loops together push the income records, then the expense records |
| MockData.ReorderedKeepsShape | backend/models/mockData.js:94-95 | any reordering keeps `count` records with distinct ids in 1..count, each well formed, floor(count * 0.2) of them income |
| MockData.IncomeFirst | backend/models/mockData.js:46-59 | income records placed first, and only there, number exactly as many as were placed |
| MockData.GenerateTransactions | backend/models/mockData.js:41-98 | for every sequence of draws and a `count` that defaults to 80: `count` records that are a permutation of the pushed ones, sorted newest first, with distinct ids in 1..count, each well formed, floor(count * 0.2) of them income |

## Left out

- The Gemini client and its `generateContent` call are the parameter `generate`. The Supabase client and the auth service wrapper are provider functions passed in. Their network behaviour, latency and exceptions beyond a failure value are not modelled.
- `console.log` and `console.error` output, Express plumbing beyond the `(status, body)` value, and the router for the chat endpoints are not modelled.
- `loadTransactionData` (frontend/src/services/dataService.js:104-120) is not modelled: it fetches a file and chains the three modelled functions.
- The React pages, components and contexts are not part of this model.
- IEEE floating point is not modelled. Amounts are `real`:
  - `parseFloat` is a total function, and NaN is not represented;
  - `0.6` and `0.3` are exact;
  - mock amounts are integer cents.
- ChatbotService.ChatWithContext: the text of a number in a template literal is the parameter `fmt`. JavaScript's `Number#toString` is not modelled.
- DataService.GetRecentTransactions: an invalid date (a NaN comparator result) is not modelled, and the stability of the engine's sort is not stated.
- DataService.CalculateAccountBalances: `totalIncome` (frontend/src/services/dataService.js:42-44) is computed and never read, so the model does not compute it; DataService.BalancesIgnoreIncome states that the balances depend on the expenses alone.
- MockData.GenerateTransactions:
  - The engine's sort (backend/models/mockData.js:95) is not assumed stable: the contract states the newest-first order and the permutation, not where records with equal dates end up.
  - The clock is read once as a day number. Calendar arithmetic, time zones and the clock advancing between records are not modelled, so `createdAt` is that same `now`.
  - `floor(count * 0.2)` is taken as the exact `count / 5`. Floating-point rounding could differ only for counts beyond 2^50.
  - A non-integer `count` is not modelled.
- MockData.ExpenseRange: its contract states only that each range is non-empty. The ranges themselves are stated by MockData.ExpenseAmountTable.
- ChatbotController.Chat:
  - A snapshot or history of the wrong JSON shape is not modelled. Examples: `balances` missing on an account, which throws inside the service, or a non-array history.
  - A missing request body is not modelled.
  - The mix of `"message"` values other than strings is reduced to their truthiness.
- ChatbotController.HealthCheck reports the model as 'gemini-pro', as written. The service is configured with 'gemini-2.5-flash' (backend/services/chatbot.service.js:7); only the health check's 'gemini-pro' is modelled. The service's model name plays no part in the model, because the language model is the parameter `generate`.
- ChatbotService.Recent: history entries are taken as `(sender, text)` pairs. Other fields are ignored, as in the code.
- AuthController.Register: the provider's user and session are opaque values. A sign-up that returns a null session (email confirmation pending) is one such value.
- JsStrings.ReplaceFirst: `$` patterns in the replacement are not modelled. The replacement here is always empty.
