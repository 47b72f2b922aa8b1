# Finance Manager — a verified model of its core logic

Finance Manager is a personal-finance app. A Django REST backend stores each
user's transactions and chat messages and computes a financial health score.
It also answers questions through a keyword chatbot or a language-model proxy,
and it encrypts transaction descriptions at rest. A React Native client logs in,
shows a dashboard, registers users and adds transactions. It talks either to
the backend through axios or to an in-memory mock API.

This project models the parts of that system that carry decisions:

- the health score (`FinanceScore`);
- the keyword chatbot (`Chatbot`, plus the intent chain in `CoreViews`);
- the chat-history window and the two language-model views (`ChatHistory`,
  `CoreViews`, `AppViews`);
- key derivation and payload framing for description encryption
  (`CryptoUtils`), and the serializer that applies it (`Serializers`);
- the admin message truncation (`Admin`);
- the mock API, a stateful store (`MockApi`);
- the client's session and authorization flow (`Client`, `AxiosClient`,
  `LoginScreen`, `DashboardScreen`);
- the two form screens (`RegisterScreen`, `AddTransactionScreen`).

Shared vocabulary lives in `Base` (Option, Result, bytes), `Text` (strip over
Python's and JavaScript's white-space sets, ASCII lower-casing, substring
tests), `Dispatch` (an ordered keyword rule table
and its first match), `Ledger` (transactions and filtered sums) and `Js`
(JavaScript values, truthiness, `||`).

Framework code that the core calls but that is not shown becomes a parameter:

- Python's `round(x, 2)`, with a predicate stating what the model assumes of it;
- the forecast predictor;
- the language-model provider;
- number formatting;
- AES-EAX, base64 and UTF-8, with a predicate stating their round trips;
- JavaScript `Number`, `isNaN` and `parseFloat`.

Client-side effects are recorded in an ordered log of `Effect` values on
`Client.App`, so that "then" in the code becomes a statement about order: an
alert, a dispatch, a navigation step, a storage removal, a request.

The backend in `backend/` and the one in `financial-ai-app/backend/` share
`get_last_n_messages`, `ExpenseForecastView` and `ChatbotView` line for line.
These are modelled once, in `ChatHistory` and `CoreViews`. `AppViews` models
only what differs in the second backend: exact category matching in the
health view, and its language-model view.

## Model

| member | source | states |
|---|---|---|
| `FinanceScore.GenerateAdvice` | backend/ml/finance_score.py:3-11 | advice is one of the four texts; it is the "Reassess" text exactly when the status is not Excellent, Good or Average |
| `FinanceScore.Clamp` | backend/ml/finance_score.py:22 | the result lies in [0, 100] and leaves values already in range unchanged |
| `FinanceScore.StatusOf` | backend/ml/finance_score.py:24-31 | the band is always one of Excellent, Good, Average, Poor |
| `FinanceScore.CalculateFinancialScore` | backend/ml/finance_score.py:13-40 | income and expenses both <= 0 give (0, "Poor", "Add income and expenses data."); totals that cancel otherwise give (0, "Error", division message); otherwise the score is `round2` of 100·income/(income+expenses) clamped to [0, 100], the status is the band of the rounded score and the advice is `GenerateAdvice(status)` |
| `FinanceScore.ScoreIsIncomeShare` | backend/ml/finance_score.py:21 | the code's `100 * (1 - expenses / total)` equals 100·income/(income+expenses); the score's own contract uses it |
| `FinanceScore.NoExpensesIsExcellent` | backend/ml/finance_score.py:21-31 | positive income and zero expenses give the rounded 100, "Excellent" and its advice |
| `FinanceScore.OverspendingCapsStatus` | backend/ml/finance_score.py:21-31 | expenses >= income > 0 keep the score at or below 50 (plus rounding), so the status is Average or Poor |
| `FinanceScore.StatusMonotone` | backend/ml/finance_score.py:21-31 | a larger unclamped score never yields a lower rounded score or a worse band |
| `FinanceScore.CancellingTotalsAreAnError` | backend/ml/finance_score.py:39-40 | income 5 and expenses −5 reach the division error and report (0, "Error") |
| `Chatbot.Latest` | backend/core/chatbot.py:33 | the chosen transaction is in the list and no transaction has a later date |
| `Chatbot.ChatbotResponse` | backend/core/chatbot.py:5-58 | the greeting topic gives the greeting, no topic gives the default reply, and a last-transaction question with no transactions gives "You have no transactions yet." |
| `Chatbot.RulesFire` | backend/core/chatbot.py:9-46 | each entry of the rule table fires exactly when the matching `in` tests of the if-chain hold |
| `Chatbot.TopicIsFirstMatch` | backend/core/chatbot.py:9-58 | the if-chain picks the first rule that fires in table order, or the default |
| `Chatbot.CaseInsensitive` | backend/core/chatbot.py:6 | a message and its lower-cased form get the same reply |
| `Chatbot.GreetingShadowsOtherRules` | backend/core/chatbot.py:9-10 | "How much did I spend this month?" contains "hi" and is answered with the greeting |
| `Chatbot.ExpenseBeforeIncome` | backend/core/chatbot.py:13-20 | a non-greeting message naming both "spent" and "income" gets the expense total |
| `Chatbot.SavingsReply` | backend/core/chatbot.py:23-27 | for any message whose topic is savings, the reply reports the income total minus the expense total |
| `Chatbot.ExpenseReply` | backend/core/chatbot.py:13-15 | for any message whose topic is the expense total, the reply reports the sum of the amounts of exactly the transactions whose category is "expense" |
| `Chatbot.IncomeReply` | backend/core/chatbot.py:18-20 | for any message whose topic is income, the reply reports the sum of the amounts whose category is "income" |
| `Chatbot.LastTransactionReply` | backend/core/chatbot.py:30-34 | with at least one transaction, a last-transaction question reports the category, amount and date of a transaction whose date is no earlier than any other |
| `Chatbot.MonthlyReply` | backend/core/chatbot.py:37-43 | for any monthly question, the reply reports the sum of the expenses whose month equals today's month |
| `Chatbot.HelpTopicReply` | backend/core/chatbot.py:46-55 | a help question gets the fixed list of example questions, whatever the transactions |
| `Chatbot.SavingsMayBeNegative` | backend/core/chatbot.py:23-27 | the message "left" with one expense of 5 and no income gets the savings reply for −5 |
| `Chatbot.MonthlyTotalIgnoresYear` | backend/core/chatbot.py:37-43 | adding an expense dated in today's month of any year adds its amount to the monthly total |
| `Dispatch.FirstFiring` | backend/core/views.py:124-151 | the index returned is the first rule that fires; no earlier rule fires |
| `Ledger.SumWhereAppend` | backend/core/chatbot.py:14 | a filtered sum over a concatenation is the sum of the two filtered sums |
| `Ledger.SumWhereOfUnselected` | backend/core/chatbot.py:19 | the sum over transactions none of which match is 0 |
| `Ledger.ExpenseAmounts` | backend/core/views.py:61-62 | no more amounts than transactions; all the amounts, in order, when every transaction is an expense; none when no transaction is |
| `Ledger.ExpenseAmountsCount` | backend/core/views.py:61-63 | there is exactly one amount per expense transaction, so the forecast guard counts expense records |
| `Ledger.ExpenseAmountsAppend` | backend/core/views.py:61-62 | the amounts of two runs of transactions are the first run's followed by the second's: order is kept |
| `Ledger.ExpenseAmountsSum` | backend/core/views.py:61-62 | the amounts add up to the expense total the chatbot reports |
| `Text.TrimStart` | backend/core/views.py:117 | the result is a suffix of the input that does not start with white space, and only white space was removed |
| `Text.TrimStartDropsSpace` | backend/core/views.py:117 | the part removed at the start is all white space |
| `Text.TrimEndDropsSpace` | backend/core/views.py:117 | the part removed at the end is all white space |
| `Text.TrimEnd` | backend/core/views.py:117 | the result is a prefix of the input that does not end with white space, and only white space was removed |
| `Text.Strip` | backend/core/views.py:117 | the result is no longer than the input and neither starts nor ends with white space |
| `Text.StripIsSlice` | backend/core/views.py:117 | the result is the slice of the input that starts where the leading white space ends |
| `Text.StripKeepsMiddle` | backend/core/views.py:117 | the input is white space, then the result, then white space: nothing else is dropped |
| `Text.SpacesDiffer` | financial-ai-app/backend/core/views.py:161 | U+1C is stripped by Python's `strip` and kept by JavaScript's `trim` |
| `Text.StripIsInfix` | backend/core/views.py:117 | the stripped text occurs inside the original |
| `Text.StripEmptyIffAllSpace` | backend/core/views.py:119-120 | the stripped message is empty exactly when the message is all white space |
| `Text.StripIdempotent` | financial-ai-app/backend/core/views.py:161 | stripping twice is stripping once |
| `Text.LowerChar` | backend/core/chatbot.py:6 | each upper-case ASCII letter becomes its own lower-case letter (code + 32); every other character is kept |
| `Text.Lower` | backend/core/chatbot.py:6 | lower-casing keeps the length and maps each character |
| `Text.LowerIdempotent` | backend/core/chatbot.py:6 | lower-casing twice is lower-casing once |
| `Text.LowerKeepsSpaces` | backend/core/views.py:117-120 | lower-casing neither creates nor removes an all-white-space message |
| `Text.OffsetOfContains` | backend/core/chatbot.py:9 | when `pat in s`, an offset at which `pat` occurs |
| `Text.ContainsOfOffset` | backend/core/chatbot.py:9 | an occurrence at any offset makes `pat in s` hold |
| `Text.ContainsIffOccurs` | backend/core/chatbot.py:9 | `pat in s` holds exactly when `pat` occurs at some offset of `s` |
| `Text.ContainsNeedsRoom` | backend/core/chatbot.py:9 | `pat in s` needs `s` at least as long as `pat` and holding its first character |
| `Text.ContainsAnyOfOne` | backend/core/chatbot.py:18 | a one-keyword rule fires exactly when its keyword occurs |
| `Text.ContainsAnyOfTwo` | backend/core/chatbot.py:13 | a two-keyword rule fires exactly when either keyword occurs |
| `Text.ContainsAnyOfThree` | backend/core/chatbot.py:9 | a three-keyword rule fires exactly when any of its keywords occurs |
| `CoreViews.ForecastGet` | backend/core/views.py:56-71 | fewer than 7 expense amounts give 400 "need at least 7"; otherwise the predictor's result is 200 `next_7_days`, and its failure is 500 with the error |
| `CoreViews.ForecastGuardSkipsPredictor` | backend/core/views.py:64-65 | below 7 expense records, any two predictors give the same 400 response, so the predictor is never consulted |
| `CoreViews.HealthGet` | backend/core/views.py:80-98 | always 200, reporting `calculate_financial_score` of the case-insensitive income and expense totals |
| `CoreViews.IntentRulesFire` | backend/core/views.py:124-151 | each intent rule fires exactly when the matching `in` tests of the chain hold |
| `CoreViews.IntentIsFirstMatch` | backend/core/views.py:124-151 | the intent chain (greeting, income, expense/spent, score/health, forecast/predict, save/advice, emi) is the first match of the rule table, else the default |
| `CoreViews.StrippedOrEmpty` | backend/core/views.py:117 | a truthy non-string message raises the `AttributeError` of its type; a string is stripped; any other falsy value reads as empty |
| `CoreViews.LocalMessage` | backend/core/views.py:117 | the stripped message lower-cased, or the same error |
| `CoreViews.FalsyMessagesAreEmpty` | backend/core/views.py:117-120 | `0`, `false`, `[]`, `{}`, `null` and a missing message all read as empty |
| `CoreViews.LocalReply` | backend/core/views.py:122-151 | every intent except forecast yields a reply; forecast with fewer than 7 expenses gives the fixed "need at least 7" reply; no intent gives the fallback reply |
| `CoreViews.IncomeBeforeExpense` | backend/core/views.py:127-132 | a non-greeting message naming both "income" and "expense" gets the income reply |
| `CoreViews.ChatbotPost` | backend/core/views.py:115-161 | a truthy non-string message is an unhandled 500 that stores nothing; an empty normalised message is 400 and stores nothing; otherwise exactly one ChatMessage with the normalised text, the reply and source "local" is appended and returned with 201; a predictor exception is a 500 that stores nothing |
| `CoreViews.Exchanges` | backend/core/views.py:182-186 | 2k entries for k prior messages: user then assistant for each, in chronological order |
| `CoreViews.BuildHistory` | backend/core/views.py:181-187 | the append loop builds the exchanges of the prior messages followed by the new user message |
| `CoreViews.HistoryShape` | backend/core/views.py:182-187 | at most 6 prior messages, 2k+1 entries, and the last entry is the new user message |
| `CoreViews.LlmPost` | backend/core/views.py:170-222 | a null or any other non-string message (even a falsy one) is an unhandled `AttributeError`; an absent or blank message is 400 before the key is checked; a missing key is 503; neither calls the provider nor stores anything; otherwise the provider gets the history of the 6 newest messages, and only an answer is stored, with source "openrouter" |
| `ChatHistory.Backend.Store` | backend/core/views.py:154-161 | `ChatMessage.objects.create` appends exactly one row |
| `ChatHistory.Backend.Call` | backend/core/views.py:189-213 | each provider call is recorded with the messages it was sent |
| `ChatHistory.OfUser` | backend/core/views.py:105 | the filter keeps exactly the user's messages, with their multiplicities |
| `ChatHistory.Insert` | backend/core/views.py:105 | inserting into a newest-first list keeps it newest-first and adds exactly one element |
| `ChatHistory.SortNewestFirst` | backend/core/views.py:105 | `order_by('-created_at')` yields a newest-first permutation |
| `ChatHistory.Reverse` | backend/core/views.py:106 | `reversed` maps position i to position length−1−i |
| `ChatHistory.LastN` | backend/core/views.py:104-106 | the window has min(n, number of the user's messages) entries |
| `ChatHistory.LastNAreTheNewest` | backend/core/views.py:104-106 | the window holds only the user's messages, is oldest-first, is drawn from the user's messages, and every message left out is no newer than every message kept |
| `ChatHistory.ReverseOfNewestFirst` | backend/core/views.py:106 | reversing a newest-first list gives an oldest-first permutation of it |
| `ChatHistory.TakeNewest` | backend/core/views.py:105 | slicing the first k of a newest-first list leaves behind only messages no newer than those taken |
| `AppViews.HealthGet` | financial-ai-app/backend/core/views.py:78-87 | always 200, reporting the score of the exact-category income and expense totals |
| `AppViews.HealthTotalsDifferOnCase` | financial-ai-app/backend/core/views.py:80-84 | a single "Income" transaction of 10 is "Excellent" in the case-insensitive backend but (0, "Poor", no data) here |
| `AppViews.LlmMessage` | financial-ai-app/backend/core/views.py:161 | a truthy non-string message raises; a string is stripped; a falsy non-string reads as empty |
| `AppViews.BuildMessages` | financial-ai-app/backend/core/views.py:172-177 | the loop builds the system prompt, the prior exchanges oldest-first, then the new user message |
| `AppViews.MessagesShape` | financial-ai-app/backend/core/views.py:172-177 | 2k+2 entries: the system prompt first, user/assistant pairs at 2i+1 and 2i+2, the new user message last |
| `AppViews.HistoryIsBounded` | financial-ai-app/backend/core/views.py:173 | at most 4 prior exchanges, all of the requesting user |
| `AppViews.LlmPost` | financial-ai-app/backend/core/views.py:159-200 | a truthy non-string message is an unhandled 500 that calls nothing; a missing, null, falsy or blank message is 400; a missing OPENAI_API_KEY is 503, before any history is built; a failed call is 500 with nothing stored; an answer stores exactly one ChatMessage with the stripped reply and source "llm" |
| `CryptoUtils.Zeros` | backend/core/utils.py:13 | n zero bytes |
| `CryptoUtils.DeriveKey` | backend/core/utils.py:6-14 | a missing or empty secret is an error and nothing else is; the key is 32 bytes; a short secret is a prefix padded with zero bytes; a long one is truncated to its first 32 bytes |
| `CryptoUtils.LongSecretsTruncate` | backend/core/utils.py:14 | secrets that share their first 32 bytes derive the same key |
| `CryptoUtils.Split` | backend/core/utils.py:26 | the nonce and tag slices have the lengths Python's clamped slicing gives |
| `CryptoUtils.SplitFrame` | backend/core/utils.py:20-26 | splitting nonce‖tag‖ciphertext at 16 and 32 recovers the three parts |
| `CryptoUtils.FrameSplit` | backend/core/utils.py:26 | re-joining the three slices gives back the payload |
| `CryptoUtils.EncryptData` | backend/core/utils.py:16-21 | fails exactly when the key cannot be derived; otherwise the result is the base64 text of nonce‖tag‖ciphertext |
| `CryptoUtils.DecryptData` | backend/core/utils.py:23-28 | a missing secret, bad base64 or an empty payload are errors; a success is the UTF-8 text the cipher authenticated under the split nonce and tag |
| `CryptoUtils.DecryptEncrypt` | backend/core/utils.py:16-28 | decrypting an encryption returns the original text, and the encryption is non-empty |
| `Serializers.Create` | backend/core/serializers.py:27-31 | a non-empty description is replaced by its encryption; an empty or missing one is stored as given; no other field changes |
| `Serializers.ToRepresentation` | backend/core/serializers.py:33-42 | an empty or missing description is left alone; a decryptable one is replaced by its plaintext; a failing decryption leaves it as stored; no other field changes |
| `Serializers.CreateThenRender` | backend/core/serializers.py:27-42 | on the submitted fields, create then render round-trips: the description comes back as the plain text written, and the other submitted fields unchanged; the fields the framework adds are outside the model |
| `Admin.MessageShort` | financial-ai-app/backend/core/admin.py:9-10 | up to 75 characters is unchanged; longer is its first 75 characters plus "..."; never longer than 78 |
| `Admin.MessageShortIdempotent` | financial-ai-app/backend/core/admin.py:10 | shortening a shortened message changes nothing |
| `Js.Get` | src/api/mockApi.js:29 | a missing key reads as `undefined` |
| `Js.Or` | src/api/mockApi.js:48-49 | `a || b` is `a` when truthy, else `b` |
| `Js.ListOr` | frontend/src/screens/DashboardScreen.js:57 | a list is kept and a falsy value becomes the empty list |
| `MockApi.TokenReply` | src/api/mockApi.js:28-34 | the fixed token is returned exactly when both username and password are truthy; otherwise "Invalid credentials" |
| `MockApi.NewTransaction` | src/api/mockApi.js:41-42 | the new entry has the body's keys plus "id"; the id is the previous length + 1 unless the body has an id; every other field comes from the body |
| `MockApi.ChatbotReply` | src/api/mockApi.js:47-51 | a truthy non-string question throws; otherwise the answer is the table entry for the lower-cased question, or the default |
| `MockApi.Ids` | src/api/mockApi.js:14-16 | the ids of the list, position by position |
| `MockApi.OneTo` | src/api/mockApi.js:41 | the sequence 1, 2, …, n |
| `MockApi.SeedIdsExact` | src/api/mockApi.js:13-17 | the seed list's ids are exactly 1..3 |
| `MockApi.PrependKeepsIdsExact` | src/api/mockApi.js:41-43 | prepending a body without an id to a list whose ids are 1..n gives ids 1..n+1 |
| `MockApi.OneToOnce` | src/api/mockApi.js:41 | no id occurs twice in 1..n |
| `MockApi.IdsExactMeansOneToN` | src/api/mockApi.js:41-43 | with ids exactly 1..n, every id is in [1, n], every value in 1..n is some entry's id, and no two entries share an id |
| `MockApi.MockServer.constructor` | src/api/mockApi.js:4-22 | the store starts with the three seed transactions, whose ids are exact |
| `MockApi.MockServer.Post` | src/api/mockApi.js:25-53 | each path's reply as the code gives it; only "transactions/" changes the list, prepending the new entry; the id invariant is preserved for bodies without an id |
| `MockApi.MockServer.Get` | src/api/mockApi.js:55-61 | the fixed score and forecast, the current transaction list, or an empty object |
| `MockApi.PostThenList` | src/api/mockApi.js:40-59 | after posting, the list grows by one, shows the new entry first and keeps the earlier entries in order |
| `Client.Reduce` | frontend/src/screens/LoginScreen.js:24 | `setCredentials` signs in with the given user and token; `logout` signs out |
| `Client.ReplaceTop` | frontend/src/screens/LoginScreen.js:25 | `navigation.replace` swaps the top route and keeps the rest of the stack |
| `Client.Pop` | frontend/src/screens/AddTransactionScreen.js:41 | `navigation.goBack` drops the top route unless it is the only one |
| `Client.App.constructor` | frontend/src/screens/LoginScreen.js:19 | the app starts signed out on the login route with the given storage and an empty effect log |
| `AxiosClient.Bearer` | frontend/src/api/axios.js:11-12 | a header value exists exactly when the stored token is present and non-empty, and it is "Bearer " + token |
| `AxiosClient.RequestConfig.constructor` | frontend/src/api/axios.js:9 | a request configuration holds the given headers |
| `AxiosClient.Intercept` | frontend/src/api/axios.js:9-17 | the same config is always returned; a failed read or an absent or empty token leaves the headers unchanged; otherwise only Authorization is set, to "Bearer " + token |
| `AxiosClient.Send` | frontend/src/api/axios.js:7-19 | the server answers the headers as the interceptor left them: with the bearer header when a non-empty token was read, as given otherwise; whatever the status, a 401 included, the stored token and the session stay as they were, since no response interceptor exists |
| `LoginScreen.Credentials` | frontend/src/screens/LoginScreen.js:22 | the body is exactly {username, password} |
| `LoginScreen.FailureMessage` | frontend/src/screens/LoginScreen.js:34 | the alert text is the error's message when non-empty, else a fixed fallback |
| `LoginScreen.Screen.constructor` | frontend/src/screens/LoginScreen.js:12-14 | the form starts with the demo credentials and not loading |
| `LoginScreen.Screen.Login` | frontend/src/screens/LoginScreen.js:19-38 | success signs in with the mock token and only then replaces the route with the dashboard; failure keeps session and route and alerts "Login failed"; loading ends false; storage is never written |
| `LoginScreen.Screen.Settle` | frontend/src/screens/LoginScreen.js:23-34 | after the awaited reply: success dispatches the credentials and then replaces the route with the dashboard; failure only alerts "Login failed" with the error text |
| `LoginScreen.LoginThenRequest` | frontend/src/screens/LoginScreen.js:19-25 | after a successful login the next request still carries no Authorization header |
| `DashboardScreen.Prop` | frontend/src/screens/DashboardScreen.js:53 | reading a property of null or undefined throws; of an object, it is the field or undefined |
| `DashboardScreen.Total` | frontend/src/screens/DashboardScreen.js:81-82 | the sum throws exactly when some item is null or undefined; otherwise an empty list totals 0 and one object totals its numeric amount |
| `DashboardScreen.TotalAppend` | frontend/src/screens/DashboardScreen.js:81-82 | the total over a concatenation throws exactly when a part does, and is otherwise the sum of the totals |
| `DashboardScreen.Balance` | frontend/src/screens/DashboardScreen.js:81-83 | a balance is shown exactly when neither list holds a null or undefined item |
| `DashboardScreen.BalanceMoves` | frontend/src/screens/DashboardScreen.js:83 | an income object raises the balance by its amount; an expense object lowers it by its amount |
| `DashboardScreen.HoleThrows` | frontend/src/screens/DashboardScreen.js:81 | a null item among the income makes the render throw instead of showing a balance |
| `DashboardScreen.EmptyBalanceIsZero` | frontend/src/screens/DashboardScreen.js:81-83 | no income and no expenses give a balance of 0 |
| `DashboardScreen.StagesDone` | frontend/src/screens/DashboardScreen.js:44-73 | the number of fetch stages that complete: 0 exactly when the score fetch fails, 4 exactly when all four succeed |
| `DashboardScreen.Screen.constructor` | frontend/src/screens/DashboardScreen.js:31-35 | the dashboard state starts empty |
| `DashboardScreen.RequestsIssued` | frontend/src/screens/DashboardScreen.js:44-67 | a load sends between one and five requests: one more than the stages done, and all five when the four stages succeed |
| `DashboardScreen.Screen.LoadData` | frontend/src/screens/DashboardScreen.js:44-74 | the GETs to score/, forecast-v2/, income/, expenses/ and goals/ are sent in that order, up to and including the first that fails; each completed stage sets its state, with missing lists defaulting to empty; the first failure keeps the rest of the state; a goals failure does not abort the load |
| `DashboardScreen.LogoutPressed` | frontend/src/screens/DashboardScreen.js:106-110 | removes the token, then dispatches logout, then replaces the route with Login, in that order; a failed removal changes nothing |
| `DashboardScreen.LogoutThenRequest` | frontend/src/screens/DashboardScreen.js:106-110 | after logout, a request carries no Authorization header |
| `RegisterScreen.Form.With` | frontend/src/screens/RegisterScreen.js:33 | setting a field changes that field and no other |
| `RegisterScreen.NamesDoNotMatter` | frontend/src/screens/RegisterScreen.js:46-51 | first and last name have no effect on validity |
| `RegisterScreen.ClearingRequiredFieldInvalidates` | frontend/src/screens/RegisterScreen.js:46-51 | emptying the username, email, password or confirmation makes any form invalid |
| `RegisterScreen.MatchingConfirmationValidates` | frontend/src/screens/RegisterScreen.js:39-51 | with username, email and password filled, typing the password again as confirmation makes the form valid |
| `RegisterScreen.Payload` | frontend/src/screens/RegisterScreen.js:61-68 | the payload maps the form to exactly username, email, password, confirm_password, first_name and last_name |
| `RegisterScreen.FailureText` | frontend/src/screens/RegisterScreen.js:78-81 | the failure alert shows the server's response body when there is one, else the error message |
| `RegisterScreen.ErrorsAfter` | frontend/src/screens/RegisterScreen.js:36-43 | editing a field clears its error, except that a confirmation differing from the current password sets the mismatch error instead |
| `RegisterScreen.MismatchOnlyFromConfirmation` | frontend/src/screens/RegisterScreen.js:39-43 | the mismatch error appears exactly when the confirmation is edited to a value different from the password, and the edited form is then invalid |
| `RegisterScreen.Screen.constructor` | frontend/src/screens/RegisterScreen.js:17-29 | the form and errors start empty, not loading |
| `RegisterScreen.Screen.HandleChange` | frontend/src/screens/RegisterScreen.js:32-44 | the form gets the new value, and the errors are the last of the two updates computed from the errors seen before the edit |
| `RegisterScreen.Screen.Register` | frontend/src/screens/RegisterScreen.js:53-85 | an invalid form alerts and sends nothing; a valid one posts the payload, then alerts success and goes back, or alerts the failure text; loading ends false |
| `AddTransactionScreen.Category.Name` | frontend/src/screens/AddTransactionScreen.js:10 | the category is always "expense" or "income" |
| `AddTransactionScreen.Validate` | frontend/src/screens/AddTransactionScreen.js:16-26 | accepted exactly when the amount is non-empty and numeric and the trimmed description is non-empty; the amount alert takes precedence over the description alert |
| `AddTransactionScreen.AmountCheckedFirst` | frontend/src/screens/AddTransactionScreen.js:17-20 | a bad amount gives the amount alert whatever the description |
| `AddTransactionScreen.Payload` | frontend/src/screens/AddTransactionScreen.js:35-39 | exactly category, `parseFloat(amount)` and the trimmed description, with no id |
| `AddTransactionScreen.Screen.constructor` | frontend/src/screens/AddTransactionScreen.js:10-13 | the category defaults to "expense" and the fields start empty |
| `AddTransactionScreen.Screen.SelectCategory` | frontend/src/screens/AddTransactionScreen.js:78-79 | the chosen category becomes current |
| `AddTransactionScreen.Screen.AddTransaction` | frontend/src/screens/AddTransactionScreen.js:28-47 | invalid input alerts and sends nothing; valid input prepends the payload to the mock store, alerts success, goes back and ends not loading, keeping the id invariant |
| `AddTransactionScreen.Screen.Submit` | frontend/src/screens/AddTransactionScreen.js:33-46 | the request step: loading on, post, success alert, back, loading off, in that order |

## Left out

- `LowerChar`: `lower()` and `toLowerCase()` are modelled on A–Z only; Unicode case folding is not modelled. The white-space sets of `str.strip()` and `trim()` are modelled in full, as `PythonSpace` and `JsSpace`.
- Python's `round`, `f"{x:.2f}"` formatting, `str(date)`, the forecast predictor, the language-model HTTP call and its JSON parsing are function parameters. The predictor and the provider report only success or an error text.
- AES-EAX, base64 and UTF-8 are the `Primitives` parameter. Only the round trips the model relies on are assumed of them. The random nonce is a parameter.
- The Django ORM is not modelled. Query results are passed in as sequences, `ChatMessage.objects.create` is an append to `Backend.chatRows`, and rows with equal `created_at` are ordered by an unspecified tie rule.
- `ChatHistory.LastN`: the order among messages with the same `created_at` is not pinned down, because the database does not fix it either.
- The redux store's `setCredentials`/`logout` reducers are not part of this model. `Client.Reduce` assumes they set and clear the session. AsyncStorage is a map, and navigation is a route stack.
- `Number()`, `isNaN` and `parseFloat` are parameters. NaN arithmetic in the dashboard totals is not modelled beyond whatever `toNumber` returns.
- `Js.ListOr`: a truthy value that is not a list (an object, a number) is modelled as the empty list. JavaScript would keep it, and a later `reduce` would throw.
- `DashboardScreen.Prop`: a property read on a string, number or boolean yields `undefined`. Prototype properties are ignored.
- `MockApi.ChatbotReply`: keys inherited from `Object.prototype` (such as "constructor") are not looked up in the reply table.
- `MockApi.MockServer.Get`: the transaction list is returned by value. The aliasing by which later posts show through an array obtained earlier is not captured.
- Animations, timers (`wait`, `setTimeout`), rendering, styling, the `console.log` calls and the Python `print` calls (backend/core/views.py:82 and :212) are left out; they only write to the console.
- `RegisterScreen.Screen.Register` posts through axios. The request interceptor is not composed into it, and the server's answer is the `outcome` parameter.
- `AddTransactionScreen.Screen.AddTransaction` posts to the mock API, which never rejects a "transactions/" post, so the "Unable to save transaction" alert is unreachable and not modelled.
- The forecast model (`financial-ai-app/backend/ml/forecast_model.py`) is not part of this model. The ML views, CSV export, CRUD list views, registration and profile views, `UserSerializer` and the other serializers are not part of it either. These are ORM and framework glue.
- `CreateThenRender`: DRF's `super().create` and `super().to_representation` are taken as the identity on the field map. The `id`, `user` and `date` fields they add are not modelled.
- `CoreViews.LlmPost`: the provider's JSON parsing and the exception text of a failed call are folded into `ProviderReply`.
- The `financial-ai-app` copies of `get_last_n_messages`, `ExpenseForecastView` and `ChatbotView` are the same code as in `backend/core/views.py` and share the `ChatHistory`/`CoreViews` members.
