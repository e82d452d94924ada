# Diet tracker front end, modelled in Dafny

This project models the logic of a React diet-tracker front end and proves what
its pages promise. It covers:

- **Diet plan page.** Pulls today's meals out of a free-text weekly plan. A
  line naming today's weekday starts today's section. A line naming another
  weekday ends it. Headings open meals; bullets add items to the open meal.
  Marking a meal card as done is also modelled.
- **Dashboard (home page).** The fixed seven-category meal plan, the lookup of
  a category's items for a day, the latest logged weight and the one-line
  diet status for today.
- **Weekly goals page.** A seven-row summary of the last seven days, each row
  with the day's last logged weight and its diet status.
- **Weight tracker page.** Logging a weight into a list kept in timestamp
  order with a stable sort, writing the list back to storage, the reversed
  history table and the chart series.
- **Application shell.** The signed-in user and the two `currentUser` storage
  slots: local storage, which persists, and session storage, which lasts for
  one tab. It has the login, sign-up and logout handlers and the guard in
  front of protected routes.
- **Chatbot panel.** Loading the saved conversation, sending a prompt,
  showing the answer and saving it as the diet plan, and clearing the
  conversation.
- **Profile setup page.** The field and user-id checks, the payload, the hand-off
  of the saved user to the login handler, the message colour and the
  disabled state of the submit button.
- **Sign-up page.** The two password checks (mismatch first, then length),
  then the sign-up request, then the automatic login.

The project has one Dafny module per source file, plus two shared modules. `Text`
models the JavaScript string operations the pages use: `trim`, `toLowerCase`,
`includes`, `startsWith`, `split`, `join`, `||` on strings and `String(n)`.
`Records` holds the values the pages share: the user, a weight entry, a day's
diet record and the lookup of a key in an object. Code that updates state step
by step is written imperatively:

- the plan scanner and the weekly summary are methods with loops, each proved
  equal to a specification function;
- page state lives in classes whose methods change their fields;
- the login handler and the sign-up handler are called on a shared
  `Session.SessionStore` object.

Pure code is written as functions with lemmas.

The server is never called. Each request a page sends is recorded in a
`requests` field, and the way each request ends (a response with its fields, or
an exception) is a parameter of the handler. Clocks and the calendar are also
parameters:

- the weekday name;
- the `toDateString` key of each of the last seven days;
- the mapping from a timestamp to its day;
- the moment a weight is logged.

`parseFloat` is a function parameter. Storage slots are fields holding the
stored value, and `JSON.stringify`/`JSON.parse` are treated as the identity.

Where the code does something easy to overlook, the model follows the code:

- **Chatbot, failed plan save.** A good answer is shown. If saving it as the
  plan then throws, the error handler appends a second bot message,
  "❌ Server error." So a send can add two bot messages
  (`ChatBot.Replies`).
- **Chatbot, no user.** Without a user, building the request body throws
  before any request is sent, and the panel shows "❌ Server error."
- **Dashboard vs. weekly summary.** The dashboard counts a category with no
  entry in `eatenMeals` as missed. The weekly summary lists only entries that
  are present and false (`WeeklyGoals.AbsentMealNotListed`).
- **Sign-up without a user.** `handleSignUp` with no user clears the current
  user but leaves both storage slots as they were.
- **Diet plan, weekday headers.** The loop's test for lines that start with
  a weekday (src/pages/DietPlanPage.js:44-50) never decides anything. Such a
  line also contains that weekday, so an earlier test has already handled it
  (`DietPlan.WeekdayHeaderUnreachable`).
- **Profile save, error statuses.** `axios` rejects every status outside
  200-299. A 4xx or 5xx response therefore ends in the catch, with
  "❌ Failed to save profile. " and the response's message. The
  "❌ Error: " text is shown only for a 2xx status other than 200.

## Model

| member | source | states |
|---|---|---|
| Text.Trim | src/pages/DietPlanPage.js:18 | `trim` leaves no white space at either end (the full ECMAScript white-space and line-terminator set) |
| Text.TrimStartSpec | src/pages/DietPlanPage.js:18 | removing leading white space leaves a suffix, and only white space was removed |
| Text.TrimEndSpec | src/pages/DietPlanPage.js:18 | removing trailing white space leaves a prefix, and only white space was removed |
| Text.TrimIsSlice | src/pages/DietPlanPage.js:18 | the trim of a string is the slice between its leading and trailing white space |
| Text.TrimOfTrimmed | src/pages/DietPlanPage.js:18 | a string with no white space at either end is its own trim |
| Text.TrimIdempotent | src/pages/DietPlanPage.js:18 | trimming twice equals trimming once |
| Text.LowerChar | src/pages/DietPlanPage.js:26 | upper-case ASCII letters move to lower case; every other character is kept |
| Text.Lower | src/pages/DietPlanPage.js:26 | lower-casing keeps the length and maps each character by `LowerChar` |
| Text.OrElse | src/pages/SignUpPage.js:56 | `a \|\| b` on strings: `a` when it is non-empty, otherwise `b` |
| Text.Contains | src/pages/DietPlanPage.js:28 | `includes` holds exactly when the text occurs at some index |
| Text.StartsWithContains | src/pages/DietPlanPage.js:44-47 | a string's prefix is also contained in it |
| Text.IndexOf | src/pages/DietPlanPage.js:17 | the first index of a character, or the length when it is absent; no earlier index holds it |
| Text.Split | src/pages/DietPlanPage.js:17 | `split` on one character gives at least one piece, and no piece contains the separator |
| Text.SplitJoin | src/pages/DietPlanPage.js:17 | joining the pieces with the separator gives back the original text |
| Text.JoinSplit | src/pages/DietPlanPage.js:17 | splitting a join of separator-free pieces gives back the pieces |
| Text.IndexOfAbsent | src/pages/DietPlanPage.js:17 | an absent character is found at the end |
| Text.IndexOfAfter | src/pages/DietPlanPage.js:17 | the first separator after a separator-free piece is found right after that piece |
| Text.BeforeFirst | src/pages/HomePage.js:124 | `split(c)[0]` is a prefix without `c`, followed in the text by `c` when it is shorter than the text |
| Text.NatToString | src/pages/HomePage.js:128 | `String(n)` is a non-empty string of decimal digits with no leading zero |
| Text.NatToStringValue | src/pages/HomePage.js:128 | reading the digits back gives the number |
| Records.Lookup | src/pages/HomePage.js:120 | `obj[key]` is absent exactly when no entry has the key; otherwise it is the value of an entry with that key |
| DietPlan.NonBlankTrimmed | src/pages/DietPlanPage.js:16-19 | every kept line is non-empty and trimmed |
| DietPlan.NonBlankTrimmedMembers | src/pages/DietPlanPage.js:16-19 | a line is kept exactly when it is the non-empty trim of some piece |
| DietPlan.StripLeadingStars | src/pages/DietPlanPage.js:55 | `replace(/^\*+/, "")` removes only asterisks, from the front, and leaves no asterisk first |
| DietPlan.StripTrailingStars | src/pages/DietPlanPage.js:55 | `replace(/\*+$/, "")` removes only asterisks, from the end, and leaves no asterisk last |
| DietPlan.OpenMeal | src/pages/DietPlanPage.js:58-65 | a heading opens an empty meal exactly when its name starts with breakfast, lunch, snack or dinner |
| DietPlan.Kinds | src/pages/DietPlanPage.js:25-52 | each line is classified by the tests the loop applies, in the loop's order |
| DietPlan.ScanLine | src/pages/DietPlanPage.js:24-68 | the loop body moves the state exactly as the scanner specification steps over the line's classification |
| DietPlan.ScanOneMore | src/pages/DietPlanPage.js:24 | scanning from one line on is stepping over that line and scanning the rest |
| DietPlan.ParsePlanForToday | src/pages/DietPlanPage.js:12-73 | the loop over the lines returns exactly the meals of the scanner specification `PlanForToday` |
| DietPlan.NoLinesNoMeals | src/pages/DietPlanPage.js:13-19 | empty text, or text of only blank lines, gives no meals |
| DietPlan.ScanAppend | src/pages/DietPlanPage.js:25-69 | scanning two blocks of lines equals scanning the first block, then the second |
| DietPlan.IdleUntilToday | src/pages/DietPlanPage.js:28-42 | while not capturing, lines that do not name today change nothing |
| DietPlan.TodayKinds | src/pages/DietPlanPage.js:28-31 | a prefix of the lines has no today line exactly when none of its lines names today |
| DietPlan.TodayKind | src/pages/DietPlanPage.js:28-31 | a line is classified as today's exactly when it names today (case-insensitively) |
| DietPlan.NoTodayNoMeals | src/pages/DietPlanPage.js:21-42 | when no line names today, there are no meals |
| DietPlan.NothingBeforeToday | src/pages/DietPlanPage.js:21-31 | the result is the scan of the lines after the first line naming today, starting with capture on and no meal open; that line and all before it do not count |
| DietPlan.ScanSkipsToToday | src/pages/DietPlanPage.js:24-31 | for any lines, scanning them is scanning the lines after the first one naming today, with capture on and no meal open |
| DietPlan.KindsSuffix | src/pages/DietPlanPage.js:24 | classifying the lines from some point on is the classification of all lines from that point on |
| DietPlan.TodayLineResumes | src/pages/DietPlanPage.js:28-31 | a line naming today turns capture on, whatever the state, and is skipped |
| DietPlan.OtherDayStopsCapture | src/pages/DietPlanPage.js:33-40 | a line naming another weekday but not today turns capture off and leaves the open meal open |
| DietPlan.DayLinesAreInert | src/pages/DietPlanPage.js:28-50 | a line mentioning today or any weekday never changes the meals or the open meal |
| DietPlan.DayFreeKind | src/pages/DietPlanPage.js:44-67 | a line naming no weekday is a heading when it starts with `*` or ends with `:`, else a bullet when it starts with `+` or `-`, else plain |
| DietPlan.WeekdayHeaderUnreachable | src/pages/DietPlanPage.js:27-50 | no line reaches the weekday-header test: one that starts with a weekday names today or another day first |
| DietPlan.KindIsDayFree | src/pages/DietPlanPage.js:28-67 | a line classified as a heading or a bullet names no weekday and has that shape |
| DietPlan.HeadingStep | src/pages/DietPlanPage.js:52-65 | a captured heading closes the open meal and opens one exactly when its cleaned name is allowed |
| DietPlan.ItemStep | src/pages/DietPlanPage.js:66-67 | a captured bullet goes into the open meal with one marker removed and the rest trimmed; it is dropped when no meal is open |
| DietPlan.ResumedSectionContinuesMeal | src/pages/DietPlanPage.js:28-67 | after another weekday interrupts today's section and today resumes it, a bullet still joins the meal open before the interruption |
| DietPlan.ScanExtendsMeals | src/pages/DietPlanPage.js:53 | closed meals only grow at the end, so the output keeps text order |
| DietPlan.ScanKeepsNamesAllowed | src/pages/DietPlanPage.js:58-65 | scanning keeps every closed and open meal named by an allowed prefix |
| DietPlan.PlanNamesAllowed | src/pages/DietPlanPage.js:58-71 | every returned meal's name starts with an allowed meal name |
| DietPlan.ScanFrom | src/pages/DietPlanPage.js:52-68 | every name and item in the scan state comes from a heading or bullet of the scanned lines |
| DietPlan.MealFromDayFreeLines | src/pages/DietPlanPage.js:44-67 | a meal assembled from classified lines has its name from a heading line and each item from a bullet line, none of them naming a weekday |
| DietPlan.PlanComesFromDayFreeLines | src/pages/DietPlanPage.js:28-71 | every meal name comes from a heading line, and every item from a bullet line, that mentions no weekday |
| DietPlan.MarkDone | src/pages/DietPlanPage.js:100-104 | `handleDone` keeps the old list as a prefix, adds at most the new index, and never creates a duplicate |
| DietPlan.MarkDoneIdempotent | src/pages/DietPlanPage.js:100-104 | marking the same card twice equals marking it once |
| Dashboard.MealItemsForDisplay | src/pages/HomePage.js:66-74 | an unknown category gives `[]`; an `all` category gives its list; a per-day category gives the day's item or the 0-calorie placeholder |
| Dashboard.CategoriesArePlanKeys | src/pages/HomePage.js:75-76 | the category list is exactly the plan's keys: seven distinct names |
| Dashboard.PlanCoversEveryDay | src/pages/HomePage.js:12-64 | every category has a real item for every day of the week, never the placeholder |
| Dashboard.LatestEntry | src/pages/HomePage.js:100-103 | the head of the descending-timestamp sort is the first entry with the greatest timestamp; none for an empty log |
| Dashboard.LatestWeight | src/pages/HomePage.js:100-106 | the latest weight is "N/A" exactly for an empty log, otherwise the weight of the first entry with the greatest timestamp |
| Dashboard.MissedCategories | src/pages/HomePage.js:120 | a category is missed exactly when its value is absent or false; missed ones keep category order; none missed means every category has `true` |
| Dashboard.SubsequenceOfTail | src/pages/HomePage.js:120 | dropping the head of the category list keeps the subsequence relation |
| Dashboard.MissedNames | src/pages/HomePage.js:122-125 | one name per missed category, in the same order |
| Dashboard.MissedNameFromFirstItem | src/pages/HomePage.js:123-124 | a listed category is always named by its first item's text before the first `(`, trimmed |
| Dashboard.DietStatusCases | src/pages/HomePage.js:114-133 | the four outcomes: no record gives "Not Started Today"; 100 gives "Completed Today!" whatever was eaten; anything missed gives "Missed: " and the names joined with ", "; otherwise "In Progress (k/7)" |
| Dashboard.EatenCountAtLeast | src/pages/HomePage.js:116 | with distinct keys, the count of true values is at least the number of keys known to be true |
| Dashboard.DistinctElements | src/pages/HomePage.js:75-76 | a list of distinct names has as many members as elements |
| Dashboard.InProgressCountsEveryCategory | src/pages/HomePage.js:116-128 | when "In Progress" is shown, every category was eaten and k is at least 7 |
| WeeklyGoals.DayWeights | src/pages/WeeklyGoalTrackingPage.js:26 | the day's entries are exactly the stored entries whose timestamp falls on that day |
| WeeklyGoals.DayWeightsLast | src/pages/WeeklyGoalTrackingPage.js:26-29 | the last entry of the day's list is the last entry in stored order that falls on that day |
| WeeklyGoals.LastOnDayInTail | src/pages/WeeklyGoalTrackingPage.js:26-29 | the last entry of the tail on a day, in stored order, is the last one of the whole list |
| WeeklyGoals.WeightOnDay | src/pages/WeeklyGoalTrackingPage.js:26-29 | a day's weight is "N/A" exactly when no entry falls on it, otherwise the weight of the last such entry in stored order |
| WeeklyGoals.FalseKeys | src/pages/WeeklyGoalTrackingPage.js:38-40 | the missed meals are exactly the keys whose entry is false |
| WeeklyGoals.FalseKeysAppend | src/pages/WeeklyGoalTrackingPage.js:38-40 | listing missed meals keeps entry order |
| WeeklyGoals.AbsentMealNotListed | src/pages/WeeklyGoalTrackingPage.js:38-40 | a meal with no entry is never listed as missed |
| WeeklyGoals.DietStatus | src/pages/WeeklyGoalTrackingPage.js:31-46 | no record gives "Not Started"/not-started; 100 gives "✅ Completed"/completed; otherwise the type is missed, and the text is "⚠️ Missed: " and the false keys when there are any, else the percentage as `${...}` renders it |
| WeeklyGoals.GenerateWeeklySummary | src/pages/WeeklyGoalTrackingPage.js:14-52 | exactly 7 rows; row i is for the day i days back, today first, with that day's weight and status |
| WeightTracker.Insert | src/pages/WeightTrackerPage.js:79 | inserting makes the list one entry longer |
| WeightTracker.InsertPermutes | src/pages/WeightTrackerPage.js:79 | inserting adds exactly the new entry, as a multiset |
| WeightTracker.SortedCons | src/pages/WeightTrackerPage.js:79 | an entry no later than all of a sorted list can be put in front of it |
| WeightTracker.SortedHeadFirst | src/pages/WeightTrackerPage.js:79 | the head of a sorted list is the earliest entry, and its tail is sorted |
| WeightTracker.InsertSorted | src/pages/WeightTrackerPage.js:79 | inserting into a sorted list keeps it sorted |
| WeightTracker.SortByTimestamp | src/pages/WeightTrackerPage.js:79 | the sort gives an ascending-timestamp permutation of its input |
| WeightTracker.InsertStable | src/pages/WeightTrackerPage.js:79 | insertion puts the new entry ahead of old entries with the same timestamp |
| WeightTracker.WithTimestampCons | src/pages/WeightTrackerPage.js:79 | the entries with one timestamp, in order, of a list with an entry in front are that entry (if it has the timestamp) followed by those of the rest |
| WeightTracker.SortStable | src/pages/WeightTrackerPage.js:79 | the sort is stable: entries with equal timestamps keep their relative order |
| WeightTracker.InsertIndex | src/pages/WeightTrackerPage.js:79 | the place where insertion puts an entry is a position within the list |
| WeightTracker.InsertSplits | src/pages/WeightTrackerPage.js:79 | insertion places the new entry at one index and keeps every old entry in its old order |
| WeightTracker.SortSorted | src/pages/WeightTrackerPage.js:90 | sorting an already sorted log leaves it unchanged |
| WeightTracker.LogInsertsOne | src/pages/WeightTrackerPage.js:79 | `[entry, ...prev].sort(...)` of a sorted log is that log with the entry inserted once |
| WeightTracker.WeightTrackerPage.constructor | src/pages/WeightTrackerPage.js:28-39 | the log starts from storage, or empty, and is written back at once |
| WeightTracker.WeightTrackerPage.HandleWeightLog | src/pages/WeightTrackerPage.js:56-83 | a missing, zero or negative weight sets the error and leaves the log and input alone; a valid one sets the log to the sorted old log plus the new entry, sets the success message, clears the input and writes to storage; the logging flag is false afterwards |
| WeightTracker.LoggedWeightsAfterLog | src/pages/WeightTrackerPage.js:70-79 | after a log the list is sorted and holds the old entries plus exactly the new one; for a sorted old log the old entries keep their order |
| WeightTracker.ChartSeries | src/pages/WeightTrackerPage.js:90-95 | labels and data are parallel, as long as the log, and follow the timestamp-sorted log |
| WeightTracker.TableRows | src/pages/WeightTrackerPage.js:207 | the table rows are the log in reverse |
| WeightTracker.PageView | src/pages/WeightTrackerPage.js:196-225 | the table is shown exactly when the log is non-empty, the chart exactly with at least two entries, and the chart only when the table is shown |
| WeightTracker.ChartInTimeOrder | src/pages/WeightTrackerPage.js:90-95 | the chart's points are in ascending timestamp order; for a sorted log they are the log, point for point |
| Session.InitialUser | src/App.js:20-33 | the starting user is the local slot's user, else the session slot's, else none |
| Session.SessionStore.constructor | src/App.js:20-33 | the app starts with the slots as stored and the user chosen by `InitialUser` |
| Session.SessionStore.HandleLogin | src/App.js:38-57 | the user is set; remember-me stores the user locally and clears the session slot; otherwise the reverse; no user clears both; afterwards at most one slot is held and a restart finds the same user |
| Session.SessionStore.HandleSignUp | src/App.js:59-67 | a new user goes to the session slot and the local slot is cleared; with no user, both slots are left as they were |
| Session.SessionStore.HandleLogout | src/App.js:69-74 | the user and both slots are cleared |
| Session.ProtectedRoute | src/App.js:76-86 | redirects to /login exactly when there is no user, and otherwise renders the children |
| ChatBot.FormatHistory | src/pages/ChatBot.js:17-21 | n chats become 2n messages, each prompt from the user immediately followed by its answer from the bot, in order |
| ChatBot.UnformatFormat | src/pages/ChatBot.js:17-21 | the chats can be read back from the formatted messages |
| ChatBot.FormatHistoryAppend | src/pages/ChatBot.js:18-21 | formatting a concatenation equals concatenating the formats |
| ChatBot.Replies | src/pages/ChatBot.js:43-62 | a send adds one or two bot messages: the answer on an ok, non-empty answer (plus "❌ Server error." if saving it throws), "❌ Unable to get answer" otherwise, "❌ Server error." on an exception or with no user |
| ChatBot.SendRequests | src/pages/ChatBot.js:36-52 | the chat request carries the untrimmed prompt; the plan is saved only after a good answer, with that answer as its text; there is no request with no user |
| ChatBot.ChatPanel.constructor | src/pages/ChatBot.js:5-7 | the panel starts empty, not loading, with nothing sent |
| ChatBot.ChatPanel.LoadHistory | src/pages/ChatBot.js:12-25 | without a user id nothing happens; a load replaces the messages with the formatted chats (none when `data` is missing); a failure changes nothing |
| ChatBot.ChatPanel.SendMessage | src/pages/ChatBot.js:28-66 | blank input changes nothing; otherwise the old messages are followed by one user message with the input as typed, then the replies; the input is cleared and loading is false |
| ChatBot.ChatPanel.ClearChat | src/pages/ChatBot.js:73-81 | without a user id nothing happens; the messages are emptied only after the delete request completes |
| ChatBot.SendAddsOnePrompt | src/pages/ChatBot.js:30-31 | after a send the old messages are intact, followed by exactly one user message and then only bot messages |
| ProfileSetup.Payload | src/pages/ProfileSetupPage.js:49-56 | the payload carries the user id, the name and conditions trimmed, and the numeric fields as entered |
| ProfileSetup.MessageColour | src/pages/ProfileSetupPage.js:146-154 | no line for an empty message; green for a "✅" prefix, yellow for "⚠️", red otherwise |
| ProfileSetup.MessageColours | src/pages/ProfileSetupPage.js:36-80 | the success message is green, the missing-fields warning yellow and every error red |
| ProfileSetup.ProfileForm.constructor | src/pages/ProfileSetupPage.js:10-18 | the form starts with the given fields, no message, not loading and not redirecting |
| ProfileSetup.ProfileForm.HandleSubmit | src/pages/ProfileSetupPage.js:32-84 | missing fields, then a missing user id, stop with their messages and send nothing; otherwise the payload is sent and loading ends false; status 200 sets the success message, disables submit and logs the user in (remember-me exactly when the local slot held a user); another 2xx status sets "❌ Error: " and the server message; a non-2xx status, which axios rejects, and a failure with no response set "❌ Failed to save profile. " and the response message or "Please try again later."; no error changes the session |
| SignUp.PasswordError | src/pages/SignUpPage.js:20-29 | a mismatch is reported before the length; the checks pass exactly when both passwords are equal and at least 6 characters long |
| SignUp.ServerError | src/pages/SignUpPage.js:40-59 | no error exactly when sign-up and auto-login both succeed; a refused sign-up shows the server message or the default |
| SignUp.SignUpForm.constructor | src/pages/SignUpPage.js:7-11 | the form starts with no error, not loading and nothing sent |
| SignUp.SignUpForm.HandleSubmit | src/pages/SignUpPage.js:15-63 | a failed check sets its error and sends nothing; otherwise sign-up is sent, and login only after sign-up succeeds; the session gets the user and the page goes to /home only when both succeed; loading is false on every path |

## Left out

- Network requests: the request is recorded, and how it ends is a parameter. URLs, headers and JSON bodies are not modelled.
- Dates and locales: `toLocaleDateString`, `toLocaleTimeString`, `toDateString`, `getDay` and `setDate` are parameters (the weekday name, the calendar of the last seven days, the day of a timestamp, the moment of logging).
- The clock displays and their `setInterval` timers, and the 1.5 s delay and 2 s redirect timers. No intermediate render is modelled: while `isLoggingWeight` or `loading` is true, no other handler runs.
- `WeightTracker.WeightTrackerPage.HandleWeightLog`: the success message carries the weight as a number; how `${weight}` renders it is not modelled. `parseFloat` is a parameter that returns a real or nothing (NaN).
- Number formatting: `toFixed(1)` on displayed weights is not modelled; a weight is shown as `Kg(w)`. JavaScript floating point is modelled by exact reals.
- `ProfileSetup.ProfileForm.HandleSubmit`: no route mounts the profile page, so nothing passes it `onLogin`. The model takes `onLogin` to be the application's login handler, `Session.SessionStore.HandleLogin`; every session clause of the status-200 case rests on that choice.
- `WeeklyGoals.DietStatus`: the stored completion percentage is a real number, not necessarily whole. How `${...}` renders it is a parameter and is not modelled.
- `ProfileSetup.Payload`: `Number(...)` of the age and weight fields is not modelled; the field text is sent as entered.
- `SignUp.PasswordError`: the length is counted in Unicode characters. JavaScript counts UTF-16 code units, which differ for characters outside the Basic Multilingual Plane.
- `Text.Lower`: case folding covers ASCII letters only and keeps the length. JavaScript's `toLowerCase` also folds some non-ASCII characters onto ASCII letters (U+212A KELVIN SIGN becomes `k`), and some into two code units (U+0130). Plan text with such characters diverges from the page: `BREA\u212AFAST:` opens a meal on the page but not in the model.
- Objects read by key (`mealPlanData[name]`, `eatenMeals[category]`) are modelled as maps or entry lists. Keys inherited from `Object.prototype` are not modelled.
- Storage serialisation: `JSON.stringify`/`JSON.parse` are the identity. A stored value that does not parse is not modelled.
- The profile page's prefill effect and its redirect to /login when there is no user: field values and navigation other than the sign-up redirect are outside the model.
- The diet plan page's plan request and the dashboard's and weekly page's rendering beyond the computed values: the request is network only, and the rendering is markup.
- `navigate` after a successful profile save (after a timer) is not modelled; redirecting is.
- Login, forgot-password and reset-password pages, static pages, the UI component wrappers, chart.js, react-spring and three.js are outside the modelled core.
