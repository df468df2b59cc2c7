# athena.ai career planner — a Dafny model of its core

athena.ai walks a signed-in user through a four-step career questionnaire, saves the
answers, and has a language-model agent write a twelve-month career plan that the
browser then shows month by month. This project models the core of that system in
Dafny and proves properties of the model:

- **The application shell and wizard** (`app.dfy`, module `Wizard`). The session
  check and auth notifications, the user's status row (0 = new, 1 = information
  submitted, 2 = plan requested), and the step machine home → q1 → q2 → q3 → q4 →
  finished. It also covers the required-field check of step 1, the resume file name,
  the merge of each step's data into the answers, the final upsert and status
  update, sign-out, and what the shell renders.
- **The questions** (`question1.dfy`, `long_answer.dfy`). The profile form of step 1,
  and the free-text questions q3/q4 with their live word count and the 10–200 word
  gate (`word_count.dfy`).
- **The chat window** (`chat.dfy`). It sends the last nine messages as history and
  keeps the last twenty.
- **The plan-creation progress view** (`plan_progress.dfy`). A bar that creeps up by
  5 and stops at 95, a rotating message, and a status check that re-arms itself
  until the plan's theme record exists.
- **The career-plan page** (`plan_display.dfy`). It groups task outlines by month,
  builds one tab per "month_" theme key, and shows the selected month.
- **The two plan agents**:
  - `checked_planner.dfy` plans, checks and regenerates each month until it passes.
  - `simple_planner.dfy` runs twelve plan/check rounds in a two-node graph.

  Both share the month-keyed plan dictionary (`plan_dict.dfy`) and the flattening
  into a theme dictionary and task rows ordered by month (`month_plans.dfy`).
- **Shared pieces**. JavaScript values, with truthiness, property access, `String`
  and `parseInt` (`js_value.dfy`). White-space trimming for JavaScript and Python,
  splitting on one character, and decimal numerals (`text.dfy`). `Option`, `Result`,
  and a map over sequences (`common.dfy`).

Components whose fields the source updates in place are classes with `modifies`
clauses: the shell, the forms, the chat window, the progress view, the plan page,
and the agents' planning state. Pure computations are functions with lemmas.

Calls to the database, storage, authentication, the chat endpoint and the language
models are parameters saying how each call ended:

- an `Outcome`, a `Result`, or a lookup datatype for the service calls;
- for the planner, the groups its regular expressions matched in the reply;
- for the checker, the parsed JSON reply.

Timers are steps: each call of `Tick`, `RotateMessage` or `CheckPlanStatus` is one
firing. `Math.random()` is a parameter: `Effects.randomName`, and `RotateMessage`'s
`pick`.

Where the written specification of the system and the code disagree, the model
follows the code:

- **Final submission.** After the final submission the wizard moves to a "finished"
  view and stays there. It does not go back to home.
- **Resume upload.** The resume is uploaded when step 1 is submitted, not at the end.
- **Going back.** Going back never refills a question from the stored answers:
  - step 1 looks for a `q1` property, which the answers never have;
  - q2–q4 are handed a string, and a string has no property named after the step.

  `Wizard.PreviousAnswersNeverHydrate` proves this.
- **Plan status checks.** They repeat every 5 seconds with no bound on their number,
  and there is no timeout.
- **Progress bar.** It ticks every 3 seconds. It can fall from 100 back to 95, because
  its interval keeps running after the plan is ready.

## Model

| member | source | states |
|---|---|---|
| Text.Strip | src/App.js:169-172 | `trim()`/`strip()`: the result has no white space at either end, and it is empty exactly when the input is all white space |
| Text.StripIsSlice | src/App.js:172 | the trimmed answer is a slice of the input, and everything cut away on both sides is white space |
| Text.StripIdempotent | pyscript/unit_agent_with_checks.py:165 | stripping a stripped text changes nothing |
| Text.SplitOn | pyscript/unit_agent_with_checks.py:314 | `split('_')`: no piece holds the separator; there is exactly one piece when the text has no separator |
| Text.SplitOnJoin | pyscript/unit_agent_with_checks.py:314 | joining the pieces of a split with the separator gives the text back |
| Text.LastPiece | src/App.js:136 | `split('.').pop()`: the text after the last dot, a suffix without dots that is preceded by a dot, or the whole name when it has no dot |
| Text.NatToString | pyscript/unit_agent_with_checks.py:169 | the numeral of a month is a non-empty string of decimal digits with no leading zero |
| Text.NatToStringRoundTrip | pyscript/unit_agent_with_checks.py:314 | `int()` of the numeral written for n is n |
| WordCounting.WordCountIsWords | src/components/Question3.js:15-20 | the displayed count (pieces of `trim().split(/\s+/)`, 0 for blank) equals the number of words in the answer, counted independently as word starts |
| WordCounting.WordCountZeroIffBlank | src/components/Question3.js:16-17 | the count is 0 exactly when the answer is empty or all white space |
| WordCounting.WordsOfStrip | src/components/Question3.js:16 | trimming the answer does not change its number of words |
| WordCounting.SplitCountsWords | src/components/Question3.js:16 | splitting a text that does not end in white space on runs of white space gives one piece per word, plus one empty first piece when the text starts with white space |
| JsValue.Prop | src/App.js:128 | reading a property throws a TypeError exactly on `undefined`/`null`; on an object it gives the field or `undefined` |
| JsValue.DigitPrefix | src/App.js:156 | `parseInt` reads the longest prefix of digits, which stops before the first non-digit |
| JsValue.ParseIntTextNumeral | src/App.js:156 | `parseInt` of a decimal numeral gives its number |
| JsValue.ParseIntNumeral | src/App.js:156 | `parseInt` of the string of a natural number gives the number |
| JsValue.ParseIntTextNegative | src/App.js:156 | `parseInt` of "-" followed by a numeral gives the negative number |
| JsValue.ParseIntOfNumber | src/App.js:156 | `parseInt` of a safe integer (magnitude at most 2^53 - 1, written by `String` as plain digits) gives the same integer, sign included |
| Wizard.NextStep | src/App.js:177-179 | accepted q1..q4 move exactly one step forward; q4 and every step outside q1..q3 lead to finished |
| Wizard.PrevStep | src/App.js:200-205 | Back moves q2..q4 one step back, and Next from there returns to the same step; any other step goes home |
| Wizard.FirstMissing | src/App.js:126-131 | no error exactly when every required field passes; otherwise the error is that of the first failing field in list order |
| Wizard.ValidateRequired | src/App.js:126-131 | the validation loop returns the first failing field's error, or none |
| Wizard.ResumeFileName | src/App.js:136-137 | the stored name is the random part, a dot, and the original name's extension: the text after its last dot, or the whole name when it has no dot |
| Wizard.ResumeUrl | src/App.js:133-151 | no resume stores `null`; a resume whose file name cannot be read gives that TypeError; a failed upload or URL lookup gives its error; otherwise the public URL is stored, and an accepted resume always comes from a finished upload and URL lookup |
| Wizard.ProfileAnswers | src/App.js:153-164 | the q1 merge sets the nine profile keys to the profile's values and keeps every other key |
| Wizard.ProfileAge | src/App.js:156 | the age stored is the number typed into the age field |
| Wizard.TextAnswer | src/App.js:165-172 | a free-text answer (`stepData[key] \|\| stepData`) is accepted exactly when it is a string that is not blank, and it is stored trimmed |
| Wizard.StepAnswers | src/App.js:115-173 | steps other than q1..q4 change nothing; q2..q4 store the trimmed answer under their key or fail; q1 fails with the first missing required field's message; a q1 whose fields all pass fails with `ResumeUrl`'s error, or with the TypeError of reading `user.id` when no user is signed in, and is accepted exactly when a user is signed in and `ResumeUrl` succeeds, storing exactly `ProfileAnswers` of the prior answers, the user id, the profile read from the form and that URL |
| Wizard.StepAnswersWellFormed | src/App.js:153-172 | every accepted step keeps the answers to the wizard's own keys, with a string under q2..q4 |
| Wizard.ProfileAnswersWellFormed | src/App.js:153-164 | the q1 merge keeps the answers well formed |
| Wizard.PreviousAnswers | src/App.js:311-314 | q1 gets the whole answers object; q2..q4 get their stored answer, or "" when there is none |
| Wizard.PreviousAnswersNeverHydrate | src/App.js:311-314 | the property each question looks for in what it is handed is always falsy, so coming back never restores an answer |
| Wizard.LongAnswerAccepted | src/App.js:165-172 | a q3/q4 answer of 10 to 200 words, which the question lets through, is always accepted, and stored trimmed |
| Wizard.StepAnswersOf | src/App.js:121-173 | the handler's step-by-step validation and merge give exactly `StepAnswers`; only q1 uploads a file |
| Wizard.ProfileStep | src/App.js:121-164 | the q1 branch gives `StepAnswers(Q1, …)`; a resume is uploaded exactly when `q1` is readable, all required fields pass, and the resume is truthy with a readable file name, and it is stored as `ResumeFileName` of the random part and that resume's own name |
| Wizard.App.Render | src/App.js:250-365 | loading first, then the error when its message is not the falsy empty string, then sign-in; the main page has Back exactly on q1..q4, the question panel of the current step, Thank You on finished, and the home panel chosen by status 0/1/2 |
| Wizard.App.constructor | src/App.js:22-28 | nobody is signed in; the wizard is at home with no answers, and loading |
| Wizard.App.StartCareerPlanning | src/App.js:111-113 | the step becomes q1 and nothing else changes |
| Wizard.App.HandleBack | src/App.js:200-205 | the step becomes `PrevStep` of the old step and nothing else changes |
| Wizard.App.DismissError | src/App.js:258 | the error is cleared and nothing else changes |
| Wizard.App.UpdateUserStatus | src/App.js:224-238 | the status takes the new value only when a user is signed in and the update succeeds; otherwise the error is set and the status stays |
| Wizard.App.RequestCareerPlan | src/App.js:240-248 | the status becomes 2 on success; otherwise an error is reported and the status stays |
| Wizard.App.HandleNext | src/App.js:115-198 | a rejected step only sets the error; an accepted one commits the answers and moves to `NextStep`; on the last step the answers are upserted first, a failed upsert keeps the step, and a successful one finishes and raises the status to 1; a valid answer set stays valid |
| Wizard.App.Commit | src/App.js:175-197 | the commit half of `handleNext`, with the same case split on the step's result, the upsert and the status update |
| Wizard.App.HandleSignOut | src/App.js:207-222 | a successful sign-out resets user, status, step and answers together; a failed one changes only the error; loading ends |
| Wizard.App.FetchUserStatus | src/App.js:30-52 | a found row sets the status; not-found creates a row with status 0; any other error is reported and the status stays |
| Wizard.App.CreateUserStatus | src/App.js:54-69 | a successful insert sets the status to 0; a failed one reports the error |
| Wizard.App.OnAuthStateChange | src/App.js:95-104 | the user becomes the session's user; with a session, status and error follow the four outcomes of reading the status row (found, created, creation failed, lookup failed), and without one the status is cleared; loading ends |
| Wizard.App.CheckSession | src/App.js:72-91 | a session error is reported and changes nothing else; otherwise user, status and error follow the same cases as a notification; loading ends |
| ProfileForm.InitialForm | src/components/Question1.js:5-14 | the form starts with the seven text fields empty and no resume |
| ProfileForm.ChangedValue | src/components/Question1.js:22-28 | a file input stores its first file (`undefined` when none is chosen); any other input stores its value |
| ProfileForm.Form.constructor | src/components/Question1.js:5-14 | the form starts as `InitialForm` |
| ProfileForm.Form.Hydrate | src/components/Question1.js:16-20 | a present `previousAnswers.q1` replaces the form; otherwise the form is unchanged |
| ProfileForm.Form.HandleChange | src/components/Question1.js:22-28 | only the named field changes, to `ChangedValue` |
| ProfileForm.Form.Submit | src/components/Question1.js:30-40 | the wizard gets `{q1: payload}`: the form's fields, with `resume` being the chosen file, or absent when no file is chosen |
| LongAnswer.LongAnswerForm.constructor | src/components/Question3.js:5-7 | empty answer, count 0, not valid, and the derived state agrees with the answer |
| LongAnswer.LongAnswerForm.SetAnswer | src/components/Question3.js:15-20 | after typing, the count matches the answer, and the answer is valid exactly when it has 10 to 200 words |
| LongAnswer.LongAnswerForm.Hydrate | src/components/Question3.js:9-13 | the answer becomes `String(previousAnswers[key])` when both are truthy; given a string, as the wizard passes, it never changes |
| LongAnswer.LongAnswerForm.Submit | src/components/Question3.js:22-28 | `{[key]: answer}` is sent, untrimmed, exactly when the answer has 10 to 200 words |
| LongAnswer.LongAnswerForm.SubmitDisabled | src/components/Question4.js:66 | the submit button is disabled exactly when the word count is out of range |
| ChatWindow.LastN | src/components/JakeChatbot.js:53 | `slice(-n)` keeps the last min(length, n) elements |
| ChatWindow.Role | src/components/JakeChatbot.js:34 | the user's messages get role "user"; every other message gets "assistant" |
| ChatWindow.ToTurns | src/components/JakeChatbot.js:33-36 | one history turn per message, in order |
| ChatWindow.History | src/components/JakeChatbot.js:33-38 | the history is the last nine earlier messages as turns, then the new input as a user turn (at most ten entries) |
| ChatWindow.ReplyText | src/components/JakeChatbot.js:51-57 | the bot text is `data.response`: the apology when the request threw or the body is `null`, the field's value when it is there, and `undefined` for a body without it (an error answer, which `fetch` does not reject) |
| ChatWindow.Chat.constructor | src/components/JakeChatbot.js:8-12 | closed, not minimized, no messages, empty input, not processing |
| ChatWindow.Chat.ToggleChat | src/components/JakeChatbot.js:15 | flips open/closed and nothing else |
| ChatWindow.Chat.ToggleMinimize | src/components/JakeChatbot.js:16 | flips minimized and nothing else |
| ChatWindow.Chat.HandleInputChange | src/components/JakeChatbot.js:18 | the input takes the typed value and nothing else changes |
| ChatWindow.Chat.Send | src/components/JakeChatbot.js:24-38 | blank input does nothing; otherwise the user message is appended, the input is cleared, processing starts, and the request carries the input and its history |
| ChatWindow.Chat.Receive | src/components/JakeChatbot.js:51-60 | one bot message with `ReplyText` of the outcome is appended; the last 20 messages are kept; processing ends |
| ChatWindow.Chat.HandleSubmit | src/components/JakeChatbot.js:24-62 | a whole submission: nothing for blank input, otherwise the request carries the input and its history and the list becomes `AfterExchange`, whose bot text is `ReplyText` of the outcome, `undefined` included |
| ChatWindow.ExchangeShape | src/components/JakeChatbot.js:26-60 | after one exchange at most 20 messages remain: the latest earlier messages in order, then the user's input, then the bot's answer |
| PlanProgress.TickValue | src/components/PlanCreationProgress.js:42-51 | a tick adds 5 below 95 and gives 95 from there on; multiples of 5 stay multiples of 5, at most 95 |
| PlanProgress.TicksFromZero | src/components/PlanCreationProgress.js:42-51 | from 0, n ticks show 5n, capped at 95 |
| PlanProgress.TicksFrom | src/components/PlanCreationProgress.js:42-51 | from any multiple of 5 up to 95, n ticks add 5n, capped at 95 |
| PlanProgress.Decide | src/components/PlanCreationProgress.js:16-40 | a found record sets the bar to 100 only while mounted; a missing one re-arms the check only while mounted; an error other than not-found stops the checks |
| PlanProgress.ProgressView.constructor | src/components/PlanCreationProgress.js:11-59 | 0%, the first message, both intervals armed, one check scheduled, and the invariant holds |
| PlanProgress.ProgressView.Tick | src/components/PlanCreationProgress.js:42-51 | while mounted and armed, the bar advances by `TickValue`; the bar stays on the 0..100 scale in steps of 5, and at or below 95 until the record is found |
| PlanProgress.ProgressView.RotateMessage | src/components/PlanCreationProgress.js:53-57 | while mounted and armed, the message becomes the picked one; nothing else changes |
| PlanProgress.ProgressView.CheckPlanStatus | src/components/PlanCreationProgress.js:16-40 | the bar reaches 100 only when `Decide` says the record was found while mounted; a new check is pending exactly when `Decide` re-arms |
| PlanProgress.ProgressView.Unmount | src/components/PlanCreationProgress.js:61-65 | unmounting disarms both intervals and keeps the invariant |
| PlanDisplay.Outlines | src/components/CareerPlanDisplay.js:45-49 | the reference grouping: a month's outlines in row order, empty exactly when no row has that month |
| PlanDisplay.GroupByMonth | src/components/CareerPlanDisplay.js:45-49 | the `reduce` builds a map holding exactly the months of the rows, each with its outlines in row order |
| PlanDisplay.GroupingKeepsEveryRow | src/components/CareerPlanDisplay.js:45-49 | across all months the lists hold as many outlines as there are rows: none lost, none listed twice |
| PlanDisplay.TabKeys | src/components/CareerPlanDisplay.js:71 | the tab keys are exactly the theme keys starting with "month_" |
| PlanDisplay.MonthTabs | src/components/CareerPlanDisplay.js:71-81 | one tab per tab key, in key order; tab i selects month i + 1 |
| PlanDisplay.TabsOfThemeRow | src/components/CareerPlanDisplay.js:71-79 | for a theme row with keys "month_1".."month_n" in order, tab i is built from "month_i" and selects i, so each tab shows its own month's theme |
| PlanDisplay.Lookup | src/components/CareerPlanDisplay.js:94 | the theme row's value under a key, present exactly when the key is, taken from the first entry with that key |
| PlanDisplay.TasksFor | src/components/CareerPlanDisplay.js:98 | a month with no key shows no tasks (sparse months are not an error) |
| PlanDisplay.PlanDisplayView.constructor | src/components/CareerPlanDisplay.js:15-19 | no themes, no tasks, loading, no error, month 1 selected |
| PlanDisplay.PlanDisplayView.FetchPlanData | src/components/CareerPlanDisplay.js:21-57 | a failed theme query skips the task query and only sets the error; a failed task query only sets the error; otherwise the theme row is stored and the grouped tasks agree with `Outlines`; loading ends in every case |
| PlanDisplay.PlanDisplayView.SelectMonth | src/components/CareerPlanDisplay.js:74 | a tab click selects its month and nothing else changes |
| PlanDisplay.PlanDisplayView.ShownTheme | src/components/CareerPlanDisplay.js:94 | a theme is shown exactly when the row has "month_<selected>", and it is the value of the first entry under that key |
| PlanDisplay.PlanDisplayView.ShownTasks | src/components/CareerPlanDisplay.js:98 | the selected month's list, or an empty list for a month without tasks |
| PlanDict.Set | pyscript/unit_agent_with_checks.py:169 | `d[key] = v`: an existing key keeps its place and gets the new value; a new key goes last; keys stay distinct |
| PlanDict.SetNewKey | pyscript/unit_agent_with_checks.py:169 | a key not yet present is appended |
| PlanDict.Del | pyscript/unit_agent_with_checks.py:261 | `del d[key]` removes exactly that entry, keeps the rest in order, and the key is gone |
| PlanDict.DelUndoesSet | pyscript/unit_agent_with_checks.py:259-262 | deleting the month just added restores the plan as it was before the month was planned |
| PlanDict.MonthKey | pyscript/unit_agent_with_checks.py:169 | `f"month_{n}"` starts with "month_" followed by at least one character |
| PlanDict.MonthKeyInjective | pyscript/unit_agent_with_checks.py:169 | different months have different keys |
| PlanDict.ParseMonthKey | pyscript/unit_agent_with_checks.py:314 | `int(key.split('_')[1])` is defined only on keys with an underscore |
| PlanDict.ParseMonthKeyRoundTrip | pyscript/unit_agent_with_checks.py:314 | a month key reads back as its month |
| PlanDict.MonthKeys | pyscript/unit_agent_with_checks.py:302 | the keys "month_1".."month_n", in order |
| PlanDict.MonthKeysDistinct | pyscript/unit_agent_with_checks.py:169 | a plan keyed "month_1".."month_n" has no key twice |
| PlanDict.MonthKeysExclude | pyscript/unit_agent_with_checks.py:169 | a later month's key is not among the keys of the earlier months |
| PlanDict.MonthsInOrderKeys | pyscript/unit_agent.py:160 | a dictionary's keys are "month_1", "month_2", … position by position exactly when they are the month keys of its length |
| MonthPlans.ThemeOf | pyscript/unit_agent_with_checks.py:164-165 | the theme is the matched text stripped, or "No theme specified"; either way it is already stripped |
| MonthPlans.MonthRows | pyscript/unit_agent_with_checks.py:316-321 | one row per task of the month, in task order |
| MonthPlans.FlatThemes | pyscript/unit_agent_with_checks.py:311-315 | the theme dictionary has distinct keys |
| MonthPlans.Flatten | pyscript/unit_agent_with_checks.py:311-321 | the flattening loops build exactly `FlatThemes` and `FlatRows` |
| MonthPlans.AppendMonthRows | pyscript/unit_agent_with_checks.py:316-321 | the inner loop appends `MonthRows` of the month |
| MonthPlans.FlatRowsCount | pyscript/unit_agent_with_checks.py:311-324 | one row per task: as many rows as tasks in the plan |
| MonthPlans.FlatRowsMembers | pyscript/unit_agent_with_checks.py:311-321 | a row (m, t) is present exactly when some key reads as m and t is among that entry's tasks |
| MonthPlans.FlatRowsOrdered | pyscript/unit_agent_with_checks.py:311-326 | a plan keyed "month_1".."month_n" in order flattens to rows already ordered by month, every month between 1 and n |
| MonthPlans.MonthKeysRead | pyscript/unit_agent_with_checks.py:314 | in such a plan each key reads back as its position plus one |
| MonthPlans.ThemeEntries | pyscript/unit_agent_with_checks.py:311-315 | the reference theme dictionary: entry i is ("month_{i+1}", theme of entry i) |
| MonthPlans.FlatThemesOfMonths | pyscript/unit_agent_with_checks.py:311-315 | for such a plan the theme loop gives `ThemeEntries`: same keys in the same order, each with its month's theme |
| MonthPlans.SortByMonth | pyscript/unit_agent_with_checks.py:326 | `sort_values('month')`: ordered by month, a rearrangement of the input (same multiset), same length |
| MonthPlans.BuildFrames | pyscript/unit_agent_with_checks.py:311-329 | a plan without any task raises (the task frame has no "month" column to sort by); otherwise the theme frame is `FlatThemes` and the task rows are the plan's rows, one per task, ordered by month, with the order inside a month left open |
| CheckedPlanner.TaskContentFormat | pyscript/unit_agent_with_checks.py:128 | an outline is the bold stripped title line, then the stripped description, then the time-frame line, each recoverable by position (a statement of the format; Dafny proves it from the definitions alone) |
| CheckedPlanner.ExtractedTasks | pyscript/unit_agent_with_checks.py:120-132 | one task per match, in match order, with the match's number and outline |
| CheckedPlanner.ExtractTasks | pyscript/unit_agent_with_checks.py:120-132 | the appending loop gives `ExtractedTasks` |
| CheckedPlanner.CheckVerdict | pyscript/unit_agent_with_checks.py:231-243 | an unparsable reply fails with the fixed explanation and suggestion; otherwise it passes exactly when "result" is true, and a missing explanation or suggestion list takes its default |
| CheckedPlanner.PlanningState.constructor | pyscript/unit_agent_with_checks.py:273-281 | month 1, empty plan, a passing check, and the between-rounds invariant holds |
| CheckedPlanner.PlanningState.PlanMonth | pyscript/unit_agent_with_checks.py:134-177 | the current month's entry becomes the reply's theme and tasks, suggestions are cleared, nothing else changes |
| CheckedPlanner.PlanningState.CheckPlan | pyscript/unit_agent_with_checks.py:179-252 | the verdict with its defaults is stored; plan and month are unchanged |
| CheckedPlanner.PlanningState.Router | pyscript/unit_agent_with_checks.py:254-270 | past month 12 it ends; a failed check deletes the month's entry and plans it again; a pass ends at month 12 and otherwise advances one month |
| CheckedPlanner.PlanningState.Round | pyscript/unit_agent_with_checks.py:284-298 | a plan/check/route round keeps months 1..m-1 planned: a pass appends "month_m" with the reply's own theme and tasks and moves to m+1, a failure leaves plan and month as they were and plans again, the round ends exactly when month 12 passes, and the end leaves exactly "month_1".."month_12" |
| CheckedPlanner.FromPassedRoundsStep | pyscript/unit_agent_with_checks.py:169 | keeping a passing round's entry keeps every entry traced to a passing round |
| CheckedPlanner.FromPassedRoundsLater | pyscript/unit_agent_with_checks.py:259-262 | a round whose entry is deleted keeps every remaining entry traced to a passing round |
| CheckedPlanner.GeneratePlan | pyscript/unit_agent_with_checks.py:272-329 | when the loop ends, the plan holds "month_1".."month_12", each entry the extraction of a planner reply from a round whose check passed, and its flattened rows are already in month order; it raises exactly when no month has a task, and otherwise the themes are `ThemeEntries` and the rows are the plan's rows, one per task, sorted by month |
| SimplePlanner.SelectPlan | pyscript/unit_agent.py:238-244 | the plan is the last output's top-level plan, else the checker's plan, else none |
| SimplePlanner.PlanState.constructor | pyscript/unit_agent.py:203-208 | month 1, an empty plan, no check yet |
| SimplePlanner.PlanState.PlanMonth | pyscript/unit_agent.py:133-161 | the month's entry is written from the reply and nothing else changes |
| SimplePlanner.PlanState.CheckPlan | pyscript/unit_agent.py:163-195 | an unreadable reply raises and changes nothing; otherwise the verdict is stored and the month advances, passed or not |
| SimplePlanner.PlanState.Round | pyscript/unit_agent.py:133-195 | a round appends the month's entry; it raises exactly when the checker reply is unreadable, and otherwise the month advances with the invariant kept |
| SimplePlanner.PlanState.Router | pyscript/unit_agent.py:197-200 | the graph ends exactly when the month is past 12 |
| SimplePlanner.Finish | pyscript/unit_agent.py:238-267 | no selected plan gives two empty frames; otherwise the frames are `BuildFrames` of the selected plan: a raise when it has no task, else its themes and its rows sorted by month |
| SimplePlanner.RunGraph | pyscript/unit_agent.py:211-231 | the run raises exactly when some checker reply read was unreadable, and then at the first one: it is the last reply read and every earlier one was readable; otherwise exactly 12 rounds run, the keys are months 1..12 in order, entry k comes from round k's reply, and the last output carries the plan under "checker" |
| SimplePlanner.GeneratePlan | pyscript/unit_agent.py:202-267 | a raise comes at the first unreadable checker reply, every earlier one read; unless a checker reply raises, "month_1".."month_12" hold round k's entry in order; the sort raises exactly when no month has a task, and otherwise the frames hold `ThemeEntries` and the plan's rows, one per task, sorted by month |

## Left out

- Network, database, storage, authentication and language-model calls are not modelled as calls. Each becomes a parameter saying how it ended, so retries, latency and transport timeouts are out of scope.
- Regular expressions are not modelled. The planner reply is given as the groups its patterns matched: the theme group, and the task tuples or task lines.
- pandas DataFrames are modelled as the dictionary and the row list they are built from. The float `task_number` is a natural number.
- Rendering beyond `Wizard.App.Render` is not modelled: animations, styles, markdown, and scrolling the chat to the end.
- `alert` after a plan request is not modelled.
- The sign-in form, the second question and the course database are not part of this model. `SignInUp.js` and `Question2.js` are missing from the sources. Step q2 is handled by the shell exactly like q3 and q4.
- `Math.random()` and the timers are not modelled. They appear as parameters and as explicit step methods.
- The chat window's late replies after the window is gone are not modelled. A component has no unmount here.
- The checker's `result` is a boolean when present. A non-boolean value would be tested for truthiness by the router; this is not modelled.
- Only JSON objects are modelled as checker replies. A reply that parses as something else would make `.get` raise; this is not modelled.
- The graph run's recursion limit is not modelled. Twelve rounds stay below it.
- The state's `user_info` and `resume_content` only feed the prompts, and they are not modelled. Missing keys in them would raise before any model-relevant step.
- JsValue.Value: JavaScript numbers are modelled as unbounded integers, with no fractions and no rounding. Lemmas about writing numbers back as text are limited to safe integers (magnitude at most 2^53 - 1).
- Python's `int()` is not modelled in full: it also accepts surrounding white space, a sign and underscores. `PlanDict.ParseMonthKey` reads plain decimal digits, and these are all that `MonthKey` writes.
- JavaScript object key order is not modelled. Integer-like keys come first in JavaScript. The theme row is a list of entries in column order.
- CheckedPlanner.GeneratePlan: the loop has no bound on regenerations. It is driven by a finite sequence of replies, so when the replies run out first, `finished` is false and nothing is claimed about termination.
- MonthPlans.Flatten: a key that is not "month_<n>" would raise `IndexError`/`ValueError`. The model requires every key to parse, and the planners only write such keys.
- MonthPlans.SortByMonth: pandas' default sort is not stable, so the order of the tasks within one month is not modelled. The contracts that use the sort promise only "ordered by month and a rearrangement of the rows".
- ProfileForm.Form.Hydrate: a truthy `q1` that is not an object would be stored as the whole form by the component. The model leaves the form unchanged in that case, and the wizard never passes one.
- SimplePlanner.RunGraph: the streamed outputs are reduced to what the final selection reads. The planner node's output has no "checker" key, and the checker node's output carries the plan under "checker".
- PlanProgress.ProgressView.CheckPlanStatus: the effect runs again when `userId` changes; this is not modelled, so the view serves one user from mount to unmount.
- PlanProgress.ProgressView.RotateMessage: the random pick is a parameter, and only its range is constrained.
