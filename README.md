# CodeClip core, modelled in Dafny

CodeClip is a static web site for practising coding challenges. This project models the logic
behind its pages and proves properties of that model:

- **Progress dashboard** (`scripts/progress-dashboard.js`). The saved progress record in local
  storage: loading it (with the repair of lists saved as objects), the demonstration data the
  profile page puts into an empty record, saving it, and recording a completed challenge. Recording covers the id, the daily activity entry, the skill count, the
  streak and the achievement check. The achievement catalogue has its points, rarity, targets,
  progress bars and the "recent activity" list.
- **Streak calendar and goals** (`scripts/streak-goal-manager.js`). The activity calendar with its
  current streak, longest streak and total. The weekly and monthly goal lists: loading them (or
  the defaults), creating goals, deleting goals and counting completed goals.
- **Login form** (`scripts/login-form.js`). The rules of `validateField`, including the three
  regular expressions; the mode switch that empties the form; the all-fields check on submit.
- **Snippets** (`scripts/snippets.js`). `escapeHtml`.
- **Challenge list** (`scripts/challenges.js`). The built-in challenges; the search and category
  filter; status badges; the challenge a card click reports to the dashboard.
- **Router and leaderboard** (`scripts/app.js`). The route table, the page a path shows, the
  decisions of `navigate`, `handleRoute` and `popstate`, and the leaderboard sort, ranks and live
  update.
- **Challenge submission** (`javascript-excecutor.js`). The submit checks, their messages and
  their order, and the file name of a code download.

Files: `Wrappers.dfy` (Option/Result), `Text.dfy` (white space, trimming, case mapping, decimal
numerals), `Sequences.dfy`, `ProgressRecord.dfy`, `Achievements.dfy`, `Progress.dfy`,
`Calendar.dfy`, `Goals.dfy`, `Login.dfy`, `Snippets.dfy`, `ChallengeList.dfy`, `Routing.dfy`,
`Leaderboard.dfy`, `SubmitForm.dfy`.

Objects whose fields the source updates in place are classes whose methods are proved against
specification functions:

- `ProgressDashboard`, `AchievementSystem`, `StreakCalendar`, `GoalManager`;
- `LoginPage`, `Router`, `LeaderboardView`, `ChallengeForm`.

The pure helpers are functions. Lemmas state their properties.

Modelling conventions:

- A day `YYYY-MM-DD` is an `int` (days since 1970-01-01). Formatting a day is injective and keeps
  order, so map lookups and the `.sort()` of day keys agree with integer order. "Yesterday" is
  `today - 1`.
- The clock, `Math.random` and the success of a local-storage write are parameters. The progress record's writer catches a refused write; the goal lists' writer does not, so there a refused write is reported as a failure that leaves the in-memory lists changed and the stored copy as it was.
- A JSON text that parses is given as its parsed value.
- `skillProgress` is an ordered list of `(name, count)` entries, because the source's `reduce`
  over `Object.entries` depends on key order.

## Model

| member | source | states |
|---|---|---|
| ProgressRecord.DefaultRecord | scripts/progress-dashboard.js:32-54 | The default record has zero counters, no completions or days, every one of the seven skills at 0 and no other key, and an empty streak; it satisfies the tracker's invariant |
| ProgressRecord.SkillCountSpec | scripts/progress-dashboard.js:134 | `skillProgress[name]` is undefined exactly when no entry has the key, and otherwise is the count of an entry with that key |
| ProgressRecord.IncrementSkill | scripts/progress-dashboard.js:134-136 | The skill increment keeps the keys and their order |
| ProgressRecord.IncrementSkillCount | scripts/progress-dashboard.js:134-136 | The increment adds one to the count of the completed category when it is a key and leaves every other count as it was |
| ProgressRecord.IncrementSkillAbsent | scripts/progress-dashboard.js:134 | A category that is not a key of `skillProgress` changes nothing |
| Progress.Load | scripts/progress-dashboard.js:31-81 | An empty or unreadable slot gives the default record. For a parsed record, each stored field is taken as stored and each missing one gets its default: the clock for the two dates, 0 for the counters, empty lists, a null streak, the seven skills at 0, no days. Each stored day keeps its counts, keeps array-valued lists and gets `[]` for object-valued ones |
| Progress.LoadAfterSave | scripts/progress-dashboard.js:74-89 | Loading what `saveProgressData` stored gives back the same record, whatever the clock |
| Progress.LoadProgressData | scripts/progress-dashboard.js:56-76 | The in-place repair loop, then the merge, computes exactly `Load` |
| Progress.RepairDays | scripts/progress-dashboard.js:62-72 | The repair keeps every day, leaves what each day reads as unchanged, and turns every list into an array |
| Progress.StreakAfter | scripts/progress-dashboard.js:159-177 | Active yesterday adds one to the streak, active today keeps it, otherwise it restarts at 1; the longest streak is the maximum of the old longest and the new current; the last active day becomes today |
| Progress.AddIfAbsent | scripts/progress-dashboard.js:126-131 | The value is appended only when absent, so the list keeps its items and gains no duplicate |
| Progress.AddCompletion | scripts/progress-dashboard.js:109-136 | A new completion appends the id, adds one to the total, fills today's entry and tallies the skill, and touches nothing else |
| Progress.BucketOn | scripts/progress-dashboard.js:114-121 | A day without an entry starts from an empty one |
| Progress.AddToBucket | scripts/progress-dashboard.js:123-131 | Today's entry counts one more challenge and holds the difficulty and the category, each once |
| Progress.FillBucket | scripts/progress-dashboard.js:123-131 | The in-place update of the day's entry computes `AddToBucket` |
| Progress.Track | scripts/progress-dashboard.js:100-142 | A duplicate id leaves the record unchanged; otherwise the record is the completion, then the streak update, then the achievement check |
| Progress.WithAchievements | scripts/progress-dashboard.js:142 | The achievement check only appends ids to the record's achievements |
| Progress.TrackPreservesValid | scripts/progress-dashboard.js:100-142 | Each completion keeps the invariant: the total equals the number of ids, the ids and each day's difficulties and categories have no repeats, the skill keys stay distinct as an object's keys are, longest is at least current, and no achievement is held twice |
| Progress.TrackAllPreservesValid | scripts/progress-dashboard.js:100-142 | The invariant holds after any sequence of completions |
| Progress.TrackTwiceCountsOnce | scripts/progress-dashboard.js:102-107 | The same title and difficulty completed twice, on any days, is counted once |
| Progress.TrackNeverLowersXP | scripts/progress-dashboard.js:142 | A completion never lowers the XP total |
| Progress.TrackUnlocksChallenge10 | scripts/progress-dashboard.js:1839-1889 | Reaching 10 completions unlocks `challenge_10` |
| Progress.TrackWithholdsChallenge25 | scripts/progress-dashboard.js:1839-1889 | Below 25 completions, `challenge_25` stays locked |
| Progress.FirstCompletionScenario | scripts/progress-dashboard.js:100-154 | From the default record, one completion gives a total of 1, an arrays count of 1, a streak of 1 and `first_challenge` |
| Progress.ConsecutiveDaysScenario | scripts/progress-dashboard.js:159-177 | Distinct completions on three consecutive days give a streak of 3 |
| Progress.GapScenario | scripts/progress-dashboard.js:166-169 | A day missed in between restarts the streak at 1 |
| Progress.SameDayScenario | scripts/progress-dashboard.js:163-169 | A second completion on the same day leaves the streak unchanged |
| Progress.RepeatedChallengeKeepsStreak | scripts/progress-dashboard.js:104-107 | Repeating the same challenge on the following days does not extend the streak, because the duplicate returns early |
| Progress.WindowAfterUpdate | scripts/progress-dashboard.js:788-802 | Changing today's entry changes a window ending today by the difference |
| Progress.TrackAddsOneToWindow | scripts/progress-dashboard.js:788-802 | A new completion adds exactly one to the weekly total |
| Progress.WindowCoversToday | scripts/progress-dashboard.js:788-802 | With no negative counts, the weekly total is at least today's count |
| Progress.BeforeUnderscore | scripts/progress-dashboard.js:1428 | `split('_')[0]` is the prefix before the first underscore and holds no underscore |
| Progress.AchievementName | scripts/progress-dashboard.js:1438-1440 | The name of the catalogue entry with the id, or "Problem Solver" when none has it |
| Progress.TopSkill | scripts/progress-dashboard.js:1459-1460 | The `reduce` gives an entry whose count is at least every count and the start value's; because `a[1] > b[1] ? a : b` keeps the running best only when strictly ahead, a tie goes to the later entry |
| Progress.ActivityItems | scripts/progress-dashboard.js:1421-1467 | At most four entries, in order: the last completion when there is one, the last achievement (with its catalogue name and the number held) when there is one, the streak when it is positive, and the top skill when its count is positive; the length counts exactly the entries present |
| Progress.ProgressDashboard.constructor | scripts/progress-dashboard.js:8-17 | The dashboard loads the record with a fresh achievement system; on the profile page a record with a total of 0 is replaced by the demonstration data and saved (lines 183-186), anywhere else the loaded record and the slot are kept |
| Progress.ProgressDashboard.AddSampleData | scripts/progress-dashboard.js:214-258 | The completions, total, skills, streak and achievements become the demonstration values, the seven days ending today get demonstration entries, earlier days stay, and the stamped record is saved |
| Progress.SampleBucketBounds | scripts/progress-dashboard.js:249-254 | With `Math.random()` in [0, 1), a demonstration day has 1 to 3 challenges and 30 to 89 minutes |
| Progress.SampleDaysSpec | scripts/progress-dashboard.js:247-255 | Turn `i` of the loop writes day `today - i`; the days written are exactly the seven ending today, and every other day is unchanged |
| Progress.SampleDataValid | scripts/progress-dashboard.js:214-258 | The demonstration record keeps the tracker's invariant when the days it started from had no repeated difficulties or categories |
| Progress.SampleWeeklyTotal | scripts/progress-dashboard.js:247-255 | With draws in [0, 1), the demonstration week totals between 7 and 21 challenges |
| Progress.SampleWindowBounds | scripts/progress-dashboard.js:788-802 | A window of `n` days holding 1 to 3 challenges each totals between `n` and `3n` |
| Progress.ProgressDashboard.CalculateTotalXP | scripts/progress-dashboard.js:713-717 | The XP total is between 50 and 1000 per held achievement |
| Progress.ProgressDashboard.SaveProgressData | scripts/progress-dashboard.js:86-95 | `lastUpdated` is stamped even when the write fails; the slot holds the record exactly when the write succeeds, and the result says which |
| Progress.ProgressDashboard.UpdateStreak | scripts/progress-dashboard.js:159-177 | The in-place streak update is `StreakAfter` |
| Progress.ProgressDashboard.RecordCompletion | scripts/progress-dashboard.js:109-136 | The in-place updates of a new completion are `AddCompletion` |
| Progress.ProgressDashboard.TrackChallengeCompletion | scripts/progress-dashboard.js:100-154 | A duplicate changes nothing; otherwise the record becomes `Track` stamped with the save time, the slot is written when storage is writable, and `newlyUnlocked` holds the entries this call unlocked |
| Progress.ProgressDashboard.CalculateWeeklyTotal | scripts/progress-dashboard.js:788-802 | The loop sums today's count and the six days before |
| Progress.ProgressDashboard.GetRecentActivities | scripts/progress-dashboard.js:1421-1479 | The derived entries, then "Welcome" entries up to three |
| Achievements.Ids | scripts/progress-dashboard.js:1839-1889 | The ids of a catalogue, in order |
| Achievements.CatalogueIdsDistinct | scripts/progress-dashboard.js:1839-1889 | The seven catalogue ids are distinct |
| Achievements.Unlock | scripts/progress-dashboard.js:1897-1909 | One pass appends to the held ids exactly the ids of the entries it unlocks |
| Achievements.UnlockSound | scripts/progress-dashboard.js:1897-1909 | Each entry a pass unlocks comes from the catalogue, was not held, and its condition holds |
| Achievements.UnlockComplete | scripts/progress-dashboard.js:1897-1909 | After a pass, every entry whose condition holds is held |
| Achievements.UnlockKeepsDistinct | scripts/progress-dashboard.js:1897-1909 | A pass never makes an id appear twice |
| Achievements.UnlockIsEligible | scripts/progress-dashboard.js:1897-1909 | With distinct ids, a pass unlocks exactly the eligible entries, in catalogue order |
| Achievements.UnlockIdempotent | scripts/progress-dashboard.js:1897-1909 | A second check on the same record unlocks nothing |
| Achievements.AchievementSystem.constructor | scripts/progress-dashboard.js:1838-1889 | Nothing is newly unlocked at first |
| Achievements.AchievementSystem.CheckAndUnlock | scripts/progress-dashboard.js:1897-1916 | The record changes only by the appended ids of `Unlock`, and `newlyUnlocked` holds the entries of this call |
| Achievements.UnlockPass | scripts/progress-dashboard.js:1897-1909 | The `forEach`, which updates the record as it walks, computes `Unlock` |
| Achievements.GetAchievementPoints | scripts/progress-dashboard.js:697-708 | Points lie between 50 and 1000, and an unlisted id is worth 50 |
| Achievements.TotalXP | scripts/progress-dashboard.js:713-717 | The total lies between 50 and 1000 points per held id |
| Achievements.TotalXPAppend | scripts/progress-dashboard.js:713-717 | XP is additive over appended ids |
| Achievements.GetAchievementRarity | scripts/progress-dashboard.js:574-585 | One of the four rarities, and `common` for an unlisted id |
| Achievements.TargetsMatchRules | scripts/progress-dashboard.js:646-676 | For every entry with a target, its condition holds exactly when the progress figure has reached the target |
| Achievements.GetAchievementTarget | scripts/progress-dashboard.js:666-676 | A target exists exactly for the catalogue ids other than `first_challenge`, and is at least 3 |
| Achievements.GetUserProgressForAchievement | scripts/progress-dashboard.js:646-661 | A figure only for ids with a target; among those it is missing only for a skill achievement whose key is absent from `skillProgress` |
| Achievements.GetAchievementHint | scripts/progress-dashboard.js:681-692 | An id outside the catalogue gets the generic hint |
| Achievements.AchievementSystem.GetAllAchievements | scripts/progress-dashboard.js:1914-1916 | The seven catalogue entries, with distinct ids |
| Achievements.AchievementSystem.GetNewAchievements | scripts/progress-dashboard.js:1921-1923 | The entries the latest `checkAndUnlock` unlocked |
| Achievements.GetAchievementProgressInfo | scripts/progress-dashboard.js:606-641 | Unlocked iff marked completed; a bar only with a non-zero figure and target taken from the two tables; otherwise the hint |
| Calendar.StreakBack | scripts/streak-goal-manager.js:143-160 | The count of active days walking back from today, stopping at the first inactive day or after the limit |
| Calendar.StreakBackUnique | scripts/streak-goal-manager.js:143-160 | Those conditions determine the count |
| Calendar.SortedKeys | scripts/streak-goal-manager.js:164 | The sorted keys are strictly ascending and are exactly the map's keys |
| Calendar.GenerateCalendarData | scripts/streak-goal-manager.js:16-50 | Every day from the first to today holds its draw capped at 4; the five days ending today are at least 1; all values lie in 0..4 |
| Calendar.GeneratedStreakAtLeastFive | scripts/streak-goal-manager.js:36-47 | A generated calendar has a current streak of at least 5 |
| Calendar.LongestRun | scripts/streak-goal-manager.js:162-178 | The scan returns the length of the longest run of positive values: one such run exists and none is longer |
| Calendar.RunAtMostSum | scripts/streak-goal-manager.js:162-182 | With no negative value, a run of positive values is no longer than the sum |
| Calendar.SumAtMostFour | scripts/streak-goal-manager.js:180-182 | Intensities of at most 4 sum to at most four per day |
| Calendar.StreakCalendar.constructor | scripts/streak-goal-manager.js:4-8 | The calendar holds exactly the days from the first day to today and the five days ending today; each day holds its draw capped at 4, raised to at least 1 on the last five days (1 on a forced day before the first day), so every value is in 0..4 and the last five days are active |
| Calendar.StreakCalendar.CalculateCurrentStreak | scripts/streak-goal-manager.js:143-160 | The loop computes `StreakBack` over at most 365 days |
| Calendar.StreakCalendar.CalculateLongestStreak | scripts/streak-goal-manager.js:162-178 | The longest run over the keys in ascending order |
| Calendar.StreakCalendar.CalculateTotalContributions | scripts/streak-goal-manager.js:180-182 | With every intensity at most 4, the total is at most four per day |
| Calendar.StreakCalendar.LongestWithinTotal | scripts/streak-goal-manager.js:162-182 | The longest streak is at most the total, which is at most four per day |
| Goals.CompletedCount | scripts/streak-goal-manager.js:284-285 | The number of completed goals is at most the length, and zero exactly when none is completed |
| Goals.CompletedCountAppend | scripts/streak-goal-manager.js:284-285 | Appending a goal adds one exactly when it is completed |
| Goals.DefaultGoals | scripts/streak-goal-manager.js:220-275 | Three weekly and two monthly defaults with distinct ids, one completed in each list, none with a type |
| Goals.LoadGoals | scripts/streak-goal-manager.js:206-276 | Nothing stored gives the defaults; a stored value is returned as it is; unparseable text throws |
| Goals.LoadAfterSave | scripts/streak-goal-manager.js:206-280 | Loading what `saveGoals` stored gives the lists back |
| Goals.NewGoal | scripts/streak-goal-manager.js:409-419 | A new goal is pending at 0, takes its type and target from the form, and its id is `goal_` followed by the time |
| Goals.NewGoalIdsDiffer | scripts/streak-goal-manager.js:410 | Goals created at different times get different ids |
| Goals.WithoutId | scripts/streak-goal-manager.js:497-498 | The filter keeps exactly the goals with other ids, each as many times as it occurred, in order, and changes nothing when the id is absent |
| Goals.WithoutIdIdempotent | scripts/streak-goal-manager.js:497-498 | Deleting an id twice is deleting it once |
| Goals.WithoutIdCompleted | scripts/streak-goal-manager.js:497-498 | Deleting never raises the completed count |
| Goals.AddGoal | scripts/streak-goal-manager.js:422-426 | A weekly goal goes on the weekly list, any other type on the monthly one |
| Goals.AddGoalKeepsCompleted | scripts/streak-goal-manager.js:404-434 | A new goal leaves both completed counts unchanged |
| Goals.GoalManager.constructor | scripts/streak-goal-manager.js:196-199 | The manager starts from the loaded lists |
| Goals.GoalManager.SaveGoals | scripts/streak-goal-manager.js:278-280 | The lists are unchanged; `ok` exactly when the write is accepted; the slot then holds the lists and otherwise keeps its old value |
| Goals.GoalManager.CreateGoal | scripts/streak-goal-manager.js:404-434 | Without the form nothing changes and nothing fails; otherwise the new goal is placed by `AddGoal`, and the slot holds the new lists when the write is accepted, or keeps its old value and `ok` is false when it is refused |
| Goals.GoalManager.DeleteGoal | scripts/streak-goal-manager.js:491-506 | Unconfirmed, nothing changes and nothing fails; confirmed, the id is filtered out of both lists, and the slot holds the new lists when the write is accepted, or keeps its old value and `ok` is false when it is refused |
| Goals.GoalManager.ProgressCounts | scripts/streak-goal-manager.js:282-302 | The completed counts of the rings are at most the list lengths |
| Login.EmailMatches | scripts/login-form.js:210 | `/^[^\s@]+@[^\s@]+\.[^\s@]+$/`: an accepted address has at least five characters, an `@` and a `.` |
| Login.PasswordMatches | scripts/login-form.js:227 | `/(?=.*[a-z])(?=.*[A-Z])(?=.*\d)/`: an accepted password has at least three characters |
| Login.NameMatches | scripts/login-form.js:202 | `/^[a-zA-Z\s]+$/`: an accepted name has no digit and no `@` |
| Login.EmailMatchesIffShape | scripts/login-form.js:210-214 | The email expression accepts exactly the inputs with one `@` (not first), no white space, and a `.` after the `@` that is neither right after it nor last |
| Login.MatchHasShape | scripts/login-form.js:210 | An accepted input has that shape |
| Login.ShapeMatches | scripts/login-form.js:210 | An input of that shape is accepted |
| Login.EmailAccepted | scripts/login-form.js:210-214 | `ada@example.com` passes |
| Login.EmailWithoutDotRefused | scripts/login-form.js:210-214 | An address with no dot after the `@` fails |
| Login.EmailWithSpaceRefused | scripts/login-form.js:210-214 | An address containing white space fails |
| Login.EmailWithoutLocalPartRefused | scripts/login-form.js:210-214 | An address that starts with `@` fails |
| Login.PasswordOnOneLine | scripts/login-form.js:227 | On a single line, the password expression requires a lowercase letter, an uppercase letter and a digit |
| Login.PasswordSplitByNewline | scripts/login-form.js:227 | Across a line break the three classes do not count together |
| Login.ValidateField | scripts/login-form.js:184-254 | A hidden input and an input with another name are valid |
| Login.FullNameRule | scripts/login-form.js:197-207 | The full name is checked only in sign-up mode: at least two characters once trimmed, then letters and white space only, each with its message |
| Login.EmailRule | scripts/login-form.js:209-218 | A missing email is reported first, then a malformed one |
| Login.PasswordRule | scripts/login-form.js:220-231 | Required, then at least 8 characters once trimmed, then the three classes, each with its message |
| Login.ConfirmPasswordRule | scripts/login-form.js:233-244 | Checked only in sign-up mode: required, then equal to the password field's raw value |
| Login.PasswordValue | scripts/login-form.js:235 | `getElementById('password')`: the value of the first input whose `name` is `password` (the model identifies inputs by name, and the page's password input has the same name and id); the empty string when there is none |
| Login.Cleared | scripts/login-form.js:282-289 | Every input keeps its place and name and is emptied |
| Login.ClearedEmailFails | scripts/login-form.js:80-118 | After a mode switch has emptied the form, a visible email input fails |
| Login.LoginPage.constructor | scripts/login-form.js:9 | The page starts in login mode |
| Login.LoginPage.HandleModeToggle | scripts/login-form.js:69-118 | Choosing the current mode does nothing; another mode is taken and every input is emptied |
| Login.LoginPage.HandleFormSubmit | scripts/login-form.js:294-316 | The form is valid iff every visible input passes, and otherwise the first failing input is reported |
| Login.FirstInvalid | scripts/login-form.js:301-313 | All valid iff no verdict is invalid; otherwise the index of the first invalid one |
| Snippets.Image | scripts/snippets.js:49-51 | Characters other than `&`, `<` and `>` are kept |
| Snippets.EscapeHtml | scripts/snippets.js:49-51 | No argument gives the empty string, and escaping never shortens the text |
| Snippets.ReplaceAllLength | scripts/snippets.js:50 | A `replaceAll` with a non-empty replacement never shortens the text |
| Snippets.EscapeHtmlIsEscaped | scripts/snippets.js:49-51 | Because `&` is replaced first, the three passes escape each character on its own, with no double escaping |
| Snippets.ChainOnCharacter | scripts/snippets.js:49-51 | The three passes map each character to its entity |
| Snippets.EscapeHtmlAbsent | scripts/snippets.js:49 | With no argument the result is the empty string |
| Snippets.EscapedHasNoAngleBrackets | scripts/snippets.js:49-51 | The output contains no `<` and no `>` |
| Snippets.EscapeHtmlIdentity | scripts/snippets.js:49-51 | Text without the three characters is unchanged |
| Snippets.EscapeHtmlLength | scripts/snippets.js:49-51 | Each `&` adds four characters and each `<` or `>` three |
| Snippets.UnescapeEscapeHtml | scripts/snippets.js:49-51 | Reading the entities back gives the original text, so the escaping loses nothing |
| ChallengeList.ApplyFilters | scripts/challenges.js:97-108 | A challenge is shown iff its lowercased title or language contains the lowercased term and the category is `all` or its own; the order is kept |
| ChallengeList.EmptySearchKeepsAll | scripts/challenges.js:97-108 | An empty search with category `all` keeps the whole list |
| ChallengeList.InitialRenderShowsAll | scripts/challenges.js:129-130 | The first render shows all eight challenges |
| ChallengeList.SearchIgnoresCase | scripts/challenges.js:98-102 | Terms that lowercase alike select the same challenges |
| ChallengeList.ApplyFiltersIdempotent | scripts/challenges.js:97-108 | Filtering twice equals filtering once |
| ChallengeList.EmptySearchIsCategory | scripts/challenges.js:101-105 | With an empty search only the category test is left |
| ChallengeList.BackendCategory | scripts/challenges.js:2-59 | The `backend` category shows the second and fifth challenges, in that order |
| ChallengeList.StatusClass | scripts/challenges.js:79 | The badge class is `complete` exactly when the lowercased status is `complete`, and `incomplete` otherwise |
| ChallengeList.StatusClassExamples | scripts/challenges.js:79 | Badges follow the written status; the test ignores case, but `Completed` is incomplete |
| ChallengeList.OrDefault | scripts/challenges.js:154-156 | `value \|\| fallback`: the fallback for a missing or empty value |
| ChallengeList.CardChallenge | scripts/challenges.js:152-159 | The reported challenge has non-empty fields, with the defaults `Unknown` and `unknown` |
| ChallengeList.UnknownCardsShareId | scripts/challenges.js:152-159 | Every card without a title and a difficulty reports the same id, so only the first such card is recorded |
| ChallengeList.TrackChallengeInteraction | scripts/challenges.js:134-144 | Without a dashboard nothing happens; otherwise a repeated id changes neither the record, the stored copy nor the newly unlocked list, and a new id is recorded by `Track`, saved when the write is accepted, and unlocks what `Unlock` finds for the record with its streak updated |
| Routing.RoutesLeadToPages | scripts/app.js:73-81 | Every route leads to a known page, and every page has a route |
| Routing.LastSegmentIsSuffix | scripts/app.js:127 | `split('/').pop()` is the longest suffix without a `/` |
| Routing.LastSegmentAfterSlash | scripts/app.js:127 | The last segment of `dir/file` is `file` |
| Routing.GetCurrentPageFromPath | scripts/app.js:126-143 | The page of a path is always one of the known pages |
| Routing.PageOfFile | scripts/app.js:127-142 | The `switch` on the file name yields a known page |
| Routing.KnownFiles | scripts/app.js:128-139 | The file names the `switch` recognises, and their pages |
| Routing.UnknownFileIsHome | scripts/app.js:127-141 | An empty or unknown file name shows the home page |
| Routing.PageOfOwnFile | scripts/app.js:126-143 | Every page is recognised at its own address |
| Routing.Normalize | scripts/app.js:111 | `/` and `/index.html` become `/`; any other path is kept |
| Routing.RouteDecision | scripts/app.js:145-158 | An unknown route loads `/`; a known route loads its page unless the current address already shows it |
| Routing.RouteDecisionSettles | scripts/app.js:145-158 | Once a route's page is loaded, routing to it again loads nothing |
| Routing.NavigateAsWritten | scripts/app.js:109-124 | An empty path does nothing; otherwise the normalised path is pushed |
| Routing.NavigateHomeStaysAsWritten | scripts/app.js:109-124 | As written, navigating to `/` from any page other than home pushes `/` and loads nothing |
| Routing.NavigateHomeFromPage | scripts/app.js:109-124 | In particular this happens from the own address of every other page |
| Routing.NavigateIntended | scripts/app.js:109-124 | An empty path does nothing; otherwise the normalised path is pushed and the decision is made against the page on display |
| Routing.NavigateIntendedShowsTarget | scripts/app.js:109-124 | After the intended `navigate` to a known route, that route's page is on display |
| Routing.NavigateAsWrittenAgrees | scripts/app.js:109-124 | The two agree except when the target's own address is read as showing the target |
| Routing.Router.constructor | scripts/app.js:72-83 | The router starts at the initial address with no history and nothing loaded |
| Routing.Router.HandleRoute | scripts/app.js:145-158 | `handleRoute` loads what `RouteDecision` says and changes neither the address nor the history |
| Routing.Router.PopState | scripts/app.js:86-88 | On `popstate` the new address is routed against itself |
| Routing.Router.Navigate | scripts/app.js:109-124 | The corrected `navigate`: the history gains the normalised path and the load is decided against the page on display before the push |
| Leaderboard.Insert | scripts/app.js:262 | Insertion adds exactly the one user |
| Leaderboard.InsertSorted | scripts/app.js:262 | Insertion into a descending list keeps it descending |
| Leaderboard.SortByPoints | scripts/app.js:262 | The sort gives a descending permutation of the users |
| Leaderboard.SortIsStable | scripts/app.js:262 | Users with equal points keep their relative order |
| Leaderboard.SortKeepsSorted | scripts/app.js:262 | A list already in order is unchanged |
| Leaderboard.InitialDataInOrder | scripts/app.js:249-262 | The starting data is already in order |
| Leaderboard.RankClass | scripts/app.js:272 | Only the first three places get a medal class |
| Leaderboard.RankLabel | scripts/app.js:273 | The label is `#` followed by digits |
| Leaderboard.RankLabelsDistinct | scripts/app.js:273 | Labels differ for different places and read back as the one-based place |
| Leaderboard.LeaderboardView.constructor | scripts/app.js:249-255 | The view starts with the five users |
| Leaderboard.LeaderboardView.RenderLeaderboard | scripts/app.js:258-280 | The data is sorted in place, and the cards show it in the new order with their ranks |
| Leaderboard.LeaderboardView.LiveUpdate | scripts/app.js:286-291 | The board becomes the stable descending sort of the users with their drawn bonuses added, and the cards show it with ranks and medal classes |
| Leaderboard.Bumped | scripts/app.js:287-289 | Each user gains their own bonus, with name, picture and position kept |
| Leaderboard.LiveUpdateKeepsUsers | scripts/app.js:286-291 | After a tick the board has as many entries as before, each one an old user with a bonus below 15 added, and every old user is present |
| SubmitForm.BlankIffTrimmedEmpty | javascript-excecutor.js:11 | `value.trim() === ''` exactly when the value is white space only |
| SubmitForm.TestCaseErrors | javascript-excecutor.js:31-37 | At most one message per test case |
| SubmitForm.TestCaseErrorsSound | javascript-excecutor.js:31-37 | Every test-case message names an empty test case, numbered from 1 |
| SubmitForm.TestCaseErrorsComplete | javascript-excecutor.js:31-37 | Every empty test case gets its message |
| SubmitForm.TestCaseErrorsOrdered | javascript-excecutor.js:31-37 | The messages come in page order |
| SubmitForm.TestCaseErrorsEmpty | javascript-excecutor.js:31-37 | No test-case message exactly when every test case has content |
| SubmitForm.FormErrorsEmptyIffValid | javascript-excecutor.js:4-49 | A submission shows no message exactly when every required value is present |
| SubmitForm.NoTestCases | javascript-excecutor.js:31-37 | With no test-case inputs, only the other four values decide |
| SubmitForm.CheckTestCases | javascript-excecutor.js:31-37 | The `forEach` computes `TestCaseErrors` |
| SubmitForm.ChallengeForm.constructor | javascript-excecutor.js:1-2 | No messages and no accepted submission at first |
| SubmitForm.ChallengeForm.Submit | javascript-excecutor.js:4-65 | The old messages are replaced by this submission's, in page order; it is accepted iff the form is valid |
| SubmitForm.GetFileExtension | javascript-excecutor.js:82-94 | The table entry for the lowercased language, else `txt` |
| SubmitForm.GetFileExtensionIgnoresCase | javascript-excecutor.js:82-94 | The extension ignores case and is one of six |
| SubmitForm.DownloadNames | javascript-excecutor.js:75-77 | No selection downloads `my_code.txt`; `Python` gives `.py`, `JavaScript` `.js`, and `C++` `.txt` |
| SubmitForm.DownloadName | javascript-excecutor.js:75-77 | With no selection the file is `my_code.txt` (`code` has no table entry); otherwise `my_code.` and the extension of the selected language |

## Findings

| source | as written | input that shows it | evidently intended | confidence | as-written member | corrected member |
|---|---|---|---|---|---|---|
| scripts/app.js:109-124 | `navigate` pushes the new history entry before `handleRoute`, so `handleRoute` compares the target with the page of the NEW address. `/` is then read as the home page already on display | `navigate('/')` while at `/pages/challenges.html`: `/` is pushed, nothing is loaded, and the challenges page stays on screen under the address `/` | decide against the page on display (the `currentPage` that `navigate` itself computed) and load `index.html` | not executed | Routing.NavigateAsWritten, Routing.NavigateHomeStaysAsWritten | Routing.NavigateIntended, Routing.NavigateIntendedShowsTarget, Routing.Router.Navigate |

## Left out

- The clock: `new Date()`, `Date.now()` and the ISO day strings are parameters (`today`, `now`), and days are integers.
- `Math.random` in the calendar, the leaderboard and the demonstration data: the draws are parameters.
- Local-storage failures other than a refused write, and the `JSON.parse` of ill-typed values: a stored record is a typed value whose fields may be missing.
- Keys inherited from `Object.prototype` (`constructor`, `toString`, …) in the route, extension and skill tables, and in the achievement points (`|| 50`), rarity, target and hint tables, are treated as absent.
- Case mapping is ASCII only, and string length counts characters rather than UTF-16 code units.
- DOM work, styling, animations, notifications, charts, modals, tooltips and the markdown preview and JSON checks of the submission page: no logic is proved there.
- The real-time input feedback of the login form and its loading and success messages: these are timers and DOM updates.
- Progress.ProgressDashboard.constructor: whether the page is the profile page is a parameter, and the rendering `initializeDashboard` does after the demonstration data is not modelled.
- Login.PasswordValue: a missing `password` element (which would throw) is read as the empty string.
- Goals.GoalManager.constructor: requires a readable slot, because an unparseable `codeclip_goals` makes `loadGoals` throw in the constructor. The throw itself is not modelled.
- Progress.RepeatedChallengeKeepsStreak: follows the code. Completing the same challenge on consecutive days does not extend the streak, because the duplicate returns before `updateStreak`.
- Percentages and other floating-point figures of the dashboard: not modelled.
- SubmitForm.ChallengeForm.Submit: `form.reset()` clearing the input values is not modelled; only the count of accepted submissions is.
- Routing.Router.Navigate: models the corrected decision from the finding above. The behaviour as written is `Routing.NavigateAsWritten`. The address is set to the path literally, with no resolution of relative `href`s.
- `scripts/demo-data.js`, `main.js`, `theme.js`, `qrshare.js`, `profile-card.js`, `pricing-card.js`, `responsive-navbar.js`, `dark-mode-toggle.js`, `script.js` and `js/challengeOfTheDay.js` are not part of this model.
